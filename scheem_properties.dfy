/**
 What each special form of javascripts/scheem.js promises, stated against
 reference definitions (left-to-right operand evaluation, Sum, Product, the
 ordering of integers) rather than against the evaluator's own loops.
 */
module ScheemProperties {
  import opened ScheemValues
  import opened Scheem
  import opened ScheemFrame

  // ---------------------------------------------------------------------
  // Reference definitions.

  /** The values of some operands evaluated left to right, each in the
      environment the previous one left; stop is the failure that ended the
      walk early, if any. */
  datatype Operands = Operands(vals: seq<Value>, stop: Option<Failure>, env: Store)

  function EvalAll(xs: seq<Value>, s: Store, hasEnv: bool): Operands
    decreases |xs|
  {
    if xs == [] then Operands([], None, s)
    else
      var o := Eval(xs[0], s, hasEnv);
      if o.res.Err? then Operands([], Some(o.res.failure), o.env)
      else
        var rest := EvalAll(xs[1..], o.env, hasEnv);
        Operands([o.res.value] + rest.vals, rest.stop, rest.env)
  }

  /** Like EvalAll, but every value must be a number: the walk also stops,
      with 'Invalid number', at the first value that is not. */
  datatype Numbers = Numbers(nums: seq<int>, stop: Option<Failure>, env: Store)

  function EvalNumbers(xs: seq<Value>, s: Store, hasEnv: bool): Numbers
    decreases |xs|
  {
    if xs == [] then Numbers([], None, s)
    else
      var o := Eval(xs[0], s, hasEnv);
      if o.res.Err? then Numbers([], Some(o.res.failure), o.env)
      else if !o.res.value.Num? then Numbers([], Some(Throw(InvalidNumberMessage)), o.env)
      else
        var rest := EvalNumbers(xs[1..], o.env, hasEnv);
        Numbers([o.res.value.n] + rest.nums, rest.stop, rest.env)
  }

  // ---------------------------------------------------------------------
  // Atoms and unknown heads.

  /** 'error' throws 'Error', 'nil' is null, a number is itself, and any
      other symbol reads its binding (undefined when absent) or, without an
      environment, is a TypeError; the environment is never changed. */
  lemma {:induction false} AtomEvaluation(a: Value, s: Store, hasEnv: bool)
    requires a.Num? || a.Sym?
    ensures Eval(a, s, hasEnv).env == s
    ensures a == Sym("error") ==> Eval(a, s, hasEnv).res == Err(Throw("Error"))
    ensures a == Sym("nil") ==> Eval(a, s, hasEnv).res == Ok(Null)
    ensures a.Num? ==> Eval(a, s, hasEnv).res == Ok(a)
    ensures a.Sym? && a.name != "error" && a.name != "nil" ==>
      Eval(a, s, hasEnv).res ==
        if !hasEnv then Err(HostTypeError)
        else if a.name in s then Ok(s[a.name])
        else Ok(Undefined)
  {}

  /** An empty list, or a list whose head names no form, evaluates to
      undefined without evaluating anything. */
  lemma {:induction false} UnknownHeadIsUndefined(e: Value, s: Store, hasEnv: bool)
    requires e.List?
    requires e.elems == [] || forall f :: e.elems[0] != Sym(FormName(f))
    ensures Eval(e, s, hasEnv) == Outcome(Ok(Undefined), s)
  {}

  // ---------------------------------------------------------------------
  // quote

  /** `quote` hands back its one operand unevaluated; any other operand
      count throws. */
  lemma {:induction false} QuoteReturnsOperand(e: Value, s: Store, hasEnv: bool)
    requires e.List? && e.elems != [] && e.elems[0] == Sym("quote")
    ensures |e.elems| == 2 ==> Eval(e, s, hasEnv) == Outcome(Ok(e.elems[1]), s)
    ensures |e.elems| != 2 ==> Eval(e, s, hasEnv) == Fail(ArityMessage, s)
  {
    EvalDispatch(Quote, e, s, hasEnv);
  }

  // ---------------------------------------------------------------------
  // + and *

  lemma {:induction false} SumFromAddsNumbers(e: Value, i: nat, acc: int, s: Store, hasEnv: bool)
    requires e.List? && 1 <= i <= |e.elems|
    ensures var ns := EvalNumbers(e.elems[i..], s, hasEnv);
      SumFrom(e, i, acc, s, hasEnv) ==
        if ns.stop.Some? then Outcome(Err(ns.stop.value), ns.env)
        else Outcome(Ok(Num(acc + Sum(ns.nums))), ns.env)
    decreases |e.elems| - i
  {
    var xs := e.elems[i..];
    if i < |e.elems| {
      assert xs[0] == e.elems[i] && xs[1..] == e.elems[i + 1..];
      var o := Eval(e.elems[i], s, hasEnv);
      if o.res.Ok? && o.res.value.Num? {
        SumFromAddsNumbers(e, i + 1, acc + o.res.value.n, o.env, hasEnv);
        var rest := EvalNumbers(e.elems[i + 1..], o.env, hasEnv);
        assert ([o.res.value.n] + rest.nums)[1..] == rest.nums;
      }
    }
  }

  /** `+` needs an operand; then it is the Sum of its operands' values,
      evaluated left to right, and throws 'Invalid number' at the first
      value that is not a number (the operands after it are not evaluated). */
  lemma {:induction false} PlusAddsOperands(e: Value, s: Store, hasEnv: bool)
    requires e.List? && e.elems != [] && e.elems[0] == Sym("+")
    ensures |e.elems| == 1 ==> Eval(e, s, hasEnv) == Fail(ArityMessage, s)
    ensures |e.elems| > 1 ==>
      var ns := EvalNumbers(e.elems[1..], s, hasEnv);
      Eval(e, s, hasEnv) ==
        if ns.stop.Some? then Outcome(Err(ns.stop.value), ns.env)
        else Outcome(Ok(Num(Sum(ns.nums))), ns.env)
  {
    EvalDispatch(Plus, e, s, hasEnv);
    if |e.elems| > 1 {
      SumFromAddsNumbers(e, 1, 0, s, hasEnv);
    }
  }

  lemma {:induction false} ProductFromMultipliesNumbers(e: Value, i: nat, acc: int, s: Store, hasEnv: bool)
    requires e.List? && 1 <= i <= |e.elems|
    ensures var ns := EvalNumbers(e.elems[i..], s, hasEnv);
      ProductFrom(e, i, acc, s, hasEnv) ==
        if ns.stop.Some? then Outcome(Err(ns.stop.value), ns.env)
        else Outcome(Ok(Num(acc * Product(ns.nums))), ns.env)
    decreases |e.elems| - i
  {
    var xs := e.elems[i..];
    if i < |e.elems| {
      assert xs[0] == e.elems[i] && xs[1..] == e.elems[i + 1..];
      var o := Eval(e.elems[i], s, hasEnv);
      if o.res.Ok? && o.res.value.Num? {
        var n := o.res.value.n;
        ProductFromMultipliesNumbers(e, i + 1, acc * n, o.env, hasEnv);
        var rest := EvalNumbers(e.elems[i + 1..], o.env, hasEnv);
        assert ([n] + rest.nums)[1..] == rest.nums;
        assert acc * n * Product(rest.nums) == acc * (n * Product(rest.nums));
      }
    }
  }

  /** `*` needs an operand; then it is the Product of its operands' values,
      with the same order and the same 'Invalid number' rule as `+`. */
  lemma {:induction false} TimesMultipliesOperands(e: Value, s: Store, hasEnv: bool)
    requires e.List? && e.elems != [] && e.elems[0] == Sym("*")
    ensures |e.elems| == 1 ==> Eval(e, s, hasEnv) == Fail(ArityMessage, s)
    ensures |e.elems| > 1 ==>
      var ns := EvalNumbers(e.elems[1..], s, hasEnv);
      Eval(e, s, hasEnv) ==
        if ns.stop.Some? then Outcome(Err(ns.stop.value), ns.env)
        else Outcome(Ok(Num(Product(ns.nums))), ns.env)
  {
    EvalDispatch(Times, e, s, hasEnv);
    if |e.elems| > 1 {
      ProductFromMultipliesNumbers(e, 1, 1, s, hasEnv);
    }
  }

  // ---------------------------------------------------------------------
  // -, / and %

  /** Unary `-` negates a number; `-` accepts only one or two operands. */
  lemma {:induction false} MinusNegatesOrSubtracts(e: Value, s: Store, hasEnv: bool)
    requires e.List? && e.elems != [] && e.elems[0] == Sym("-")
    ensures (|e.elems| < 2 || |e.elems| > 3) ==> Eval(e, s, hasEnv) == Fail(ArityMessage, s)
    ensures |e.elems| == 2 ==>
      var o := Eval(e.elems[1], s, hasEnv);
      o.res.Ok? && o.res.value.Num? ==> Eval(e, s, hasEnv) == Outcome(Ok(Num(-o.res.value.n)), o.env)
    ensures |e.elems| == 3 && e.elems[1].Num? && e.elems[2].Num? ==>
      Eval(e, s, hasEnv) == Outcome(Ok(Num(e.elems[1].n - e.elems[2].n)), s)
  {
    EvalDispatch(Minus, e, s, hasEnv);
  }

  /** Binary `-`, `/` and `%` check the operand expressions, not their values:
      once both operands have evaluated, anything but two number literals
      throws 'Invalid number' (for `/` and `%`, once the divisor has passed
      the zero test: a nonzero number, null or undefined). */
  lemma {:induction false} ArithmeticNeedsLiterals(e: Value, s: Store, hasEnv: bool)
    requires e.List? && |e.elems| == 3
    requires e.elems[0] in {Sym("-"), Sym("/"), Sym("%")}
    requires !(e.elems[1].Num? && e.elems[2].Num?)
    requires Eval(e.elems[1], s, hasEnv).res.Ok?
    requires Eval(e.elems[2], Eval(e.elems[1], s, hasEnv).env, hasEnv).res.Ok?
    requires e.elems[0] != Sym("-") ==>
      LooselyZero(Eval(e.elems[2], Eval(e.elems[1], s, hasEnv).env, hasEnv).res.value) == Some(false)
    ensures Eval(e, s, hasEnv) ==
      Fail(InvalidNumberMessage, Eval(e.elems[2], Eval(e.elems[1], s, hasEnv).env, hasEnv).env)
  {
    if e.elems[0] == Sym("-") {
      EvalDispatch(Minus, e, s, hasEnv);
    } else if e.elems[0] == Sym("/") {
      EvalDispatch(Divide, e, s, hasEnv);
    } else {
      EvalDispatch(Modulo, e, s, hasEnv);
    }
  }

  /** `/` and `%` need exactly two operands, and throw 'Division by zero'
      when the divisor evaluates to 0 (after both operands have run). */
  lemma {:induction false} DivisionByZeroThrows(e: Value, s: Store, hasEnv: bool)
    requires e.List? && e.elems != [] && e.elems[0] in {Sym("/"), Sym("%")}
    ensures |e.elems| != 3 ==> Eval(e, s, hasEnv) == Fail(ArityMessage, s)
    ensures |e.elems| == 3 ==>
      var o1 := Eval(e.elems[1], s, hasEnv);
      var o2 := Eval(e.elems[2], o1.env, hasEnv);
      o1.res.Ok? && o2.res == Ok(Num(0)) ==> Eval(e, s, hasEnv) == Fail(DivisionByZeroMessage, o2.env)
  {
    if e.elems[0] == Sym("/") {
      EvalDispatch(Divide, e, s, hasEnv);
    } else {
      EvalDispatch(Modulo, e, s, hasEnv);
    }
  }

  /** On number literals `/` gives the exact quotient where there is one. */
  lemma {:induction false} DivideLiterals(a: int, b: int, s: Store, hasEnv: bool)
    requires b != 0 && a % b == 0
    ensures var r := Eval(List([Sym("/"), Num(a), Num(b)]), s, hasEnv);
      r.env == s && r.res.Ok? && r.res.value.Num? && r.res.value.n * b == a
  {
    EvalDispatch(Divide, List([Sym("/"), Num(a), Num(b)]), s, hasEnv);
  }

  /** On number literals `%` is the JS remainder: a - r is a multiple of b,
      |r| < |b|, and a nonzero r has the sign of a. */
  lemma {:induction false} ModuloLiterals(a: int, b: int, s: Store, hasEnv: bool)
    requires b != 0
    ensures var r := Eval(List([Sym("%"), Num(a), Num(b)]), s, hasEnv);
      && r.env == s && r.res.Ok? && r.res.value.Num?
      && a == b * TruncQuot(a, b) + r.res.value.n
      && Abs(r.res.value.n) < Abs(b)
      && (r.res.value.n == 0 || (r.res.value.n < 0 <==> a < 0))
  {
    EvalDispatch(Modulo, List([Sym("%"), Num(a), Num(b)]), s, hasEnv);
    TruncRemIsRemainder(a, b);
  }

  // ---------------------------------------------------------------------
  // define and set!

  /** `define` needs two operands and a symbol target, and throws when the
      name is already bound; otherwise it evaluates operand 2 and binds the
      name to its value in the environment that evaluation left, returning 0.
      When operand 2 defines nothing, only that one name changes. */
  lemma {:induction false} DefineBindsName(e: Value, s: Store)
    requires e.List? && e.elems != [] && e.elems[0] == Sym("define")
    ensures |e.elems| != 3 ==> Eval(e, s, true) == Fail(ArityMessage, s)
    ensures |e.elems| == 3 && !e.elems[1].Sym? ==> Eval(e, s, true) == Fail(InvalidSymbolMessage, s)
    ensures |e.elems| == 3 && e.elems[1].Sym? ==>
      var k := e.elems[1].name;
      var o := Eval(e.elems[2], s, true);
      Eval(e, s, true) ==
        if Bound(s, k) then Fail(AlreadyDefinedMessage, s)
        else if o.res.Err? then o
        else Outcome(Ok(Num(0)), o.env[k := o.res.value])
    ensures |e.elems| == 3 && e.elems[1].Sym? && !Bound(s, e.elems[1].name) && Targets(e.elems[2]) == {} ==>
      var o := Eval(e.elems[2], s, true);
      o.res.Ok? ==> Eval(e, s, true) == Outcome(Ok(Num(0)), s[e.elems[1].name := o.res.value])
  {
    EvalDispatch(Define, e, s, true);
    if |e.elems| == 3 && Targets(e.elems[2]) == {} {
      NoTargetsNoChange(e.elems[2], s, true);
    }
  }

  /** `set!` needs two operands and a bound name; it evaluates operand 2,
      overwrites that name with the value and returns the value. When
      operand 2 writes nothing, only that one name changes. */
  lemma {:induction false} SetRebindsName(e: Value, s: Store)
    requires e.List? && e.elems != [] && e.elems[0] == Sym("set!")
    ensures |e.elems| != 3 ==> Eval(e, s, true) == Fail(ArityMessage, s)
    ensures |e.elems| == 3 ==>
      var k := PropertyKey(e.elems[1]);
      var o := Eval(e.elems[2], s, true);
      Eval(e, s, true) ==
        if !Bound(s, k) then Fail(NotDefinedMessage, s)
        else if o.res.Err? then o
        else Outcome(o.res, o.env[k := o.res.value])
    ensures |e.elems| == 3 && Bound(s, PropertyKey(e.elems[1])) && Targets(e.elems[2]) == {} ==>
      var o := Eval(e.elems[2], s, true);
      o.res.Ok? ==> Eval(e, s, true) == Outcome(o.res, s[PropertyKey(e.elems[1]) := o.res.value])
  {
    EvalDispatch(SetBang, e, s, true);
    if |e.elems| == 3 && Targets(e.elems[2]) == {} {
      NoTargetsNoChange(e.elems[2], s, true);
    }
  }

  /** Without an environment, `define` and `set!` fail with a TypeError
      (after their arity and symbol checks) and write nothing. */
  lemma {:induction false} BindingFormsNeedEnvironment(e: Value, s: Store)
    requires e.List? && |e.elems| == 3 && e.elems[0] in {Sym("define"), Sym("set!")}
    requires e.elems[0] == Sym("define") ==> e.elems[1].Sym?
    ensures Eval(e, s, false) == Outcome(Err(HostTypeError), s)
  {
    if e.elems[0] == Sym("define") {
      EvalDispatch(Define, e, s, false);
    } else {
      EvalDispatch(SetBang, e, s, false);
    }
  }

  // ---------------------------------------------------------------------
  // begin

  lemma {:induction false} BeginFromYieldsLast(e: Value, i: nat, last: Value, s: Store, hasEnv: bool)
    requires e.List? && 1 <= i <= |e.elems|
    ensures var vs := EvalAll(e.elems[i..], s, hasEnv);
      BeginFrom(e, i, last, s, hasEnv) ==
        if vs.stop.Some? then Outcome(Err(vs.stop.value), vs.env)
        else Outcome(Ok(if vs.vals == [] then last else vs.vals[|vs.vals| - 1]), vs.env)
    decreases |e.elems| - i
  {
    var xs := e.elems[i..];
    if i < |e.elems| {
      assert xs[0] == e.elems[i] && xs[1..] == e.elems[i + 1..];
      var o := Eval(e.elems[i], s, hasEnv);
      if o.res.Ok? {
        BeginFromYieldsLast(e, i + 1, o.res.value, o.env, hasEnv);
      }
    }
  }

  /** `begin` evaluates its operands in order, each in the environment the
      previous one left, and returns the last value, or null when it has no
      operands; the first failure ends it. */
  lemma {:induction false} BeginYieldsLast(e: Value, s: Store, hasEnv: bool)
    requires e.List? && e.elems != [] && e.elems[0] == Sym("begin")
    ensures var vs := EvalAll(e.elems[1..], s, hasEnv);
      Eval(e, s, hasEnv) ==
        if vs.stop.Some? then Outcome(Err(vs.stop.value), vs.env)
        else Outcome(Ok(if vs.vals == [] then Null else vs.vals[|vs.vals| - 1]), vs.env)
  {
    EvalDispatch(Begin, e, s, hasEnv);
    BeginFromYieldsLast(e, 1, Null, s, hasEnv);
  }

  // ---------------------------------------------------------------------
  // cons, car and cdr

  /** cons, car and cdr evaluate their operands without the environment: their
      outcome does not depend on it and they never change it. */
  lemma {:induction false} ListFormsIgnoreEnvironment(e: Value, s: Store, hasEnv: bool)
    requires e.List? && e.elems != [] && e.elems[0] in {Sym("cons"), Sym("car"), Sym("cdr")}
    ensures Eval(e, s, hasEnv) == Outcome(Eval(e, map[], false).res, s)
  {
    var f := if e.elems[0] == Sym("cons") then Cons else if e.elems[0] == Sym("car") then Car else Cdr;
    EvalDispatch(f, e, s, hasEnv);
    EvalDispatch(f, e, map[], false);
  }

  /** So a variable inside their operands is a TypeError, whatever the
      environment binds. */
  lemma {:induction false} ListOperandCannotReadVariables(f: Form, x: string, s: Store, hasEnv: bool)
    requires f in {Car, Cdr}
    requires x != "error" && x != "nil"
    ensures Eval(List([Sym(FormName(f)), Sym(x)]), s, hasEnv) == Outcome(Err(HostTypeError), s)
  {
    EvalDispatch(f, List([Sym(FormName(f)), Sym(x)]), s, hasEnv);
  }

  /** `cons` prepends operand 1's value to a copy of operand 2's list; car and
      cdr take such a list apart again. */
  lemma {:induction false} CarCdrInvertCons(a: Value, l: Value, s: Store, hasEnv: bool)
    requires Eval(List([Sym("cons"), a, l]), s, hasEnv).res.Ok?
    ensures var tail := Eval(l, map[], false).res;
      tail.Ok? && tail.value.List? && Eval(a, map[], false).res.Ok? &&
      Eval(List([Sym("cons"), a, l]), s, hasEnv).res == Ok(List([Eval(a, map[], false).res.value] + tail.value.elems))
    ensures Eval(List([Sym("car"), List([Sym("cons"), a, l])]), s, hasEnv) == Outcome(Eval(a, map[], false).res, s)
    ensures Eval(List([Sym("cdr"), List([Sym("cons"), a, l])]), s, hasEnv) == Outcome(Eval(l, map[], false).res, s)
  {
    var c := List([Sym("cons"), a, l]);
    EvalDispatch(Cons, c, s, hasEnv);
    EvalDispatch(Cons, c, map[], false);
    EvalDispatch(Car, List([Sym("car"), c]), s, hasEnv);
    EvalDispatch(Cdr, List([Sym("cdr"), c]), s, hasEnv);
    var tail := Eval(l, map[], false).res;
    assert ([Eval(a, map[], false).res.value] + tail.value.elems)[1..] == tail.value.elems;
  }

  /** car and cdr need exactly one operand, and throw unless it evaluates to a
      non-empty list; then car is its head and cdr the rest. */
  lemma {:induction false} CarCdrNeedNonEmptyList(f: Form, e: Value, s: Store, hasEnv: bool)
    requires f in {Car, Cdr}
    requires e.List? && e.elems != [] && e.elems[0] == Sym(FormName(f))
    ensures |e.elems| != 2 ==> Eval(e, s, hasEnv) == Fail(ArityMessage, s)
    ensures |e.elems| == 2 ==>
      var l := Eval(e.elems[1], map[], false).res;
      l.Ok? ==>
        if !l.value.List? || l.value.elems == [] then
          Eval(e, s, hasEnv) == Fail(if f == Car then CarMessage else CdrMessage, s)
        else
          Eval(e, s, hasEnv).res == Ok(if f == Car then l.value.elems[0] else List(l.value.elems[1..]))
  {
    EvalDispatch(f, e, s, hasEnv);
  }

  /** `cons` needs two operands. It evaluates operand 2 first, without the
      environment, and throws unless that is a list; then operand 1, whose
      value it puts in front. A failing operand's error passes through. */
  lemma {:induction false} ConsNeedsList(e: Value, s: Store, hasEnv: bool)
    requires e.List? && e.elems != [] && e.elems[0] == Sym("cons")
    ensures |e.elems| != 3 ==> Eval(e, s, hasEnv) == Fail(ArityMessage, s)
    ensures |e.elems| == 3 ==>
      var tail := Eval(e.elems[2], map[], false).res;
      var head := Eval(e.elems[1], map[], false).res;
      Eval(e, s, hasEnv) ==
        if tail.Err? then Outcome(tail, s)
        else if !tail.value.List? then Fail(ConsMessage, s)
        else if head.Err? then Outcome(head, s)
        else Outcome(Ok(List([head.value] + tail.value.elems)), s)
  {
    EvalDispatch(Cons, e, s, hasEnv);
  }

  // ---------------------------------------------------------------------
  // Comparisons and if

  /** Every comparison needs two operands and returns a truth atom. */
  lemma {:induction false} ComparisonGivesTruthAtom(rel: Relation, e: Value, s: Store, hasEnv: bool)
    requires e.List? && e.elems != [] && e.elems[0] == Sym(FormName(Compare(rel)))
    ensures |e.elems| != 3 ==> Eval(e, s, hasEnv) == Fail(ArityMessage, s)
    ensures Eval(e, s, hasEnv).res.Ok? ==>
      Eval(e, s, hasEnv).res.value == TrueAtom || Eval(e, s, hasEnv).res.value == FalseAtom
  {
    EvalDispatch(Compare(rel), e, s, hasEnv);
  }

  /** Once both operands have evaluated, left to right, to numbers (or to
      null, which `<`, `>`, `<=` and `>=` read as 0), each comparison is the
      integer order it names; the bindings are those the operands left. */
  lemma {:induction false} CompareValues(rel: Relation, x: Value, y: Value, s: Store, hasEnv: bool)
    requires
      var v1, v2 := Eval(x, s, hasEnv).res, Eval(y, Eval(x, s, hasEnv).env, hasEnv).res;
      && v1.Ok? && v2.Ok? && NumberOf(v1.value).Some? && NumberOf(v2.value).Some?
      && (rel.Eq? || rel.Ne? ==> v1.value.Num? && v2.value.Num?)
    ensures
      var o1 := Eval(x, s, hasEnv);
      var o2 := Eval(y, o1.env, hasEnv);
      Eval(List([Sym(FormName(Compare(rel))), x, y]), s, hasEnv)
        == Outcome(Ok(Truth(Holds(rel, NumberOf(o1.res.value).value, NumberOf(o2.res.value).value))), o2.env)
  {
    EvalDispatch(Compare(rel), List([Sym(FormName(Compare(rel))), x, y]), s, hasEnv);
  }

  /** `=` and `<>` compare the operands' values strictly: equal numbers,
      equal strings, null with null and undefined with undefined, never
      across types; `<>` is the negation of `=`. */
  lemma {:induction false} EqualityOnValues(x: Value, y: Value, s: Store, hasEnv: bool)
    requires
      var v1, v2 := Eval(x, s, hasEnv).res, Eval(y, Eval(x, s, hasEnv).env, hasEnv).res;
      v1.Ok? && v2.Ok? && !(v1.value.List? && v2.value.List?)
    ensures
      var o1 := Eval(x, s, hasEnv);
      var o2 := Eval(y, o1.env, hasEnv);
      && Eval(List([Sym("="), x, y]), s, hasEnv) == Outcome(Ok(Truth(o1.res.value == o2.res.value)), o2.env)
      && Eval(List([Sym("<>"), x, y]), s, hasEnv) == Outcome(Ok(Truth(o1.res.value != o2.res.value)), o2.env)
  {
    EvalDispatch(Compare(Eq), List([Sym("="), x, y]), s, hasEnv);
    EvalDispatch(Compare(Ne), List([Sym("<>"), x, y]), s, hasEnv);
  }

  /** `<>` is `=` with the truth atoms swapped, on any operands. */
  lemma {:induction false} NotEqualNegatesEqual(a: Value, b: Value, s: Store, hasEnv: bool)
    ensures var eq := Eval(List([Sym("="), a, b]), s, hasEnv);
      var ne := Eval(List([Sym("<>"), a, b]), s, hasEnv);
      && ne.env == eq.env
      && (ne.res.Ok? <==> eq.res.Ok?)
      && (eq.res.Ok? ==> (ne.res.value == TrueAtom <==> eq.res.value == FalseAtom))
  {
    EvalDispatch(Compare(Eq), List([Sym("="), a, b]), s, hasEnv);
    EvalDispatch(Compare(Ne), List([Sym("<>"), a, b]), s, hasEnv);
  }

  /** `if` takes one to three operands. Only the truth atom "#t" selects the
      then-branch; a missing branch yields "#t" or "#f"; and the branch not
      taken is never evaluated, so replacing it changes nothing. */
  lemma {:induction false} IfTakesOneBranch(c: Value, t: Value, f: Value, t': Value, f': Value, s: Store, hasEnv: bool)
    ensures var o := Eval(c, s, hasEnv);
      o.res.Ok? ==>
        if o.res.value == TrueAtom then
          && Eval(List([Sym("if"), c, t, f]), s, hasEnv) == Eval(t, o.env, hasEnv)
          && Eval(List([Sym("if"), c, t, f']), s, hasEnv) == Eval(t, o.env, hasEnv)
          && Eval(List([Sym("if"), c, t]), s, hasEnv) == Eval(t, o.env, hasEnv)
          && Eval(List([Sym("if"), c]), s, hasEnv) == Outcome(Ok(TrueAtom), o.env)
        else
          && Eval(List([Sym("if"), c, t, f]), s, hasEnv) == Eval(f, o.env, hasEnv)
          && Eval(List([Sym("if"), c, t', f]), s, hasEnv) == Eval(f, o.env, hasEnv)
          && Eval(List([Sym("if"), c, t]), s, hasEnv) == Outcome(Ok(FalseAtom), o.env)
          && Eval(List([Sym("if"), c]), s, hasEnv) == Outcome(Ok(FalseAtom), o.env)
  {
    EvalDispatch(If, List([Sym("if"), c, t, f]), s, hasEnv);
    EvalDispatch(If, List([Sym("if"), c, t, f']), s, hasEnv);
    EvalDispatch(If, List([Sym("if"), c, t', f]), s, hasEnv);
    EvalDispatch(If, List([Sym("if"), c, t]), s, hasEnv);
    EvalDispatch(If, List([Sym("if"), c]), s, hasEnv);
  }

  /** `if` with no operand or more than three throws the arity error before
      evaluating anything. */
  lemma {:induction false} IfArity(e: Value, s: Store, hasEnv: bool)
    requires e.List? && e.elems != [] && e.elems[0] == Sym("if")
    requires |e.elems| < 2 || |e.elems| > 4
    ensures Eval(e, s, hasEnv) == Fail(ArityMessage, s)
  {
    EvalDispatch(If, e, s, hasEnv);
  }
}
