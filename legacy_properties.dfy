/**
 What each special form of the older scheem.js promises, and where it parts
 from javascripts/scheem.js: `nil` is an ordinary name, `+` and `*` coerce
 instead of throwing, `/` and `%` test the divisor before evaluating the
 dividend, `define` takes any target, and car and cdr are lenient.
 */
module LegacyProperties {
  import opened ScheemValues
  import opened LegacyScheem
  import opened LegacyFrame

  // ---------------------------------------------------------------------
  // Reference definitions.

  /** The values of some operands evaluated left to right, each in the
      environment the previous one left; stop is the failure that ended the
      walk early, if any. */
  datatype Operands = Operands(vals: seq<Value>, stop: Option<Failure>, env: Store)

  function EvalAll(xs: seq<Value>, s: Store, hasEnv: bool): Operands
    decreases |xs|
  {
    if xs == [] then Operands([], None, s)
    else
      var o := Eval(xs[0], s, hasEnv);
      if o.res.Err? then Operands([], Some(o.res.failure), o.env)
      else
        var rest := EvalAll(xs[1..], o.env, hasEnv);
        Operands([o.res.value] + rest.vals, rest.stop, rest.env)
  }

  /** The numbers JS coerces some values to, when the model follows the
      coercion of every one of them. */
  function Coerced(vals: seq<Value>): Option<seq<int>> {
    if vals == [] then Some([])
    else
      var n, rest := NumberOf(vals[0]), Coerced(vals[1..]);
      if n.Some? && rest.Some? then Some([n.value] + rest.value) else None
  }

  // ---------------------------------------------------------------------
  // Atoms

  /** 'error' still throws, but `nil` is just a name: it reads its binding
      like any other symbol. */
  lemma {:induction false} NilIsAName(s: Store)
    ensures Eval(Sym("nil"), s, true) == Outcome(Ok(Lookup(s, "nil")), s)
    ensures Eval(Sym("error"), s, true) == Fail(ErrorMessage, s)
  {}

  // ---------------------------------------------------------------------
  // + and *

  lemma {:induction false} SumFromCoerces(e: Value, i: nat, acc: Option<int>, s: Store, hasEnv: bool)
    requires e.List? && 1 <= i <= |e.elems|
    ensures var vs := EvalAll(e.elems[i..], s, hasEnv);
      var ns := Coerced(vs.vals);
      SumFrom(e, i, acc, s, hasEnv) ==
        if vs.stop.Some? then Outcome(Err(vs.stop.value), vs.env)
        else if acc.Some? && ns.Some? then Outcome(Ok(Num(acc.value + Sum(ns.value))), vs.env)
        else Outcome(Err(Unmodelled), vs.env)
    decreases |e.elems| - i
  {
    var xs := e.elems[i..];
    if i < |e.elems| {
      assert xs[0] == e.elems[i] && xs[1..] == e.elems[i + 1..];
      var o := Eval(e.elems[i], s, hasEnv);
      if o.res.Ok? {
        var v := o.res.value;
        SumFromCoerces(e, i + 1, AddTo(acc, NumberOf(v)), o.env, hasEnv);
        var rest := EvalAll(e.elems[i + 1..], o.env, hasEnv);
        assert ([v] + rest.vals)[1..] == rest.vals;
        var ns := Coerced(rest.vals);
        if NumberOf(v).Some? && ns.Some? {
          assert ([NumberOf(v).value] + ns.value)[1..] == ns.value;
        }
      }
    }
  }

  /** `+` needs an operand; it evaluates every operand, however many of them
      are not numbers, and adds their coerced values: it has no
      'Invalid number' of its own, and null counts as 0. */
  lemma {:induction false} PlusCoercesOperands(e: Value, s: Store, hasEnv: bool)
    requires e.List? && e.elems != [] && e.elems[0] == Sym("+")
    ensures |e.elems| == 1 ==> Eval(e, s, hasEnv) == Fail(ArityMessage, s)
    ensures |e.elems| > 1 ==>
      var vs := EvalAll(e.elems[1..], s, hasEnv);
      var ns := Coerced(vs.vals);
      Eval(e, s, hasEnv) ==
        if vs.stop.Some? then Outcome(Err(vs.stop.value), vs.env)
        else if ns.Some? then Outcome(Ok(Num(Sum(ns.value))), vs.env)
        else Outcome(Err(Unmodelled), vs.env)
  {
    EvalDispatch(Plus, e, s, hasEnv);
    if |e.elems| > 1 {
      SumFromCoerces(e, 1, Some(0), s, hasEnv);
    }
  }

  lemma {:induction false} ProductFromCoerces(e: Value, i: nat, acc: Option<int>, s: Store, hasEnv: bool)
    requires e.List? && 1 <= i <= |e.elems|
    ensures var vs := EvalAll(e.elems[i..], s, hasEnv);
      var ns := Coerced(vs.vals);
      ProductFrom(e, i, acc, s, hasEnv) ==
        if vs.stop.Some? then Outcome(Err(vs.stop.value), vs.env)
        else if acc.Some? && ns.Some? then Outcome(Ok(Num(acc.value * Product(ns.value))), vs.env)
        else Outcome(Err(Unmodelled), vs.env)
    decreases |e.elems| - i
  {
    var xs := e.elems[i..];
    if i < |e.elems| {
      assert xs[0] == e.elems[i] && xs[1..] == e.elems[i + 1..];
      var o := Eval(e.elems[i], s, hasEnv);
      if o.res.Ok? {
        var v := o.res.value;
        ProductFromCoerces(e, i + 1, MultiplyBy(acc, NumberOf(v)), o.env, hasEnv);
        var rest := EvalAll(e.elems[i + 1..], o.env, hasEnv);
        assert ([v] + rest.vals)[1..] == rest.vals;
        var ns := Coerced(rest.vals);
        if acc.Some? && NumberOf(v).Some? && ns.Some? {
          var n := NumberOf(v).value;
          assert MultiplyBy(acc, NumberOf(v)) == Some(acc.value * n);
          ProductOfCons(n, ns.value);
          Associate(acc.value, n, Product(ns.value));
        }
      }
    }
  }

  lemma ProductOfCons(n: int, ns: seq<int>)
    ensures Product([n] + ns) == n * Product(ns)
  {
    assert ([n] + ns)[1..] == ns;
  }

  lemma Associate(a: int, b: int, c: int)
    ensures a * b * c == a * (b * c)
  {
  }

  /** `*` needs an operand and multiplies the coerced values of all of them,
      again without a check of its own. */
  lemma {:induction false} TimesCoercesOperands(e: Value, s: Store, hasEnv: bool)
    requires e.List? && e.elems != [] && e.elems[0] == Sym("*")
    ensures |e.elems| == 1 ==> Eval(e, s, hasEnv) == Fail(ArityMessage, s)
    ensures |e.elems| > 1 ==>
      var vs := EvalAll(e.elems[1..], s, hasEnv);
      var ns := Coerced(vs.vals);
      Eval(e, s, hasEnv) ==
        if vs.stop.Some? then Outcome(Err(vs.stop.value), vs.env)
        else if ns.Some? then Outcome(Ok(Num(Product(ns.value))), vs.env)
        else Outcome(Err(Unmodelled), vs.env)
  {
    EvalDispatch(Times, e, s, hasEnv);
    if |e.elems| > 1 {
      ProductFromCoerces(e, 1, Some(1), s, hasEnv);
    }
  }

  // ---------------------------------------------------------------------
  // -, / and %

  /** `-` takes one or two operands and works on their values (no literal
      check): negation, or the difference of operand 1 and operand 2. */
  lemma {:induction false} MinusOnValues(e: Value, s: Store, hasEnv: bool)
    requires e.List? && e.elems != [] && e.elems[0] == Sym("-")
    ensures (|e.elems| < 2 || |e.elems| > 3) ==> Eval(e, s, hasEnv) == Fail(ArityMessage, s)
    ensures |e.elems| == 2 ==>
      var o := Eval(e.elems[1], s, hasEnv);
      o.res.Ok? && o.res.value.Num? ==> Eval(e, s, hasEnv) == Outcome(Ok(Num(-o.res.value.n)), o.env)
    ensures |e.elems| == 3 ==>
      var o1 := Eval(e.elems[1], s, hasEnv);
      var o2 := Eval(e.elems[2], o1.env, hasEnv);
      o1.res.Ok? && o1.res.value.Num? && o2.res.Ok? && o2.res.value.Num? ==>
        Eval(e, s, hasEnv) == Outcome(Ok(Num(o1.res.value.n - o2.res.value.n)), o2.env)
  {
    EvalDispatch(Minus, e, s, hasEnv);
  }

  /** `/` and `%` need two operands and evaluate the divisor first: a divisor
      of 0 throws 'Division by zero' before the dividend is looked at, so the
      dividend may be anything, even `error`. */
  lemma {:induction false} DivisorComesFirst(f: Form, x: Value, d: Value, s: Store, hasEnv: bool)
    requires f in {Divide, Modulo}
    requires Eval(d, s, hasEnv).res == Ok(Num(0))
    ensures Eval(List([Sym(FormName(f)), x, d]), s, hasEnv) == Fail(DivisionByZeroMessage, Eval(d, s, hasEnv).env)
  {
    EvalDispatch(f, List([Sym(FormName(f)), x, d]), s, hasEnv);
  }

  lemma {:induction false} DivisionArity(e: Value, s: Store, hasEnv: bool)
    requires e.List? && e.elems != [] && e.elems[0] in {Sym("/"), Sym("%")}
    requires |e.elems| != 3
    ensures Eval(e, s, hasEnv) == Fail(ArityMessage, s)
  {
    if e.elems[0] == Sym("/") {
      EvalDispatch(Divide, e, s, hasEnv);
    } else {
      EvalDispatch(Modulo, e, s, hasEnv);
    }
  }

  /** On number values (no literal check) `/` gives the exact quotient, in
      the environment the dividend, evaluated second, left. */
  lemma {:induction false} DivideOnValues(x: Value, d: Value, a: int, b: int, s: Store, hasEnv: bool)
    requires Eval(d, s, hasEnv).res == Ok(Num(b))
    requires Eval(x, Eval(d, s, hasEnv).env, hasEnv).res == Ok(Num(a))
    requires b != 0 && a % b == 0
    ensures var r := Eval(List([Sym("/"), x, d]), s, hasEnv);
      && r.env == Eval(x, Eval(d, s, hasEnv).env, hasEnv).env
      && r.res.Ok? && r.res.value.Num? && r.res.value.n * b == a
  {
    EvalDispatch(Divide, List([Sym("/"), x, d]), s, hasEnv);
  }

  /** On number values `%` is the JS remainder of the dividend by the
      divisor: smaller than the divisor, with the dividend's sign. */
  lemma {:induction false} ModuloOnValues(x: Value, d: Value, a: int, b: int, s: Store, hasEnv: bool)
    requires Eval(d, s, hasEnv).res == Ok(Num(b))
    requires Eval(x, Eval(d, s, hasEnv).env, hasEnv).res == Ok(Num(a))
    requires b != 0
    ensures var r := Eval(List([Sym("%"), x, d]), s, hasEnv);
      && r.env == Eval(x, Eval(d, s, hasEnv).env, hasEnv).env
      && r.res.Ok? && r.res.value.Num?
      && a == b * TruncQuot(a, b) + r.res.value.n
      && Abs(r.res.value.n) < Abs(b)
      && (r.res.value.n == 0 || (r.res.value.n < 0 <==> a < 0))
  {
    ModuloGivesTruncRem(x, d, a, b, s, hasEnv);
    TruncRemIsRemainder(a, b);
  }

  lemma {:induction false} ModuloGivesTruncRem(x: Value, d: Value, a: int, b: int, s: Store, hasEnv: bool)
    requires Eval(d, s, hasEnv).res == Ok(Num(b))
    requires Eval(x, Eval(d, s, hasEnv).env, hasEnv).res == Ok(Num(a))
    requires b != 0
    ensures Eval(List([Sym("%"), x, d]), s, hasEnv)
         == Outcome(Ok(Num(TruncRem(a, b))), Eval(x, Eval(d, s, hasEnv).env, hasEnv).env)
  {
    EvalDispatch(Modulo, List([Sym("%"), x, d]), s, hasEnv);
  }

  // ---------------------------------------------------------------------
  // define and set!

  /** `define` needs two operands but accepts any target, binding the target's
      property name; it throws when that name is already bound, and returns 0.
      When operand 2 writes nothing, only that one name changes. */
  lemma {:induction false} DefineBindsAnyTarget(e: Value, s: Store)
    requires e.List? && e.elems != [] && e.elems[0] == Sym("define")
    ensures |e.elems| != 3 ==> Eval(e, s, true) == Fail(ArityMessage, s)
    ensures |e.elems| == 3 ==>
      var k := PropertyKey(e.elems[1]);
      var o := Eval(e.elems[2], s, true);
      Eval(e, s, true) ==
        if Bound(s, k) then Fail(AlreadyDefinedMessage, s)
        else if o.res.Err? then o
        else Outcome(Ok(Num(0)), o.env[k := o.res.value])
    ensures |e.elems| == 3 && !Bound(s, PropertyKey(e.elems[1])) && Targets(e.elems[2]) == {} ==>
      var o := Eval(e.elems[2], s, true);
      o.res.Ok? ==> Eval(e, s, true) == Outcome(Ok(Num(0)), s[PropertyKey(e.elems[1]) := o.res.value])
  {
    EvalDispatch(Define, e, s, true);
    if |e.elems| == 3 && Targets(e.elems[2]) == {} {
      NoTargetsNoChange(e.elems[2], s, true);
    }
  }

  /** `set!` follows the same rules as in javascripts/scheem.js. */
  lemma {:induction false} SetRebindsName(e: Value, s: Store)
    requires e.List? && e.elems != [] && e.elems[0] == Sym("set!")
    ensures |e.elems| != 3 ==> Eval(e, s, true) == Fail(ArityMessage, s)
    ensures |e.elems| == 3 ==>
      var k := PropertyKey(e.elems[1]);
      var o := Eval(e.elems[2], s, true);
      Eval(e, s, true) ==
        if !Bound(s, k) then Fail(NotDefinedMessage, s)
        else if o.res.Err? then o
        else Outcome(o.res, o.env[k := o.res.value])
    ensures |e.elems| == 3 && Bound(s, PropertyKey(e.elems[1])) && Targets(e.elems[2]) == {} ==>
      var o := Eval(e.elems[2], s, true);
      o.res.Ok? ==> Eval(e, s, true) == Outcome(o.res, s[PropertyKey(e.elems[1]) := o.res.value])
  {
    EvalDispatch(SetBang, e, s, true);
    if |e.elems| == 3 && Targets(e.elems[2]) == {} {
      NoTargetsNoChange(e.elems[2], s, true);
    }
  }

  // ---------------------------------------------------------------------
  // begin and quote

  lemma {:induction false} BeginFromYieldsLast(e: Value, i: nat, last: Value, s: Store, hasEnv: bool)
    requires e.List? && 1 <= i <= |e.elems|
    ensures var vs := EvalAll(e.elems[i..], s, hasEnv);
      BeginFrom(e, i, last, s, hasEnv) ==
        if vs.stop.Some? then Outcome(Err(vs.stop.value), vs.env)
        else Outcome(Ok(if vs.vals == [] then last else vs.vals[|vs.vals| - 1]), vs.env)
    decreases |e.elems| - i
  {
    var xs := e.elems[i..];
    if i < |e.elems| {
      assert xs[0] == e.elems[i] && xs[1..] == e.elems[i + 1..];
      var o := Eval(e.elems[i], s, hasEnv);
      if o.res.Ok? {
        BeginFromYieldsLast(e, i + 1, o.res.value, o.env, hasEnv);
      }
    }
  }

  /** `begin` returns its last operand's value, or null without operands. */
  lemma {:induction false} BeginYieldsLast(e: Value, s: Store, hasEnv: bool)
    requires e.List? && e.elems != [] && e.elems[0] == Sym("begin")
    ensures var vs := EvalAll(e.elems[1..], s, hasEnv);
      Eval(e, s, hasEnv) ==
        if vs.stop.Some? then Outcome(Err(vs.stop.value), vs.env)
        else Outcome(Ok(if vs.vals == [] then Null else vs.vals[|vs.vals| - 1]), vs.env)
  {
    EvalDispatch(Begin, e, s, hasEnv);
    BeginFromYieldsLast(e, 1, Null, s, hasEnv);
  }

  /** `quote` hands back its one operand unevaluated. */
  lemma {:induction false} QuoteReturnsOperand(e: Value, s: Store, hasEnv: bool)
    requires e.List? && e.elems != [] && e.elems[0] == Sym("quote")
    ensures |e.elems| == 2 ==> Eval(e, s, hasEnv) == Outcome(Ok(e.elems[1]), s)
    ensures |e.elems| != 2 ==> Eval(e, s, hasEnv) == Fail(ArityMessage, s)
  {
    EvalDispatch(Quote, e, s, hasEnv);
  }

  // ---------------------------------------------------------------------
  // cons, car and cdr

  /** cons, car and cdr evaluate their operands without the environment. */
  lemma {:induction false} ListFormsIgnoreEnvironment(e: Value, s: Store, hasEnv: bool)
    requires e.List? && e.elems != [] && e.elems[0] in {Sym("cons"), Sym("car"), Sym("cdr")}
    ensures Eval(e, s, hasEnv) == Outcome(Eval(e, map[], false).res, s)
  {
    var f := if e.elems[0] == Sym("cons") then Cons else if e.elems[0] == Sym("car") then Car else Cdr;
    EvalDispatch(f, e, s, hasEnv);
    EvalDispatch(f, e, map[], false);
  }

  /** car and cdr need one operand that evaluates to an array, but an empty
      array is fine: car gives null for it (and for a falsy head), cdr gives
      the empty array. */
  lemma {:induction false} CarCdrAreLenient(f: Form, e: Value, s: Store, hasEnv: bool)
    requires f in {Car, Cdr}
    requires e.List? && e.elems != [] && e.elems[0] == Sym(FormName(f))
    ensures |e.elems| != 2 ==> Eval(e, s, hasEnv) == Fail(ArityMessage, s)
    ensures |e.elems| == 2 ==>
      var l := Eval(e.elems[1], map[], false).res;
      l.Ok? ==>
        if !l.value.List? then Eval(e, s, hasEnv) == Fail(ArrayMessage, s)
        else if l.value.elems == [] then
          Eval(e, s, hasEnv) == Outcome(Ok(if f == Car then Null else List([])), s)
        else
          Eval(e, s, hasEnv) == Outcome(Ok(
            if f == Cdr then List(l.value.elems[1..])
            else if Falsy(l.value.elems[0]) then Null
            else l.value.elems[0]), s)
  {
    EvalDispatch(f, e, s, hasEnv);
  }

  /** car and cdr take apart what cons built, except that car turns a falsy
      head (0, "", null, undefined) into null. */
  lemma {:induction false} CarCdrInvertCons(a: Value, l: Value, s: Store, hasEnv: bool)
    requires Eval(List([Sym("cons"), a, l]), s, hasEnv).res.Ok?
    ensures var tail := Eval(l, map[], false).res;
      var head := Eval(a, map[], false).res;
      tail.Ok? && tail.value.List? && head.Ok? &&
      Eval(List([Sym("cons"), a, l]), s, hasEnv).res == Ok(List([head.value] + tail.value.elems))
    ensures var head := Eval(a, map[], false).res.value;
      Eval(List([Sym("car"), List([Sym("cons"), a, l])]), s, hasEnv)
        == Outcome(Ok(if Falsy(head) then Null else head), s)
    ensures Eval(List([Sym("cdr"), List([Sym("cons"), a, l])]), s, hasEnv) == Outcome(Eval(l, map[], false).res, s)
  {
    var c := List([Sym("cons"), a, l]);
    EvalDispatch(Cons, c, s, hasEnv);
    EvalDispatch(Cons, c, map[], false);
    EvalDispatch(Car, List([Sym("car"), c]), s, hasEnv);
    EvalDispatch(Cdr, List([Sym("cdr"), c]), s, hasEnv);
    var tail := Eval(l, map[], false).res;
    assert ([Eval(a, map[], false).res.value] + tail.value.elems)[1..] == tail.value.elems;
  }

  /** `cons` needs two operands. It evaluates operand 2 first, without the
      environment, and throws unless that is an array; then operand 1, whose
      value it puts in front. A failing operand's error passes through. */
  lemma {:induction false} ConsNeedsList(e: Value, s: Store, hasEnv: bool)
    requires e.List? && e.elems != [] && e.elems[0] == Sym("cons")
    ensures |e.elems| != 3 ==> Eval(e, s, hasEnv) == Fail(ArityMessage, s)
    ensures |e.elems| == 3 ==>
      var tail := Eval(e.elems[2], map[], false).res;
      var head := Eval(e.elems[1], map[], false).res;
      Eval(e, s, hasEnv) ==
        if tail.Err? then Outcome(tail, s)
        else if !tail.value.List? then Fail(ConsMessage, s)
        else if head.Err? then Outcome(head, s)
        else Outcome(Ok(List([head.value] + tail.value.elems)), s)
  {
    EvalDispatch(Cons, e, s, hasEnv);
  }

  // ---------------------------------------------------------------------
  // Comparisons and if

  /** Every comparison needs two operands and returns a truth atom. */
  lemma {:induction false} ComparisonGivesTruthAtom(rel: Relation, e: Value, s: Store, hasEnv: bool)
    requires e.List? && e.elems != [] && e.elems[0] == Sym(FormName(Compare(rel)))
    ensures |e.elems| != 3 ==> Eval(e, s, hasEnv) == Fail(ArityMessage, s)
    ensures Eval(e, s, hasEnv).res.Ok? ==>
      Eval(e, s, hasEnv).res.value == TrueAtom || Eval(e, s, hasEnv).res.value == FalseAtom
  {
    EvalDispatch(Compare(rel), e, s, hasEnv);
  }

  /** A comparison whose operands both evaluate applies the JS operator to
      their values, in the bindings the operands left. */
  lemma {:induction false} ComparisonOnValues(rel: Relation, x: Value, y: Value, s: Store, hasEnv: bool)
    requires Eval(x, s, hasEnv).res.Ok? && Eval(y, Eval(x, s, hasEnv).env, hasEnv).res.Ok?
    ensures
      var o1 := Eval(x, s, hasEnv);
      var o2 := Eval(y, o1.env, hasEnv);
      Eval(List([Sym(FormName(Compare(rel))), x, y]), s, hasEnv)
        == Outcome(Relate(rel, o1.res.value, o2.res.value), o2.env)
  {
    EvalDispatch(Compare(rel), List([Sym(FormName(Compare(rel))), x, y]), s, hasEnv);
  }

  /** Once both operands have evaluated, left to right, to numbers (or to
      null, which `<`, `>`, `<=` and `>=` read as 0), each comparison is the
      integer order it names; the bindings are those the operands left. */
  lemma {:induction false} CompareValues(rel: Relation, x: Value, y: Value, s: Store, hasEnv: bool)
    requires
      var v1, v2 := Eval(x, s, hasEnv).res, Eval(y, Eval(x, s, hasEnv).env, hasEnv).res;
      && v1.Ok? && v2.Ok? && NumberOf(v1.value).Some? && NumberOf(v2.value).Some?
      && (rel.Eq? || rel.Ne? ==> v1.value.Num? && v2.value.Num?)
    ensures
      var o1 := Eval(x, s, hasEnv);
      var o2 := Eval(y, o1.env, hasEnv);
      Eval(List([Sym(FormName(Compare(rel))), x, y]), s, hasEnv)
        == Outcome(Ok(Truth(Holds(rel, NumberOf(o1.res.value).value, NumberOf(o2.res.value).value))), o2.env)
  {
    ComparisonOnValues(rel, x, y, s, hasEnv);
  }

  /** `=` and `<>` compare the operands' values strictly: equal numbers,
      equal strings, null with null and undefined with undefined, never
      across types; `<>` is the negation of `=`. */
  lemma {:induction false} EqualityOnValues(x: Value, y: Value, s: Store, hasEnv: bool)
    requires
      var v1, v2 := Eval(x, s, hasEnv).res, Eval(y, Eval(x, s, hasEnv).env, hasEnv).res;
      v1.Ok? && v2.Ok? && !(v1.value.List? && v2.value.List?)
    ensures
      var o1 := Eval(x, s, hasEnv);
      var o2 := Eval(y, o1.env, hasEnv);
      && Eval(List([Sym("="), x, y]), s, hasEnv) == Outcome(Ok(Truth(o1.res.value == o2.res.value)), o2.env)
      && Eval(List([Sym("<>"), x, y]), s, hasEnv) == Outcome(Ok(Truth(o1.res.value != o2.res.value)), o2.env)
  {
    ComparisonOnValues(Eq, x, y, s, hasEnv);
    ComparisonOnValues(Ne, x, y, s, hasEnv);
  }

  /** `<>` is `=` with the truth atoms swapped, on any operands. */
  lemma {:induction false} NotEqualNegatesEqual(a: Value, b: Value, s: Store, hasEnv: bool)
    ensures var eq := Eval(List([Sym("="), a, b]), s, hasEnv);
      var ne := Eval(List([Sym("<>"), a, b]), s, hasEnv);
      && ne.env == eq.env
      && (ne.res.Ok? <==> eq.res.Ok?)
      && (eq.res.Ok? ==> (ne.res.value == TrueAtom <==> eq.res.value == FalseAtom))
  {
    EvalDispatch(Compare(Eq), List([Sym("="), a, b]), s, hasEnv);
    EvalDispatch(Compare(Ne), List([Sym("<>"), a, b]), s, hasEnv);
  }

  /** `if` selects its branch exactly as in javascripts/scheem.js: only "#t"
      picks the then-branch, a missing branch yields "#t" or "#f", and the
      branch not taken is never evaluated. */
  lemma {:induction false} IfTakesOneBranch(c: Value, t: Value, f: Value, t': Value, f': Value, s: Store, hasEnv: bool)
    ensures var o := Eval(c, s, hasEnv);
      o.res.Ok? ==>
        if o.res.value == TrueAtom then
          && Eval(List([Sym("if"), c, t, f]), s, hasEnv) == Eval(t, o.env, hasEnv)
          && Eval(List([Sym("if"), c, t, f']), s, hasEnv) == Eval(t, o.env, hasEnv)
          && Eval(List([Sym("if"), c, t]), s, hasEnv) == Eval(t, o.env, hasEnv)
          && Eval(List([Sym("if"), c]), s, hasEnv) == Outcome(Ok(TrueAtom), o.env)
        else
          && Eval(List([Sym("if"), c, t, f]), s, hasEnv) == Eval(f, o.env, hasEnv)
          && Eval(List([Sym("if"), c, t', f]), s, hasEnv) == Eval(f, o.env, hasEnv)
          && Eval(List([Sym("if"), c, t]), s, hasEnv) == Outcome(Ok(FalseAtom), o.env)
          && Eval(List([Sym("if"), c]), s, hasEnv) == Outcome(Ok(FalseAtom), o.env)
  {
    EvalDispatch(If, List([Sym("if"), c, t, f]), s, hasEnv);
    EvalDispatch(If, List([Sym("if"), c, t, f']), s, hasEnv);
    EvalDispatch(If, List([Sym("if"), c, t', f]), s, hasEnv);
    EvalDispatch(If, List([Sym("if"), c, t]), s, hasEnv);
    EvalDispatch(If, List([Sym("if"), c]), s, hasEnv);
  }

  /** `if` with no operand or more than three throws the arity error before
      evaluating anything. */
  lemma {:induction false} IfArity(e: Value, s: Store, hasEnv: bool)
    requires e.List? && e.elems != [] && e.elems[0] == Sym("if")
    requires |e.elems| < 2 || |e.elems| > 4
    ensures Eval(e, s, hasEnv) == Fail(ArityMessage, s)
  {
    EvalDispatch(If, e, s, hasEnv);
  }
}
