/**
 The value domain shared by both Scheem evaluators (javascripts/scheem.js and
 the older scheem.js): JavaScript values as the evaluators see them, the ways
 an evaluation can fail, the flat environment, the table of special forms, and
 the JavaScript operators the evaluators apply to values.
 */
module ScheemValues {

  /** A JavaScript value as the evaluator sees it. Programs are values too: a
      parsed program is a number, a symbol string or a (nested) array, and
      `quote` hands its operand back unchanged. */
  datatype Value =
    | Num(n: int)              // a JS number; only integers are modelled
    | Sym(name: string)        // a JS string: a symbol, or a truth atom "#t" / "#f"
    | List(elems: seq<Value>)  // a JS array
    | Null                     // JS null: the value of `nil` and of an empty `begin`
    | Undefined                // JS undefined: an unbound symbol, an unknown form

  /** The two truth atoms produced by comparisons and tested by `if`. */
  const TrueAtom: Value := Sym("#t")
  const FalseAtom: Value := Sym("#f")

  function Truth(b: bool): Value {
    if b then TrueAtom else FalseAtom
  }

  /** How an evaluation ends when it does not return a value. */
  datatype Failure =
    | Throw(message: string)   // the evaluator's own `throw '...'`
    | HostTypeError            // a JS TypeError: a property read on a missing
                               // environment or on a null/undefined expression
    | Unmodelled               // JS would go on with a coerced or inexact value
                               // (NaN, a float quotient, string order, array
                               // identity); the model makes no claim past it

  datatype Result = Ok(value: Value) | Err(failure: Failure)

  datatype Option<T> = None | Some(value: T)

  /** The flat environment: JS object properties by name. */
  type Store = map<string, Value>

  /** What one evaluation returns, together with the environment it leaves. */
  datatype Outcome = Outcome(res: Result, env: Store)

  /** A `throw message` that leaves the environment s. */
  function Fail(message: string, s: Store): Outcome {
    Outcome(Err(Throw(message)), s)
  }

  // Messages thrown by both evaluators.
  const ErrorMessage := "Error"
  const ArityMessage := "Incorrect number of arguments"
  const InvalidNumberMessage := "Invalid number"
  const DivisionByZeroMessage := "Division by zero"
  const InvalidSymbolMessage := "Invalid symbol"
  const AlreadyDefinedMessage := "Symbol already defined"
  const NotDefinedMessage := "Symbol not defined"

  /** `env[k]`: a missing property reads as undefined. */
  function Lookup(s: Store, k: string): (r: Value)
    ensures k in s ==> r == s[k]
    ensures k !in s ==> r == Undefined
  {
    if k in s then s[k] else Undefined
  }

  /** `typeof env[k] !== 'undefined'`: a name counts as bound only when its
      value is not undefined. */
  predicate Bound(s: Store, k: string)
    ensures Bound(s, k) <==> Lookup(s, k) != Undefined
  {
    k in s && s[k] != Undefined
  }

  /** `isArray(obj)`, that is `obj && obj instanceof Array`, is truthy exactly
      for arrays. */
  predicate IsArray(v: Value)
    ensures IsArray(v) ==> !Falsy(v)
    ensures IsArray(v) <==> !v.Num? && !v.Sym? && !v.Null? && !v.Undefined?
  {
    v.List?
  }

  /** The values JS treats as false in `a || b`: 0, "", null and undefined
      (arrays are always truthy). */
  predicate Falsy(v: Value)
    ensures v.Num? ==> (Falsy(v) <==> LooselyZero(v) == Some(true))
    ensures v.Null? || v.Undefined? ==> Falsy(v)
  {
    v == Num(0) || v == Sym("") || v.Null? || v.Undefined?
  }

  // ---------------------------------------------------------------------
  // The special forms: the cases of the `switch (expr[0])`.

  datatype Relation = Eq | Ne | Lt | Gt | Le | Ge

  datatype Form =
    | Plus | Minus | Times | Divide | Modulo
    | Define | SetBang | Begin | Quote
    | Cons | Car | Cdr
    | Compare(rel: Relation)
    | If

  /** The `case` label under which each form appears. */
  function FormName(f: Form): string {
    match f
    case Plus => "+"
    case Minus => "-"
    case Times => "*"
    case Divide => "/"
    case Modulo => "%"
    case Define => "define"
    case SetBang => "set!"
    case Begin => "begin"
    case Quote => "quote"
    case Cons => "cons"
    case Car => "car"
    case Cdr => "cdr"
    case Compare(Eq) => "="
    case Compare(Ne) => "<>"
    case Compare(Lt) => "<"
    case Compare(Gt) => ">"
    case Compare(Le) => "<="
    case Compare(Ge) => ">="
    case If => "if"
  }

  /** The form a list head selects; None when no `case` matches (the switch
      has no default and falls out with undefined). */
  function FormOf(head: Value): (r: Option<Form>)
    ensures r.Some? ==> head == Sym(FormName(r.value))
  {
    if !head.Sym? then None
    else
      match head.name
      case "+" => Some(Plus)
      case "-" => Some(Minus)
      case "*" => Some(Times)
      case "/" => Some(Divide)
      case "%" => Some(Modulo)
      case "define" => Some(Define)
      case "set!" => Some(SetBang)
      case "begin" => Some(Begin)
      case "quote" => Some(Quote)
      case "cons" => Some(Cons)
      case "car" => Some(Car)
      case "cdr" => Some(Cdr)
      case "=" => Some(Compare(Eq))
      case "<>" => Some(Compare(Ne))
      case "<" => Some(Compare(Lt))
      case ">" => Some(Compare(Gt))
      case "<=" => Some(Compare(Le))
      case ">=" => Some(Compare(Ge))
      case "if" => Some(If)
      case _ => None
  }

  /** Every form is reached by its own label: the dispatch table is a
      bijection between the labels and the forms. */
  lemma {:induction false} FormNameRoundTrip(f: Form)
    ensures FormOf(Sym(FormName(f))) == Some(f)
  {
    match f
    case Plus =>
    case Minus =>
    case Times =>
    case Divide =>
    case Modulo =>
    case Define =>
    case SetBang =>
    case Begin =>
    case Quote =>
    case Cons =>
    case Car =>
    case Cdr =>
    case Compare(Eq) =>
    case Compare(Ne) =>
    case Compare(Lt) =>
    case Compare(Gt) =>
    case Compare(Le) =>
    case Compare(Ge) =>
    case If =>
  }

  // ---------------------------------------------------------------------
  // JavaScript operators on values. Integers stand for JS numbers; wherever
  // JS would coerce a non-number or produce an inexact quotient the result is
  // Err(Unmodelled).

  /** The number JS's ToNumber gives v, where the model follows it: a number
      is itself and null is 0; None for undefined (NaN), strings and arrays. */
  function NumberOf(v: Value): (r: Option<int>)
    ensures v.Num? ==> r == Some(v.n)
    ensures v.Null? ==> r == Some(0)
    ensures !v.Num? && !v.Null? ==> r.None?
  {
    match v
    case Num(n) => Some(n)
    case Null => Some(0)
    case _ => None
  }

  /** Unary minus, `-v` (`-null` is the float -0, which is not modelled). */
  function Negate(v: Value): (r: Result)
    ensures r.Ok? <==> v.Num?
    ensures r.Ok? ==> r == Subtract(Num(0), v) && Subtract(v, r.value) == Ok(Num(2 * v.n))
  {
    if v.Num? then Ok(Num(-v.n)) else Err(Unmodelled)
  }

  /** Binary `a - b`. */
  function Subtract(a: Value, b: Value): (r: Result)
    ensures r.Ok? <==> NumberOf(a).Some? && NumberOf(b).Some?
    ensures r.Ok? ==> r.value.Num? && r.value.n + NumberOf(b).value == NumberOf(a).value
  {
    var x, y := NumberOf(a), NumberOf(b);
    if x.Some? && y.Some? then Ok(Num(x.value - y.value)) else Err(Unmodelled)
  }

  /** Binary `a / b`, modelled only where the quotient is an integer. */
  function Quotient(a: Value, b: Value): (r: Result)
    ensures r.Ok? ==>
      NumberOf(a).Some? && NumberOf(b).Some? && r.value.Num?
      && r.value.n * NumberOf(b).value == NumberOf(a).value
  {
    var x, y := NumberOf(a), NumberOf(b);
    if x.Some? && y.Some? && y.value != 0 && x.value % y.value == 0 then Ok(Num(x.value / y.value))
    else Err(Unmodelled)
  }

  function Abs(x: int): int {
    if x < 0 then -x else x
  }

  /** The JS remainder `a % b` on integers: the magnitude is |a| mod |b| and
      the sign is that of the dividend. */
  function TruncRem(a: int, b: int): (r: int)
    requires b != 0
    ensures Abs(r) < Abs(b)
    ensures r == 0 || (r < 0 <==> a < 0)
  {
    var m := Abs(a) % Abs(b);
    if a < 0 then -m else m
  }

  /** The quotient JS's `%` implies: |a| div |b| with the sign of a / b. */
  function TruncQuot(a: int, b: int): int
    requires b != 0
  {
    var q := Abs(a) / Abs(b);
    if (a < 0) == (b < 0) then q else -q
  }

  /** TruncRem is a remainder of truncated division: a == b * q + r, |r| < |b|,
      and r is zero or has the sign of a. */
  lemma {:induction false} TruncRemIsRemainder(a: int, b: int)
    requires b != 0
    ensures a == b * TruncQuot(a, b) + TruncRem(a, b)
    ensures Abs(TruncRem(a, b)) < Abs(b)
    ensures TruncRem(a, b) == 0 || (TruncRem(a, b) < 0 <==> a < 0)
  {
    var q, m := Abs(a) / Abs(b), Abs(a) % Abs(b);
    assert Abs(a) == Abs(b) * q + m;
    if a < 0 && b < 0 {
      assert a == -Abs(a) && b == -Abs(b);
      assert a == b * q + (-m);
    } else if a < 0 {
      assert a == -Abs(a) && b == Abs(b);
      assert a == b * (-q) + (-m);
    } else if b < 0 {
      assert a == Abs(a) && b == -Abs(b);
      assert a == b * (-q) + m;
    } else {
      assert a == b * q + m;
    }
  }

  /** `a % b` on values. */
  function Remainder(a: Value, b: Value): (r: Result)
    ensures r.Ok? <==> NumberOf(a).Some? && NumberOf(b).Some? && NumberOf(b).value != 0
    ensures r.Ok? ==> r.value.Num? && Abs(r.value.n) < Abs(NumberOf(b).value)
    ensures r.Ok? ==> r.value.n == 0 || (r.value.n < 0 <==> NumberOf(a).value < 0)
  {
    var x, y := NumberOf(a), NumberOf(b);
    if x.Some? && y.Some? && y.value != 0 then Ok(Num(TruncRem(x.value, y.value))) else Err(Unmodelled)
  }

  /** The loose test `v == 0` both `/` and `%` apply to the divisor. None where
      it depends on JS's conversion of a string or an array to a number. */
  function LooselyZero(v: Value): (r: Option<bool>)
    ensures r == Some(true) <==> v == Num(0)
    ensures r.None? <==> v.Sym? || v.List?
  {
    match v
    case Num(n) => Some(n == 0)
    case Null => Some(false)
    case Undefined => Some(false)
    case _ => None
  }

  /** `a === b`: exact for numbers, strings, null and undefined; two arrays
      compare by identity, which values do not record. */
  function StrictEquals(a: Value, b: Value): (r: Result)
    ensures r.Ok? <==> !(a.List? && b.List?)
    ensures r.Ok? ==> (r.value == TrueAtom || r.value == FalseAtom) && (r.value == TrueAtom <==> a == b)
  {
    if a.List? && b.List? then Err(Unmodelled) else Ok(Truth(a == b))
  }

  /** The six comparison forms on their evaluated operands. `<`, `>`, `<=` and
      `>=` are modelled where both operands convert to numbers (numbers and
      null); string order and NaN are not. */
  function Relate(rel: Relation, a: Value, b: Value): (r: Result)
    ensures r.Ok? ==> r.value == TrueAtom || r.value == FalseAtom
    ensures rel.Eq? || rel.Ne? ==> (r.Ok? <==> StrictEquals(a, b).Ok?)
    ensures rel.Ne? && r.Ok? ==> (r.value == TrueAtom <==> StrictEquals(a, b).value == FalseAtom)
    ensures !rel.Eq? && !rel.Ne? ==> (r.Ok? <==> NumberOf(a).Some? && NumberOf(b).Some?)
    ensures rel.Lt? && r.Ok? ==> (r.value == TrueAtom <==> NumberOf(a).value < NumberOf(b).value)
    ensures rel.Gt? && r.Ok? ==> (r.value == TrueAtom <==> NumberOf(b).value < NumberOf(a).value)
    ensures rel.Le? && r.Ok? ==> (r.value == TrueAtom <==> !(NumberOf(b).value < NumberOf(a).value))
    ensures rel.Ge? && r.Ok? ==> (r.value == TrueAtom <==> !(NumberOf(a).value < NumberOf(b).value))
  {
    var x, y := NumberOf(a), NumberOf(b);
    match rel
    case Eq => StrictEquals(a, b)
    case Ne => if a.List? && b.List? then Err(Unmodelled) else Ok(Truth(a != b))
    case Lt => if x.Some? && y.Some? then Ok(Truth(x.value < y.value)) else Err(Unmodelled)
    case Gt => if x.Some? && y.Some? then Ok(Truth(x.value > y.value)) else Err(Unmodelled)
    case Le => if x.Some? && y.Some? then Ok(Truth(x.value <= y.value)) else Err(Unmodelled)
    case Ge => if x.Some? && y.Some? then Ok(Truth(x.value >= y.value)) else Err(Unmodelled)
  }

  /** The order each comparison form stands for, on integers. */
  predicate Holds(rel: Relation, a: int, b: int) {
    match rel
    case Eq => a == b
    case Ne => a != b
    case Lt => a < b
    case Gt => a > b
    case Le => a <= b
    case Ge => a >= b
  }

  // ---------------------------------------------------------------------
  // Property keys: `env[x]` converts x with JS ToString.

  function DigitChar(d: int): char
    requires 0 <= d < 10
  {
    "0123456789"[d]
  }

  /** The decimal numeral of n: a non-empty string of digits. */
  function NatToDecimal(n: nat): (r: string)
    ensures |r| > 0 && Digits(r)
    decreases n
  {
    if n < 10 then [DigitChar(n)] else NatToDecimal(n / 10) + [DigitChar(n % 10)]
  }

  predicate Digits(s: string) {
    forall i :: 0 <= i < |s| ==> '0' <= s[i] <= '9'
  }

  /** The number a string of decimal digits denotes. */
  function DecimalValue(s: string): nat
    requires Digits(s)
  {
    if s == [] then 0 else DecimalValue(s[..|s| - 1]) * 10 + (s[|s| - 1] as int - '0' as int)
  }

  /** Reading the numeral back gives the number. */
  lemma {:induction false} DecimalRoundTrip(n: nat)
    ensures DecimalValue(NatToDecimal(n)) == n
    decreases n
  {
    if n >= 10 {
      var p := NatToDecimal(n / 10);
      DecimalRoundTrip(n / 10);
      assert NatToDecimal(n)[..|NatToDecimal(n)| - 1] == p;
    }
  }

  /** `String(n)` for an integer: an optional '-' and the numeral of |n|,
      which reads back as |n|. */
  function IntToDecimal(n: int): (r: string)
    ensures |r| > 0 && (r[0] == '-' <==> n < 0)
    ensures n >= 0 ==> Digits(r) && DecimalValue(r) == n
    ensures n < 0 ==> Digits(r[1..]) && DecimalValue(r[1..]) == -n
  {
    if n < 0 then
      DecimalRoundTrip(-n);
      var d := NatToDecimal(-n);
      assert ("-" + d)[1..] == d;
      "-" + d
    else
      DecimalRoundTrip(n);
      NatToDecimal(n)
  }

  /** The property name `env[v]` uses for v: numbers in decimal, strings as
      they are, "null", "undefined", and arrays as `join(',')` of their
      elements, where null and undefined elements become empty. */
  function PropertyKey(v: Value): (r: string)
    ensures v.Sym? ==> r == v.name
    ensures v.Num? ==> |r| > 0 && (r[0] == '-' <==> v.n < 0)
    ensures v.List? && |v.elems| == 1 && !v.elems[0].Null? && !v.elems[0].Undefined? ==>
      r == PropertyKey(v.elems[0])
    decreases v, 1
  {
    match v
    case Num(n) => IntToDecimal(n)
    case Sym(s) => s
    case Null => "null"
    case Undefined => "undefined"
    case List(_) => JoinFrom(v, 0)
  }

  /** Different numbers name different properties, so `define` with two
      distinct numeric targets writes two distinct bindings. */
  lemma {:induction false} NumberKeysDiffer(m: int, n: int)
    requires m != n
    ensures PropertyKey(Num(m)) != PropertyKey(Num(n))
  {
    assert PropertyKey(Num(m)) == IntToDecimal(m);
    assert PropertyKey(Num(n)) == IntToDecimal(n);
    DecimalsDiffer(m, n);
  }

  lemma {:induction false} DecimalsDiffer(m: int, n: int)
    requires m != n
    ensures IntToDecimal(m) != IntToDecimal(n)
  {
    if m < 0 && n < 0 {
      NegativeDecimalsDiffer(m, n);
    } else if m >= 0 && n >= 0 {
      NumeralsDiffer(m, n);
    } else {
      SignShowsInDecimal(m);
      SignShowsInDecimal(n);
    }
  }

  /** A numeral starts with '-' exactly when the number is negative. */
  lemma SignShowsInDecimal(n: int)
    ensures |IntToDecimal(n)| > 0 && (IntToDecimal(n)[0] == '-' <==> n < 0)
  {
    if n >= 0 {
      var d := NatToDecimal(n);
      assert '0' <= d[0] <= '9';
    }
  }

  lemma {:induction false} NegativeDecimalsDiffer(m: int, n: int)
    requires m < 0 && n < 0 && m != n
    ensures IntToDecimal(m) != IntToDecimal(n)
  {
    NumeralsDiffer(-m, -n);
    var dm, dn := NatToDecimal(-m), NatToDecimal(-n);
    assert IntToDecimal(m) == "-" + dm && IntToDecimal(n) == "-" + dn;
    assert ("-" + dm)[1..] == dm && ("-" + dn)[1..] == dn;
  }

  lemma {:induction false} NumeralsDiffer(m: nat, n: nat)
    requires m != n
    ensures NatToDecimal(m) != NatToDecimal(n)
  {
    DecimalRoundTrip(m);
    DecimalRoundTrip(n);
  }

  /** `join(',')` of the elements from i on, with the separator before each
      element but the first of the whole array. */
  function JoinFrom(v: Value, i: nat): (r: string)
    requires v.List? && i <= |v.elems|
    ensures i == |v.elems| ==> r == ""
    ensures 0 < i < |v.elems| ==> |r| > 0 && r[0] == ','
    ensures |r| >= |v.elems| - i - 1
    ensures 0 < i ==> |r| >= |v.elems| - i
    ensures i + 1 == |v.elems| && i == 0 ==>
      r == (if v.elems[0].Null? || v.elems[0].Undefined? then "" else PropertyKey(v.elems[0]))
    decreases v, 0, |v.elems| - i
  {
    if i == |v.elems| then ""
    else
      var x := v.elems[i];
      var part := if x.Null? || x.Undefined? then "" else PropertyKey(x);
      (if i == 0 then "" else ",") + part + JoinFrom(v, i + 1)
  }

  // ---------------------------------------------------------------------
  // Which names an evaluation can write.

  /** Every name that a `define` or `set!` anywhere inside e could write: the
      property key of the target of each three-element list headed by one of
      them. Quoted data and the operands of cons, car and cdr are included
      although they never write, so this over-approximates. */
  function Targets(e: Value): set<string>
    decreases e
  {
    match e
    case List(xs) =>
      (if |xs| == 3 && (xs[0] == Sym(FormName(Define)) || xs[0] == Sym(FormName(SetBang)))
       then {PropertyKey(xs[1])} else {})
      + (set i, k | 0 <= i < |xs| && k in Targets(xs[i]) :: k)
    case _ => {}
  }

  /** s' extends s: no name disappears, and every name outside `written` has
      the value it had (or is still absent). */
  ghost predicate Grows(s: Store, s': Store, written: set<string>) {
    && s.Keys <= s'.Keys
    && (forall k | k in s' && k !in written :: k in s && s'[k] == s[k])
  }

  lemma GrowsRefl(s: Store, written: set<string>)
    ensures Grows(s, s, written)
  {}

  lemma GrowsTrans(s1: Store, s2: Store, s3: Store, w1: set<string>, w2: set<string>, w: set<string>)
    requires Grows(s1, s2, w1) && Grows(s2, s3, w2)
    requires w1 <= w && w2 <= w
    ensures Grows(s1, s3, w)
  {}

  lemma GrowsWeaken(s: Store, s': Store, w1: set<string>, w2: set<string>)
    requires Grows(s, s', w1) && w1 <= w2
    ensures Grows(s, s', w2)
  {}

  lemma GrowsUpdate(s: Store, k: string, v: Value, w: set<string>)
    requires k in w
    ensures Grows(s, s[k := v], w)
  {}

  /** Growing without writing anything is standing still. */
  lemma {:induction false} GrowsNothing(s: Store, s': Store)
    requires Grows(s, s', {})
    ensures s' == s
  {
    assert s'.Keys == s.Keys;
  }

  /** An element's targets are among its list's targets. */
  lemma TargetsOfElement(e: Value, i: nat)
    requires e.List? && i < |e.elems|
    ensures Targets(e.elems[i]) <= Targets(e)
  {}

  // ---------------------------------------------------------------------
  // Reference folds for `+` and `*`.

  function Sum(ns: seq<int>): int {
    if ns == [] then 0 else ns[0] + Sum(ns[1..])
  }

  function Product(ns: seq<int>): int {
    if ns == [] then 1 else ns[0] * Product(ns[1..])
  }

  // ---------------------------------------------------------------------
  // The caller-owned environment object that `define` and `set!` update in
  // place.

  class Environment {
    var vars: Store

    constructor (vars: Store)
      ensures this.vars == vars
    {
      this.vars := vars;
    }
  }

  /** The bindings an environment argument holds; a call without an
      environment (JS undefined) is modelled as null here. */
  function Vars(env: Environment?): Store
    reads env
  {
    if env == null then map[] else env.vars
  }
}
