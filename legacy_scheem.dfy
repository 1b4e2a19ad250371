/**
 The evaluator of the older scheem.js at the repository root. It shares the
 form table and the JavaScript operators with javascripts/scheem.js but has no
 `nil` token, lets arithmetic coerce instead of checking numbers, evaluates
 the divisor of `/` and `%` first, takes any `define` target, and gives car and
 cdr lenient results. As in Scheem, `Eval` is its meaning and `EvalScheem`
 the in-place evaluator proved to compute it.
 */
module LegacyScheem {
  import opened ScheemValues

  // Messages thrown by this variant's list forms.
  const ConsMessage := "Second argument must be an array"
  const ArrayMessage := "First argument must be an array"

  /** The sum of two coerced numbers; None stands for a total the model does
      not follow (NaN, or the result of coercing a string or an array). */
  function AddTo(acc: Option<int>, x: Option<int>): (r: Option<int>)
    ensures r.Some? <==> acc.Some? && x.Some?
    ensures r.Some? ==> r.value == Sum([acc.value, x.value])
  {
    if acc.Some? && x.Some? then
      var a, b := acc.value, x.value;
      assert [a, b][1..] == [b] && [b][1..] == [];
      assert Sum([b]) == b;
      Some(a + b)
    else None
  }

  /** The product of two coerced numbers, None when either is not followed. */
  function MultiplyBy(acc: Option<int>, x: Option<int>): (r: Option<int>)
    ensures r.Some? <==> acc.Some? && x.Some?
    ensures r.Some? ==> r.value == Product([acc.value, x.value])
  {
    if acc.Some? && x.Some? then
      var a, b := acc.value, x.value;
      assert [a, b][1..] == [b] && [b][1..] == [];
      assert Product([b]) == b;
      Some(a * b)
    else None
  }

  /** `evalScheem(e, env)` where env holds the bindings s; hasEnv is false for
      a call without an environment, as cons, car and cdr make. */
  function Eval(e: Value, s: Store, hasEnv: bool): (r: Outcome)
    ensures s.Keys <= r.env.Keys
    ensures !hasEnv ==> r.env == s
    decreases e, 2, 0
  {
    if e == Sym("error") then Fail(ErrorMessage, s)
    else
      match e
      case Num(_) => Outcome(Ok(e), s)
      case Sym(x) => if hasEnv then Outcome(Ok(Lookup(s, x)), s) else Outcome(Err(HostTypeError), s)
      case Null => Outcome(Err(HostTypeError), s)
      case Undefined => Outcome(Err(HostTypeError), s)
      case List(xs) =>
        if xs == [] then Outcome(Ok(Undefined), s)
        else
          match FormOf(xs[0])
          case None => Outcome(Ok(Undefined), s)
          case Some(f) => EvalForm(f, e, s, hasEnv)
  }

  /** One `case` of the switch, applied to the list e whose head selected f. */
  function EvalForm(f: Form, e: Value, s: Store, hasEnv: bool): (r: Outcome)
    requires e.List? && e.elems != []
    ensures s.Keys <= r.env.Keys
    ensures !hasEnv ==> r.env == s
    decreases e, 1, 0
  {
    var ops := e.elems;
    var len := |ops|;
    match f
    case Plus =>
      if len == 1 then Fail(ArityMessage, s) else SumFrom(e, 1, Some(0), s, hasEnv)
    case Minus =>
      if len > 3 || len < 2 then Fail(ArityMessage, s)
      else if len == 2 then
        var o := Eval(ops[1], s, hasEnv);
        if o.res.Err? then o else Outcome(Negate(o.res.value), o.env)
      else
        var o1 := Eval(ops[1], s, hasEnv);
        if o1.res.Err? then o1
        else
          var o2 := Eval(ops[2], o1.env, hasEnv);
          if o2.res.Err? then o2
          else Outcome(Subtract(o1.res.value, o2.res.value), o2.env)
    case Times =>
      if len < 2 then Fail(ArityMessage, s) else ProductFrom(e, 1, Some(1), s, hasEnv)
    case Divide | Modulo =>
      if len != 3 then Fail(ArityMessage, s)
      else
        // the divisor is evaluated, and tested, before the dividend
        var o2 := Eval(ops[2], s, hasEnv);
        if o2.res.Err? then o2
        else
          var zero := LooselyZero(o2.res.value);
          if zero.None? then Outcome(Err(Unmodelled), o2.env)
          else if zero.value then Fail(DivisionByZeroMessage, o2.env)
          else
            var o1 := Eval(ops[1], o2.env, hasEnv);
            if o1.res.Err? then o1
            else
              var a, b := o1.res.value, o2.res.value;
              Outcome(if f == Divide then Quotient(a, b) else Remainder(a, b), o1.env)
    case Define =>
      if len != 3 then Fail(ArityMessage, s)
      else if !hasEnv then Outcome(Err(HostTypeError), s)
      else if Bound(s, PropertyKey(ops[1])) then Fail(AlreadyDefinedMessage, s)
      else
        var o := Eval(ops[2], s, hasEnv);
        if o.res.Err? then o
        else Outcome(Ok(Num(0)), o.env[PropertyKey(ops[1]) := o.res.value])
    case SetBang =>
      if len != 3 then Fail(ArityMessage, s)
      else if !hasEnv then Outcome(Err(HostTypeError), s)
      else if !Bound(s, PropertyKey(ops[1])) then Fail(NotDefinedMessage, s)
      else
        var o := Eval(ops[2], s, hasEnv);
        if o.res.Err? then o
        else Outcome(o.res, o.env[PropertyKey(ops[1]) := o.res.value])
    case Begin =>
      BeginFrom(e, 1, Null, s, hasEnv)
    case Quote =>
      if len != 2 then Fail(ArityMessage, s) else Outcome(Ok(ops[1]), s)
    case Cons =>
      if len != 3 then Fail(ArityMessage, s)
      else
        var tail := Eval(ops[2], map[], false).res;
        if tail.Err? then Outcome(tail, s)
        else if !IsArray(tail.value) then Fail(ConsMessage, s)
        else
          var head := Eval(ops[1], map[], false).res;
          if head.Err? then Outcome(head, s)
          else Outcome(Ok(List([head.value] + tail.value.elems)), s)
    case Car =>
      if len != 2 then Fail(ArityMessage, s)
      else
        var l := Eval(ops[1], map[], false).res;
        if l.Err? then Outcome(l, s)
        else if !IsArray(l.value) then Fail(ArrayMessage, s)
        // `tmp[0] || null`: a missing or falsy head becomes null
        else if l.value.elems == [] || Falsy(l.value.elems[0]) then Outcome(Ok(Null), s)
        else Outcome(Ok(l.value.elems[0]), s)
    case Cdr =>
      if len != 2 then Fail(ArityMessage, s)
      else
        var l := Eval(ops[1], map[], false).res;
        if l.Err? then Outcome(l, s)
        else if !IsArray(l.value) then Fail(ArrayMessage, s)
        else if l.value.elems == [] then Outcome(Ok(List([])), s)
        else Outcome(Ok(List(l.value.elems[1..])), s)
    case Compare(rel) =>
      if len != 3 then Fail(ArityMessage, s)
      else
        var o1 := Eval(ops[1], s, hasEnv);
        if o1.res.Err? then o1
        else
          var o2 := Eval(ops[2], o1.env, hasEnv);
          if o2.res.Err? then o2
          else Outcome(Relate(rel, o1.res.value, o2.res.value), o2.env)
    case If =>
      if len > 4 || len < 2 then Fail(ArityMessage, s)
      else
        var c := Eval(ops[1], s, hasEnv);
        if c.res.Err? then c
        else if c.res.value == TrueAtom then
          (if len > 2 then Eval(ops[2], c.env, hasEnv) else Outcome(Ok(TrueAtom), c.env))
        else if len == 4 then Eval(ops[3], c.env, hasEnv)
        else Outcome(Ok(FalseAtom), c.env)
  }

  /** The `+` loop from operand i on: every operand is evaluated and coerced
      with unary plus, so none of them stops the loop unless it fails. */
  function SumFrom(e: Value, i: nat, acc: Option<int>, s: Store, hasEnv: bool): (r: Outcome)
    requires e.List? && 1 <= i <= |e.elems|
    ensures s.Keys <= r.env.Keys
    ensures !hasEnv ==> r.env == s
    decreases e, 0, |e.elems| - i
  {
    if i == |e.elems| then
      (if acc.Some? then Outcome(Ok(Num(acc.value)), s) else Outcome(Err(Unmodelled), s))
    else
      var o := Eval(e.elems[i], s, hasEnv);
      if o.res.Err? then o
      else SumFrom(e, i + 1, AddTo(acc, NumberOf(o.res.value)), o.env, hasEnv)
  }

  /** The `*` loop from operand i on, coercing each operand with `*=`. */
  function ProductFrom(e: Value, i: nat, acc: Option<int>, s: Store, hasEnv: bool): (r: Outcome)
    requires e.List? && 1 <= i <= |e.elems|
    ensures s.Keys <= r.env.Keys
    ensures !hasEnv ==> r.env == s
    decreases e, 0, |e.elems| - i
  {
    if i == |e.elems| then
      (if acc.Some? then Outcome(Ok(Num(acc.value)), s) else Outcome(Err(Unmodelled), s))
    else
      var o := Eval(e.elems[i], s, hasEnv);
      if o.res.Err? then o
      else ProductFrom(e, i + 1, MultiplyBy(acc, NumberOf(o.res.value)), o.env, hasEnv)
  }

  /** The `begin` loop from operand i on; last is the latest value. */
  function BeginFrom(e: Value, i: nat, last: Value, s: Store, hasEnv: bool): (r: Outcome)
    requires e.List? && 1 <= i <= |e.elems|
    ensures s.Keys <= r.env.Keys
    ensures !hasEnv ==> r.env == s
    decreases e, 0, |e.elems| - i
  {
    if i == |e.elems| then Outcome(Ok(last), s)
    else
      var o := Eval(e.elems[i], s, hasEnv);
      if o.res.Err? then o
      else BeginFrom(e, i + 1, o.res.value, o.env, hasEnv)
  }

  // ---------------------------------------------------------------------
  // The evaluator itself. env == null stands for a call without an
  // environment; `define` and `set!` assign into env.vars in place.

  method EvalScheem(expr: Value, env: Environment?) returns (r: Result)
    modifies env
    decreases expr, 2, 0
    ensures Eval(expr, old(Vars(env)), env != null) == Outcome(r, Vars(env))
  {
    if expr == Sym("error") {
      return Err(Throw(ErrorMessage));
    }
    match expr
    case Num(_) =>
      return Ok(expr);
    case Sym(x) =>
      if env == null {
        return Err(HostTypeError);
      }
      return Ok(Lookup(env.vars, x));
    case Null =>
      return Err(HostTypeError);
    case Undefined =>
      return Err(HostTypeError);
    case List(xs) =>
      if xs == [] {
        return Ok(Undefined);
      }
      match FormOf(xs[0])
      case None =>
        return Ok(Undefined);
      case Some(f) =>
        match f
        case Plus => r := EvalPlus(expr, env);
        case Minus => r := EvalMinus(expr, env);
        case Times => r := EvalTimes(expr, env);
        case Divide => r := EvalDivision(f, expr, env);
        case Modulo => r := EvalDivision(f, expr, env);
        case Define => r := EvalDefine(expr, env);
        case SetBang => r := EvalSet(expr, env);
        case Begin => r := EvalBegin(expr, env);
        case Quote =>
          if |xs| != 2 {
            return Err(Throw(ArityMessage));
          }
          return Ok(xs[1]);
        case Cons => r := EvalCons(expr, env);
        case Car => r := EvalCar(expr, env);
        case Cdr => r := EvalCdr(expr, env);
        case Compare(rel) => r := EvalCompare(rel, expr, env);
        case If => r := EvalIf(expr, env);
  }

  method EvalPlus(expr: Value, env: Environment?) returns (r: Result)
    requires expr.List? && expr.elems != []
    modifies env
    decreases expr, 1, 0
    ensures EvalForm(Plus, expr, old(Vars(env)), env != null) == Outcome(r, Vars(env))
  {
    var len := |expr.elems|;
    if len == 1 {
      return Err(Throw(ArityMessage));
    }
    var tmp: Option<int> := Some(0);
    for i := 1 to len
      invariant SumFrom(expr, i, tmp, Vars(env), env != null)
             == SumFrom(expr, 1, Some(0), old(Vars(env)), env != null)
    {
      var v := EvalScheem(expr.elems[i], env);
      if v.Err? {
        return v;
      }
      tmp := AddTo(tmp, NumberOf(v.value));
    }
    if tmp.None? {
      return Err(Unmodelled);
    }
    return Ok(Num(tmp.value));
  }

  method EvalMinus(expr: Value, env: Environment?) returns (r: Result)
    requires expr.List? && expr.elems != []
    modifies env
    decreases expr, 1, 0
    ensures EvalForm(Minus, expr, old(Vars(env)), env != null) == Outcome(r, Vars(env))
  {
    var len := |expr.elems|;
    if len > 3 || len < 2 {
      return Err(Throw(ArityMessage));
    }
    var a := EvalScheem(expr.elems[1], env);
    if a.Err? {
      return a;
    }
    if len == 2 {
      return Negate(a.value);
    }
    var b := EvalScheem(expr.elems[2], env);
    if b.Err? {
      return b;
    }
    return Subtract(a.value, b.value);
  }

  method EvalTimes(expr: Value, env: Environment?) returns (r: Result)
    requires expr.List? && expr.elems != []
    modifies env
    decreases expr, 1, 0
    ensures EvalForm(Times, expr, old(Vars(env)), env != null) == Outcome(r, Vars(env))
  {
    var len := |expr.elems|;
    if len < 2 {
      return Err(Throw(ArityMessage));
    }
    var tmp: Option<int> := Some(1);
    for i := 1 to len
      invariant ProductFrom(expr, i, tmp, Vars(env), env != null)
             == ProductFrom(expr, 1, Some(1), old(Vars(env)), env != null)
    {
      var v := EvalScheem(expr.elems[i], env);
      if v.Err? {
        return v;
      }
      tmp := MultiplyBy(tmp, NumberOf(v.value));
    }
    if tmp.None? {
      return Err(Unmodelled);
    }
    return Ok(Num(tmp.value));
  }

  /** The `/` and `%` cases, which differ only in the final operator. */
  method EvalDivision(f: Form, expr: Value, env: Environment?) returns (r: Result)
    requires f == Divide || f == Modulo
    requires expr.List? && expr.elems != []
    modifies env
    decreases expr, 1, 0
    ensures EvalForm(f, expr, old(Vars(env)), env != null) == Outcome(r, Vars(env))
  {
    if |expr.elems| != 3 {
      return Err(Throw(ArityMessage));
    }
    var tmp := EvalScheem(expr.elems[2], env);
    if tmp.Err? {
      return tmp;
    }
    var zero := LooselyZero(tmp.value);
    if zero.None? {
      return Err(Unmodelled);
    }
    if zero.value {
      return Err(Throw(DivisionByZeroMessage));
    }
    var a := EvalScheem(expr.elems[1], env);
    if a.Err? {
      return a;
    }
    if f == Divide {
      return Quotient(a.value, tmp.value);
    }
    return Remainder(a.value, tmp.value);
  }

  method EvalDefine(expr: Value, env: Environment?) returns (r: Result)
    requires expr.List? && expr.elems != []
    modifies env
    decreases expr, 1, 0
    ensures EvalForm(Define, expr, old(Vars(env)), env != null) == Outcome(r, Vars(env))
  {
    if |expr.elems| != 3 {
      return Err(Throw(ArityMessage));
    }
    if env == null {
      return Err(HostTypeError);
    }
    var tmp := PropertyKey(expr.elems[1]);
    if Bound(env.vars, tmp) {
      return Err(Throw(AlreadyDefinedMessage));
    }
    var v := EvalScheem(expr.elems[2], env);
    if v.Err? {
      return v;
    }
    env.vars := env.vars[tmp := v.value];
    return Ok(Num(0));
  }

  method EvalSet(expr: Value, env: Environment?) returns (r: Result)
    requires expr.List? && expr.elems != []
    modifies env
    decreases expr, 1, 0
    ensures EvalForm(SetBang, expr, old(Vars(env)), env != null) == Outcome(r, Vars(env))
  {
    if |expr.elems| != 3 {
      return Err(Throw(ArityMessage));
    }
    if env == null {
      return Err(HostTypeError);
    }
    var tmp := PropertyKey(expr.elems[1]);
    if !Bound(env.vars, tmp) {
      return Err(Throw(NotDefinedMessage));
    }
    r := EvalScheem(expr.elems[2], env);
    if r.Ok? {
      env.vars := env.vars[tmp := r.value];
    }
  }

  method EvalBegin(expr: Value, env: Environment?) returns (r: Result)
    requires expr.List? && expr.elems != []
    modifies env
    decreases expr, 1, 0
    ensures EvalForm(Begin, expr, old(Vars(env)), env != null) == Outcome(r, Vars(env))
  {
    var tmp := Null;
    for i := 1 to |expr.elems|
      invariant BeginFrom(expr, i, tmp, Vars(env), env != null)
             == BeginFrom(expr, 1, Null, old(Vars(env)), env != null)
    {
      var v := EvalScheem(expr.elems[i], env);
      if v.Err? {
        return v;
      }
      tmp := v.value;
    }
    return Ok(tmp);
  }

  method EvalCons(expr: Value, env: Environment?) returns (r: Result)
    requires expr.List? && expr.elems != []
    modifies env
    decreases expr, 1, 0
    ensures EvalForm(Cons, expr, old(Vars(env)), env != null) == Outcome(r, Vars(env))
  {
    if |expr.elems| != 3 {
      return Err(Throw(ArityMessage));
    }
    var tmp := EvalScheem(expr.elems[2], null);
    if tmp.Err? {
      return tmp;
    }
    if !IsArray(tmp.value) {
      return Err(Throw(ConsMessage));
    }
    var head := EvalScheem(expr.elems[1], null);
    if head.Err? {
      return head;
    }
    return Ok(List([head.value] + tmp.value.elems));
  }

  method EvalCar(expr: Value, env: Environment?) returns (r: Result)
    requires expr.List? && expr.elems != []
    modifies env
    decreases expr, 1, 0
    ensures EvalForm(Car, expr, old(Vars(env)), env != null) == Outcome(r, Vars(env))
  {
    if |expr.elems| != 2 {
      return Err(Throw(ArityMessage));
    }
    var tmp := EvalScheem(expr.elems[1], null);
    if tmp.Err? {
      return tmp;
    }
    if !IsArray(tmp.value) {
      return Err(Throw(ArrayMessage));
    }
    if |tmp.value.elems| == 0 || Falsy(tmp.value.elems[0]) {
      return Ok(Null);
    }
    return Ok(tmp.value.elems[0]);
  }

  method EvalCdr(expr: Value, env: Environment?) returns (r: Result)
    requires expr.List? && expr.elems != []
    modifies env
    decreases expr, 1, 0
    ensures EvalForm(Cdr, expr, old(Vars(env)), env != null) == Outcome(r, Vars(env))
  {
    if |expr.elems| != 2 {
      return Err(Throw(ArityMessage));
    }
    var tmp := EvalScheem(expr.elems[1], null);
    if tmp.Err? {
      return tmp;
    }
    if !IsArray(tmp.value) {
      return Err(Throw(ArrayMessage));
    }
    if |tmp.value.elems| == 0 {
      return Ok(List([]));
    }
    return Ok(List(tmp.value.elems[1..]));
  }

  method EvalCompare(rel: Relation, expr: Value, env: Environment?) returns (r: Result)
    requires expr.List? && expr.elems != []
    modifies env
    decreases expr, 1, 0
    ensures EvalForm(Compare(rel), expr, old(Vars(env)), env != null) == Outcome(r, Vars(env))
  {
    if |expr.elems| != 3 {
      return Err(Throw(ArityMessage));
    }
    var a := EvalScheem(expr.elems[1], env);
    if a.Err? {
      return a;
    }
    var b := EvalScheem(expr.elems[2], env);
    if b.Err? {
      return b;
    }
    return Relate(rel, a.value, b.value);
  }

  method EvalIf(expr: Value, env: Environment?) returns (r: Result)
    requires expr.List? && expr.elems != []
    modifies env
    decreases expr, 1, 0
    ensures EvalForm(If, expr, old(Vars(env)), env != null) == Outcome(r, Vars(env))
  {
    var len := |expr.elems|;
    if len > 4 || len < 2 {
      return Err(Throw(ArityMessage));
    }
    var tmp := EvalScheem(expr.elems[1], env);
    if tmp.Err? {
      return tmp;
    }
    if tmp.value == TrueAtom {
      if len > 2 {
        r := EvalScheem(expr.elems[2], env);
        return;
      }
      return Ok(TrueAtom);
    }
    if len == 4 {
      r := EvalScheem(expr.elems[3], env);
      return;
    }
    return Ok(FalseAtom);
  }
}
