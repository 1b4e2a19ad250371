/**
 The evaluator of javascripts/scheem.js, the variant with the `nil` token and
 number checks. `Eval` is its meaning as a function of the expression and the
 environment's bindings; `EvalScheem` is the evaluator itself, which updates a
 caller-owned `Environment` in place and runs `+`, `*` and `begin` as loops,
 and is proved to compute exactly what `Eval` says.
 */
module Scheem {
  import opened ScheemValues

  // Messages thrown by this variant's list forms (the car message's
  // "an non-empty" is the source's own wording).
  const ConsMessage := "Second argument must be a list"
  const CarMessage := "First argument must be an non-empty list"
  const CdrMessage := "First argument must be a non-empty list"

  /** `evalScheem(e, env)` where env holds the bindings s. When hasEnv is false
      the call was made without an environment (JS undefined), as the list
      forms do for their operands: any read or write of a binding is then a
      TypeError and s is never changed. */
  function Eval(e: Value, s: Store, hasEnv: bool): (r: Outcome)
    ensures s.Keys <= r.env.Keys
    ensures !hasEnv ==> r.env == s
    decreases e, 2, 0
  {
    if e == Sym("error") then Fail(ErrorMessage, s)
    else if e == Sym("nil") then Outcome(Ok(Null), s)
    else
      match e
      case Num(_) => Outcome(Ok(e), s)
      case Sym(x) => if hasEnv then Outcome(Ok(Lookup(s, x)), s) else Outcome(Err(HostTypeError), s)
      case Null => Outcome(Err(HostTypeError), s)
      case Undefined => Outcome(Err(HostTypeError), s)
      case List(xs) =>
        if xs == [] then Outcome(Ok(Undefined), s)
        else
          match FormOf(xs[0])
          case None => Outcome(Ok(Undefined), s)
          case Some(f) => EvalForm(f, e, s, hasEnv)
  }

  /** One `case` of the switch, applied to the list e whose head selected f. */
  function EvalForm(f: Form, e: Value, s: Store, hasEnv: bool): (r: Outcome)
    requires e.List? && e.elems != []
    ensures s.Keys <= r.env.Keys
    ensures !hasEnv ==> r.env == s
    decreases e, 1, 0
  {
    var ops := e.elems;
    var len := |ops|;
    match f
    case Plus =>
      if len == 1 then Fail(ArityMessage, s) else SumFrom(e, 1, 0, s, hasEnv)
    case Minus =>
      if len > 3 || len < 2 then Fail(ArityMessage, s)
      else if len == 2 then
        var o := Eval(ops[1], s, hasEnv);
        if o.res.Err? then o else Outcome(Negate(o.res.value), o.env)
      else
        var o1 := Eval(ops[1], s, hasEnv);
        if o1.res.Err? then o1
        else
          var o2 := Eval(ops[2], o1.env, hasEnv);
          if o2.res.Err? then o2
          // checkNumber is applied to the operand expressions, not their values
          else if !(ops[1].Num? && ops[2].Num?) then Fail(InvalidNumberMessage, o2.env)
          else Outcome(Subtract(o1.res.value, o2.res.value), o2.env)
    case Times =>
      if len < 2 then Fail(ArityMessage, s) else ProductFrom(e, 1, 1, s, hasEnv)
    case Divide | Modulo =>
      if len != 3 then Fail(ArityMessage, s)
      else
        var o1 := Eval(ops[1], s, hasEnv);
        if o1.res.Err? then o1
        else
          var o2 := Eval(ops[2], o1.env, hasEnv);
          if o2.res.Err? then o2
          else
            var zero := LooselyZero(o2.res.value);
            if zero.None? then Outcome(Err(Unmodelled), o2.env)
            else if zero.value then Fail(DivisionByZeroMessage, o2.env)
            else if !(ops[1].Num? && ops[2].Num?) then Fail(InvalidNumberMessage, o2.env)
            else
              var a, b := o1.res.value, o2.res.value;
              Outcome(if f == Divide then Quotient(a, b) else Remainder(a, b), o2.env)
    case Define =>
      if len != 3 then Fail(ArityMessage, s)
      else if !ops[1].Sym? then Fail(InvalidSymbolMessage, s)
      else if !hasEnv then Outcome(Err(HostTypeError), s)
      else if Bound(s, ops[1].name) then Fail(AlreadyDefinedMessage, s)
      else
        var o := Eval(ops[2], s, hasEnv);
        if o.res.Err? then o
        else Outcome(Ok(Num(0)), o.env[ops[1].name := o.res.value])
    case SetBang =>
      if len != 3 then Fail(ArityMessage, s)
      else if !hasEnv then Outcome(Err(HostTypeError), s)
      else if !Bound(s, PropertyKey(ops[1])) then Fail(NotDefinedMessage, s)
      else
        var o := Eval(ops[2], s, hasEnv);
        if o.res.Err? then o
        else Outcome(o.res, o.env[PropertyKey(ops[1]) := o.res.value])
    case Begin =>
      BeginFrom(e, 1, Null, s, hasEnv)
    case Quote =>
      if len != 2 then Fail(ArityMessage, s) else Outcome(Ok(ops[1]), s)
    case Cons =>
      if len != 3 then Fail(ArityMessage, s)
      else
        // both operands are evaluated without the environment, the list first
        var tail := Eval(ops[2], map[], false).res;
        if tail.Err? then Outcome(tail, s)
        else if !IsArray(tail.value) then Fail(ConsMessage, s)
        else
          var head := Eval(ops[1], map[], false).res;
          if head.Err? then Outcome(head, s)
          else Outcome(Ok(List([head.value] + tail.value.elems)), s)
    case Car =>
      if len != 2 then Fail(ArityMessage, s)
      else
        var l := Eval(ops[1], map[], false).res;
        if l.Err? then Outcome(l, s)
        else if !IsArray(l.value) || l.value.elems == [] then Fail(CarMessage, s)
        else Outcome(Ok(l.value.elems[0]), s)
    case Cdr =>
      if len != 2 then Fail(ArityMessage, s)
      else
        var l := Eval(ops[1], map[], false).res;
        if l.Err? then Outcome(l, s)
        else if !IsArray(l.value) || l.value.elems == [] then Fail(CdrMessage, s)
        else Outcome(Ok(List(l.value.elems[1..])), s)
    case Compare(rel) =>
      if len != 3 then Fail(ArityMessage, s)
      else
        var o1 := Eval(ops[1], s, hasEnv);
        if o1.res.Err? then o1
        else
          var o2 := Eval(ops[2], o1.env, hasEnv);
          if o2.res.Err? then o2
          else Outcome(Relate(rel, o1.res.value, o2.res.value), o2.env)
    case If =>
      if len > 4 || len < 2 then Fail(ArityMessage, s)
      else
        var c := Eval(ops[1], s, hasEnv);
        if c.res.Err? then c
        else if c.res.value == TrueAtom then
          (if len > 2 then Eval(ops[2], c.env, hasEnv) else Outcome(Ok(TrueAtom), c.env))
        else if len == 4 then Eval(ops[3], c.env, hasEnv)
        else Outcome(Ok(FalseAtom), c.env)
  }

  /** The `+` loop from operand i on, with running total acc. */
  function SumFrom(e: Value, i: nat, acc: int, s: Store, hasEnv: bool): (r: Outcome)
    requires e.List? && 1 <= i <= |e.elems|
    ensures s.Keys <= r.env.Keys
    ensures !hasEnv ==> r.env == s
    decreases e, 0, |e.elems| - i
  {
    if i == |e.elems| then Outcome(Ok(Num(acc)), s)
    else
      var o := Eval(e.elems[i], s, hasEnv);
      if o.res.Err? then o
      else if !o.res.value.Num? then Fail(InvalidNumberMessage, o.env)
      else SumFrom(e, i + 1, acc + o.res.value.n, o.env, hasEnv)
  }

  /** The `*` loop from operand i on, with running product acc. */
  function ProductFrom(e: Value, i: nat, acc: int, s: Store, hasEnv: bool): (r: Outcome)
    requires e.List? && 1 <= i <= |e.elems|
    ensures s.Keys <= r.env.Keys
    ensures !hasEnv ==> r.env == s
    decreases e, 0, |e.elems| - i
  {
    if i == |e.elems| then Outcome(Ok(Num(acc)), s)
    else
      var o := Eval(e.elems[i], s, hasEnv);
      if o.res.Err? then o
      else if !o.res.value.Num? then Fail(InvalidNumberMessage, o.env)
      else ProductFrom(e, i + 1, acc * o.res.value.n, o.env, hasEnv)
  }

  /** The `begin` loop from operand i on; last is the latest value. */
  function BeginFrom(e: Value, i: nat, last: Value, s: Store, hasEnv: bool): (r: Outcome)
    requires e.List? && 1 <= i <= |e.elems|
    ensures s.Keys <= r.env.Keys
    ensures !hasEnv ==> r.env == s
    decreases e, 0, |e.elems| - i
  {
    if i == |e.elems| then Outcome(Ok(last), s)
    else
      var o := Eval(e.elems[i], s, hasEnv);
      if o.res.Err? then o
      else BeginFrom(e, i + 1, o.res.value, o.env, hasEnv)
  }

  // ---------------------------------------------------------------------
  // The evaluator itself. env == null stands for a call without an
  // environment; `define` and `set!` assign into env.vars in place.

  method EvalScheem(expr: Value, env: Environment?) returns (r: Result)
    modifies env
    decreases expr, 2, 0
    ensures Eval(expr, old(Vars(env)), env != null) == Outcome(r, Vars(env))
  {
    if expr == Sym("error") {
      return Err(Throw(ErrorMessage));
    }
    if expr == Sym("nil") {
      return Ok(Null);
    }
    match expr
    case Num(_) =>
      return Ok(expr);
    case Sym(x) =>
      if env == null {
        return Err(HostTypeError);
      }
      return Ok(Lookup(env.vars, x));
    case Null =>
      return Err(HostTypeError);
    case Undefined =>
      return Err(HostTypeError);
    case List(xs) =>
      if xs == [] {
        return Ok(Undefined);
      }
      match FormOf(xs[0])
      case None =>
        return Ok(Undefined);
      case Some(f) =>
        match f
        case Plus => r := EvalPlus(expr, env);
        case Minus => r := EvalMinus(expr, env);
        case Times => r := EvalTimes(expr, env);
        case Divide => r := EvalDivision(f, expr, env);
        case Modulo => r := EvalDivision(f, expr, env);
        case Define => r := EvalDefine(expr, env);
        case SetBang => r := EvalSet(expr, env);
        case Begin => r := EvalBegin(expr, env);
        case Quote =>
          if |xs| != 2 {
            return Err(Throw(ArityMessage));
          }
          return Ok(xs[1]);
        case Cons => r := EvalCons(expr, env);
        case Car => r := EvalCar(expr, env);
        case Cdr => r := EvalCdr(expr, env);
        case Compare(rel) => r := EvalCompare(rel, expr, env);
        case If => r := EvalIf(expr, env);
  }

  method EvalPlus(expr: Value, env: Environment?) returns (r: Result)
    requires expr.List? && expr.elems != []
    modifies env
    decreases expr, 1, 0
    ensures EvalForm(Plus, expr, old(Vars(env)), env != null) == Outcome(r, Vars(env))
  {
    var len := |expr.elems|;
    if len == 1 {
      return Err(Throw(ArityMessage));
    }
    var tmp := 0;
    for i := 1 to len
      invariant SumFrom(expr, i, tmp, Vars(env), env != null)
             == SumFrom(expr, 1, 0, old(Vars(env)), env != null)
    {
      var tmp2 := EvalScheem(expr.elems[i], env);
      if tmp2.Err? {
        return tmp2;
      }
      if !tmp2.value.Num? {
        return Err(Throw(InvalidNumberMessage));
      }
      tmp := tmp + tmp2.value.n;
    }
    return Ok(Num(tmp));
  }

  method EvalMinus(expr: Value, env: Environment?) returns (r: Result)
    requires expr.List? && expr.elems != []
    modifies env
    decreases expr, 1, 0
    ensures EvalForm(Minus, expr, old(Vars(env)), env != null) == Outcome(r, Vars(env))
  {
    var len := |expr.elems|;
    if len > 3 || len < 2 {
      return Err(Throw(ArityMessage));
    }
    var tmp := EvalScheem(expr.elems[1], env);
    if tmp.Err? {
      return tmp;
    }
    if len == 2 {
      return Negate(tmp.value);
    }
    var tmp2 := EvalScheem(expr.elems[2], env);
    if tmp2.Err? {
      return tmp2;
    }
    if !expr.elems[1].Num? || !expr.elems[2].Num? {
      return Err(Throw(InvalidNumberMessage));
    }
    return Subtract(tmp.value, tmp2.value);
  }

  method EvalTimes(expr: Value, env: Environment?) returns (r: Result)
    requires expr.List? && expr.elems != []
    modifies env
    decreases expr, 1, 0
    ensures EvalForm(Times, expr, old(Vars(env)), env != null) == Outcome(r, Vars(env))
  {
    var len := |expr.elems|;
    if len < 2 {
      return Err(Throw(ArityMessage));
    }
    var tmp := 1;
    for i := 1 to len
      invariant ProductFrom(expr, i, tmp, Vars(env), env != null)
             == ProductFrom(expr, 1, 1, old(Vars(env)), env != null)
    {
      var tmp2 := EvalScheem(expr.elems[i], env);
      if tmp2.Err? {
        return tmp2;
      }
      if !tmp2.value.Num? {
        return Err(Throw(InvalidNumberMessage));
      }
      tmp := tmp * tmp2.value.n;
    }
    return Ok(Num(tmp));
  }

  /** The `/` and `%` cases, which differ only in the final operator. */
  method EvalDivision(f: Form, expr: Value, env: Environment?) returns (r: Result)
    requires f == Divide || f == Modulo
    requires expr.List? && expr.elems != []
    modifies env
    decreases expr, 1, 0
    ensures EvalForm(f, expr, old(Vars(env)), env != null) == Outcome(r, Vars(env))
  {
    if |expr.elems| != 3 {
      return Err(Throw(ArityMessage));
    }
    var tmp := EvalScheem(expr.elems[1], env);
    if tmp.Err? {
      return tmp;
    }
    var tmp2 := EvalScheem(expr.elems[2], env);
    if tmp2.Err? {
      return tmp2;
    }
    var zero := LooselyZero(tmp2.value);
    if zero.None? {
      return Err(Unmodelled);
    }
    if zero.value {
      return Err(Throw(DivisionByZeroMessage));
    }
    if !expr.elems[1].Num? || !expr.elems[2].Num? {
      return Err(Throw(InvalidNumberMessage));
    }
    if f == Divide {
      return Quotient(tmp.value, tmp2.value);
    }
    return Remainder(tmp.value, tmp2.value);
  }

  method EvalDefine(expr: Value, env: Environment?) returns (r: Result)
    requires expr.List? && expr.elems != []
    modifies env
    decreases expr, 1, 0
    ensures EvalForm(Define, expr, old(Vars(env)), env != null) == Outcome(r, Vars(env))
  {
    if |expr.elems| != 3 {
      return Err(Throw(ArityMessage));
    }
    var tmp := expr.elems[1];
    if !tmp.Sym? {
      return Err(Throw(InvalidSymbolMessage));
    }
    if env == null {
      return Err(HostTypeError);
    }
    if Bound(env.vars, tmp.name) {
      return Err(Throw(AlreadyDefinedMessage));
    }
    var v := EvalScheem(expr.elems[2], env);
    if v.Err? {
      return v;
    }
    env.vars := env.vars[tmp.name := v.value];
    return Ok(Num(0));
  }

  method EvalSet(expr: Value, env: Environment?) returns (r: Result)
    requires expr.List? && expr.elems != []
    modifies env
    decreases expr, 1, 0
    ensures EvalForm(SetBang, expr, old(Vars(env)), env != null) == Outcome(r, Vars(env))
  {
    if |expr.elems| != 3 {
      return Err(Throw(ArityMessage));
    }
    if env == null {
      return Err(HostTypeError);
    }
    var tmp := PropertyKey(expr.elems[1]);
    if !Bound(env.vars, tmp) {
      return Err(Throw(NotDefinedMessage));
    }
    r := EvalScheem(expr.elems[2], env);
    if r.Ok? {
      env.vars := env.vars[tmp := r.value];
    }
  }

  method EvalBegin(expr: Value, env: Environment?) returns (r: Result)
    requires expr.List? && expr.elems != []
    modifies env
    decreases expr, 1, 0
    ensures EvalForm(Begin, expr, old(Vars(env)), env != null) == Outcome(r, Vars(env))
  {
    var tmp := Null;
    for i := 1 to |expr.elems|
      invariant BeginFrom(expr, i, tmp, Vars(env), env != null)
             == BeginFrom(expr, 1, Null, old(Vars(env)), env != null)
    {
      var v := EvalScheem(expr.elems[i], env);
      if v.Err? {
        return v;
      }
      tmp := v.value;
    }
    return Ok(tmp);
  }

  method EvalCons(expr: Value, env: Environment?) returns (r: Result)
    requires expr.List? && expr.elems != []
    modifies env
    decreases expr, 1, 0
    ensures EvalForm(Cons, expr, old(Vars(env)), env != null) == Outcome(r, Vars(env))
  {
    if |expr.elems| != 3 {
      return Err(Throw(ArityMessage));
    }
    var tmp := EvalScheem(expr.elems[2], null);
    if tmp.Err? {
      return tmp;
    }
    if !IsArray(tmp.value) {
      return Err(Throw(ConsMessage));
    }
    var head := EvalScheem(expr.elems[1], null);
    if head.Err? {
      return head;
    }
    return Ok(List([head.value] + tmp.value.elems));
  }

  method EvalCar(expr: Value, env: Environment?) returns (r: Result)
    requires expr.List? && expr.elems != []
    modifies env
    decreases expr, 1, 0
    ensures EvalForm(Car, expr, old(Vars(env)), env != null) == Outcome(r, Vars(env))
  {
    if |expr.elems| != 2 {
      return Err(Throw(ArityMessage));
    }
    var tmp := EvalScheem(expr.elems[1], null);
    if tmp.Err? {
      return tmp;
    }
    if !IsArray(tmp.value) || |tmp.value.elems| == 0 {
      return Err(Throw(CarMessage));
    }
    return Ok(tmp.value.elems[0]);
  }

  method EvalCdr(expr: Value, env: Environment?) returns (r: Result)
    requires expr.List? && expr.elems != []
    modifies env
    decreases expr, 1, 0
    ensures EvalForm(Cdr, expr, old(Vars(env)), env != null) == Outcome(r, Vars(env))
  {
    if |expr.elems| != 2 {
      return Err(Throw(ArityMessage));
    }
    var tmp := EvalScheem(expr.elems[1], null);
    if tmp.Err? {
      return tmp;
    }
    if !IsArray(tmp.value) || |tmp.value.elems| == 0 {
      return Err(Throw(CdrMessage));
    }
    return Ok(List(tmp.value.elems[1..]));
  }

  method EvalCompare(rel: Relation, expr: Value, env: Environment?) returns (r: Result)
    requires expr.List? && expr.elems != []
    modifies env
    decreases expr, 1, 0
    ensures EvalForm(Compare(rel), expr, old(Vars(env)), env != null) == Outcome(r, Vars(env))
  {
    if |expr.elems| != 3 {
      return Err(Throw(ArityMessage));
    }
    var a := EvalScheem(expr.elems[1], env);
    if a.Err? {
      return a;
    }
    var b := EvalScheem(expr.elems[2], env);
    if b.Err? {
      return b;
    }
    return Relate(rel, a.value, b.value);
  }

  method EvalIf(expr: Value, env: Environment?) returns (r: Result)
    requires expr.List? && expr.elems != []
    modifies env
    decreases expr, 1, 0
    ensures EvalForm(If, expr, old(Vars(env)), env != null) == Outcome(r, Vars(env))
  {
    var len := |expr.elems|;
    if len > 4 || len < 2 {
      return Err(Throw(ArityMessage));
    }
    var tmp := EvalScheem(expr.elems[1], env);
    if tmp.Err? {
      return tmp;
    }
    if tmp.value == TrueAtom {
      if len > 2 {
        r := EvalScheem(expr.elems[2], env);
        return;
      }
      return Ok(TrueAtom);
    }
    if len == 4 {
      r := EvalScheem(expr.elems[3], env);
      return;
    }
    return Ok(FalseAtom);
  }
}
