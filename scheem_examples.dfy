/**
 Concrete programs from the repository's test suite (web/tests.js),
 evaluated by the model of each evaluator, and a few programs on which the
 two evaluators disagree.
 */
module ScheemExamples {
  import opened ScheemValues
  import S = Scheem
  import L = LegacyScheem
  import SF = ScheemFrame
  import LF = LegacyFrame

  /** `eval(string, env)` once the string is parsed: the tree evaluated in the
      given bindings, or in a fresh empty object when there are none. Every
      binding the caller passed in survives unless the program defines or
      sets that name, and a program that defines and sets nothing leaves the
      bindings exactly as they were. */
  function Run(tree: Value, env: Option<Store>): (o: Outcome)
    ensures env.Some? ==> Grows(env.value, o.env, Targets(tree))
    ensures env.Some? && Targets(tree) == {} ==> o.env == env.value
    ensures env.None? && Targets(tree) == {} ==> o.env == map[]
  {
    var s := if env.Some? then env.value else map[];
    SF.EvalFrame(tree, s, true);
    if Targets(tree) == {} then
      SF.NoTargetsNoChange(tree, s, true);
      S.Eval(tree, s, true)
    else
      S.Eval(tree, s, true)
  }

  /** (begin (define x 5) (+ x 2)) evaluates to 7 in a fresh environment,
      which it leaves holding x = 5. */
  lemma {:induction false} BeginDefineThenRead()
    ensures Run(List([Sym("begin"), List([Sym("define"), Sym("x"), Num(5)]),
                      List([Sym("+"), Sym("x"), Num(2)])]), None)
         == Outcome(Ok(Num(7)), map["x" := Num(5)])
  {
    var d := List([Sym("define"), Sym("x"), Num(5)]);
    var p := List([Sym("+"), Sym("x"), Num(2)]);
    var b := List([Sym("begin"), d, p]);
    var s1 := map["x" := Num(5)];
    SF.EvalDispatch(Define, d, map[], true);
    assert S.Eval(d, map[], true) == Outcome(Ok(Num(0)), s1);
    SF.EvalDispatch(Plus, p, s1, true);
    assert S.Eval(p, s1, true) == Outcome(Ok(Num(7)), s1);
    SF.EvalDispatch(Begin, b, map[], true);
    assert S.BeginFrom(b, 3, Num(7), s1, true) == Outcome(Ok(Num(7)), s1);
    assert S.BeginFrom(b, 2, Num(0), s1, true) == Outcome(Ok(Num(7)), s1);
  }

  /** The evaluator object updates the caller's environment in place:
      `define` adds a next to b, `set!` then overwrites it. */
  method DefineThenSet() returns (r1: Result, r2: Result, vars: Store)
    ensures r1 == Ok(Num(0)) && r2 == Ok(Num(3))
    ensures vars == map["a" := Num(3), "b" := Num(1)]
  {
    var env := new Environment(map["b" := Num(1)]);
    var d := List([Sym("define"), Sym("a"), Num(4)]);
    var p := List([Sym("+"), Num(1), Num(2)]);
    var st := List([Sym("set!"), Sym("a"), p]);
    SF.EvalDispatch(Define, d, env.vars, true);
    r1 := S.EvalScheem(d, env);
    assert env.vars == map["b" := Num(1), "a" := Num(4)];
    SF.EvalDispatch(SetBang, st, env.vars, true);
    SF.EvalDispatch(Plus, p, env.vars, true);
    r2 := S.EvalScheem(st, env);
    vars := env.vars;
    assert vars == map["b" := Num(1), "a" := Num(4)]["a" := Num(3)];
  }

  /** car of the empty list: the newer evaluator throws, the older gives null. */
  lemma {:induction false} CarOfEmptyList()
    ensures S.Eval(List([Sym("car"), List([Sym("quote"), List([])])]), map[], true)
         == Fail(S.CarMessage, map[])
    ensures L.Eval(List([Sym("car"), List([Sym("quote"), List([])])]), map[], true)
         == Outcome(Ok(Null), map[])
  {
    var q := List([Sym("quote"), List([])]);
    SF.EvalDispatch(Car, List([Sym("car"), q]), map[], true);
    SF.EvalDispatch(Quote, q, map[], false);
    LF.EvalDispatch(Car, List([Sym("car"), q]), map[], true);
    LF.EvalDispatch(Quote, q, map[], false);
  }

  /** (/ error 0): the newer evaluator throws 'Error' from the dividend, the
      older one 'Division by zero' from the divisor it tests first. */
  lemma {:induction false} DivisionOrder()
    ensures S.Eval(List([Sym("/"), Sym("error"), Num(0)]), map[], true)
         == Fail(ErrorMessage, map[])
    ensures L.Eval(List([Sym("/"), Sym("error"), Num(0)]), map[], true)
         == Fail(DivisionByZeroMessage, map[])
  {
    SF.EvalDispatch(Divide, List([Sym("/"), Sym("error"), Num(0)]), map[], true);
    LF.EvalDispatch(Divide, List([Sym("/"), Sym("error"), Num(0)]), map[], true);
  }

  /** (- x 1) with x bound to 5: the newer evaluator's literal check rejects
      the variable, the older one subtracts. */
  lemma {:induction false} MinusOnVariable()
    ensures S.Eval(List([Sym("-"), Sym("x"), Num(1)]), map["x" := Num(5)], true)
         == Fail(InvalidNumberMessage, map["x" := Num(5)])
    ensures L.Eval(List([Sym("-"), Sym("x"), Num(1)]), map["x" := Num(5)], true)
         == Outcome(Ok(Num(4)), map["x" := Num(5)])
  {
    SF.EvalDispatch(Minus, List([Sym("-"), Sym("x"), Num(1)]), map["x" := Num(5)], true);
    LF.EvalDispatch(Minus, List([Sym("-"), Sym("x"), Num(1)]), map["x" := Num(5)], true);
  }

  /** The test named "define a number": the name "5" passes the newer
      evaluator's symbol check, since a number never equals a string with
      `===`; the call throws only because it has no environment. Given one,
      the name is bound. */
  lemma {:induction false} DefineNumericName()
    ensures S.Eval(List([Sym("define"), Sym("5"), Num(3)]), map[], false)
         == Outcome(Err(HostTypeError), map[])
    ensures S.Eval(List([Sym("define"), Sym("5"), Num(3)]), map[], true)
         == Outcome(Ok(Num(0)), map["5" := Num(3)])
  {
    SF.EvalDispatch(Define, List([Sym("define"), Sym("5"), Num(3)]), map[], false);
    SF.EvalDispatch(Define, List([Sym("define"), Sym("5"), Num(3)]), map[], true);
  }
}
