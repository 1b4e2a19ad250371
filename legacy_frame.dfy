/**
 The same frame for the older scheem.js: an evaluation never removes a name,
 writes only names that some `define` or `set!` inside the expression
 targets, and without an environment changes nothing.
 */
module LegacyFrame {
  import opened ScheemValues
  import opened LegacyScheem

  /** The list form whose head selects f evaluates as that form. */
  lemma {:induction false} EvalDispatch(f: Form, e: Value, s: Store, hasEnv: bool)
    requires e.List? && e.elems != [] && e.elems[0] == Sym(FormName(f))
    ensures Eval(e, s, hasEnv) == EvalForm(f, e, s, hasEnv)
  {
    FormNameRoundTrip(f);
  }

  /** The frame of one evaluation. */
  lemma {:induction false} EvalFrame(e: Value, s: Store, hasEnv: bool)
    ensures Grows(s, Eval(e, s, hasEnv).env, Targets(e))
    ensures !hasEnv ==> Eval(e, s, hasEnv).env == s
    decreases e, 2, 0
  {
    if e.List? && e.elems != [] {
      match FormOf(e.elems[0])
      case None =>
      case Some(f) => EvalFormFrame(f, e, s, hasEnv);
    }
  }

  /** Evaluating operand i of e stays inside e's frame. */
  lemma {:induction false} OperandFrame(e: Value, i: nat, s: Store, hasEnv: bool)
    requires e.List? && i < |e.elems|
    ensures Grows(s, Eval(e.elems[i], s, hasEnv).env, Targets(e))
    ensures !hasEnv ==> Eval(e.elems[i], s, hasEnv).env == s
    decreases e, 0, 0
  {
    EvalFrame(e.elems[i], s, hasEnv);
    TargetsOfElement(e, i);
    GrowsWeaken(s, Eval(e.elems[i], s, hasEnv).env, Targets(e.elems[i]), Targets(e));
  }

  lemma {:induction false} EvalFormFrame(f: Form, e: Value, s: Store, hasEnv: bool)
    requires e.List? && e.elems != [] && FormOf(e.elems[0]) == Some(f)
    ensures Grows(s, EvalForm(f, e, s, hasEnv).env, Targets(e))
    ensures !hasEnv ==> EvalForm(f, e, s, hasEnv).env == s
    decreases e, 1, 0
  {
    var ops := e.elems;
    var len := |ops|;
    var w := Targets(e);
    match f
    case Plus =>
      if len > 1 {
        SumFromFrame(e, 1, Some(0), s, hasEnv);
      }
    case Times =>
      if len > 1 {
        ProductFromFrame(e, 1, Some(1), s, hasEnv);
      }
    case Begin =>
      if len > 1 {
        BeginFromFrame(e, 1, Null, s, hasEnv);
      }
    case Minus =>
      if 2 <= len <= 3 {
        OperandFrame(e, 1, s, hasEnv);
        var o1 := Eval(ops[1], s, hasEnv);
        if len == 3 && o1.res.Ok? {
          OperandFrame(e, 2, o1.env, hasEnv);
          GrowsTrans(s, o1.env, Eval(ops[2], o1.env, hasEnv).env, w, w, w);
        }
      }
    case Divide =>
      DivisionFrame(e, s, hasEnv);
    case Modulo =>
      DivisionFrame(e, s, hasEnv);
    case Compare(_) =>
      TwoOperandsFrame(e, s, hasEnv);
    case Define | SetBang =>
      BindingFrame(f, e, s, hasEnv);
    case If =>
      IfFrame(e, s, hasEnv);
    case Quote =>
    case Cons =>
    case Car =>
    case Cdr =>
  }

  /** `define` and `set!` write the target's property name, which is one of
      the expression's targets, after evaluating operand 2. */
  lemma {:induction false} BindingFrame(f: Form, e: Value, s: Store, hasEnv: bool)
    requires f in {Define, SetBang}
    requires e.List? && e.elems != [] && FormOf(e.elems[0]) == Some(f)
    ensures Grows(s, EvalForm(f, e, s, hasEnv).env, Targets(e))
    decreases e, 0, 1
  {
    var ops, w := e.elems, Targets(e);
    if |ops| == 3 && hasEnv {
      OperandFrame(e, 2, s, hasEnv);
      var o := Eval(ops[2], s, hasEnv);
      if o.res.Ok? {
        assert PropertyKey(ops[1]) in w;
        GrowsUpdate(o.env, PropertyKey(ops[1]), o.res.value, w);
        GrowsTrans(s, o.env, o.env[PropertyKey(ops[1]) := o.res.value], w, w, w);
      }
    } else {
      GrowsRefl(s, w);
    }
  }

  /** `if` evaluates the test and at most one branch. */
  lemma {:induction false} IfFrame(e: Value, s: Store, hasEnv: bool)
    requires e.List? && e.elems != [] && FormOf(e.elems[0]) == Some(If)
    ensures Grows(s, EvalForm(If, e, s, hasEnv).env, Targets(e))
    decreases e, 0, 1
  {
    var ops, w := e.elems, Targets(e);
    var len := |ops|;
    if 2 <= len <= 4 {
      OperandFrame(e, 1, s, hasEnv);
      var c := Eval(ops[1], s, hasEnv);
      if c.res.Ok? {
        if c.res.value == TrueAtom && len > 2 {
          OperandFrame(e, 2, c.env, hasEnv);
          GrowsTrans(s, c.env, Eval(ops[2], c.env, hasEnv).env, w, w, w);
        } else if c.res.value != TrueAtom && len == 4 {
          OperandFrame(e, 3, c.env, hasEnv);
          GrowsTrans(s, c.env, Eval(ops[3], c.env, hasEnv).env, w, w, w);
        }
      }
    } else {
      GrowsRefl(s, w);
    }
  }

  /** The shared shape of `/`, `%` and the comparisons: two operands, the
      second evaluated in the environment the first left. */
  lemma {:induction false} TwoOperandsFrame(e: Value, s: Store, hasEnv: bool)
    requires e.List? && |e.elems| >= 1
    ensures |e.elems| == 3 ==>
      var o1 := Eval(e.elems[1], s, hasEnv);
      && Grows(s, o1.env, Targets(e))
      && Grows(s, Eval(e.elems[2], o1.env, hasEnv).env, Targets(e))
      && (!hasEnv ==> o1.env == s && Eval(e.elems[2], o1.env, hasEnv).env == s)
    decreases e, 0, 1
  {
    if |e.elems| == 3 {
      var w := Targets(e);
      OperandFrame(e, 1, s, hasEnv);
      var o1 := Eval(e.elems[1], s, hasEnv);
      OperandFrame(e, 2, o1.env, hasEnv);
      GrowsTrans(s, o1.env, Eval(e.elems[2], o1.env, hasEnv).env, w, w, w);
    }
  }

  /** `/` and `%` evaluate the divisor first and the dividend in the
      environment it left. */
  lemma {:induction false} DivisionFrame(e: Value, s: Store, hasEnv: bool)
    requires e.List? && |e.elems| >= 1
    ensures |e.elems| == 3 ==>
      var o2 := Eval(e.elems[2], s, hasEnv);
      && Grows(s, o2.env, Targets(e))
      && Grows(s, Eval(e.elems[1], o2.env, hasEnv).env, Targets(e))
      && (!hasEnv ==> o2.env == s && Eval(e.elems[1], o2.env, hasEnv).env == s)
    decreases e, 0, 1
  {
    if |e.elems| == 3 {
      var w := Targets(e);
      OperandFrame(e, 2, s, hasEnv);
      var o2 := Eval(e.elems[2], s, hasEnv);
      OperandFrame(e, 1, o2.env, hasEnv);
      GrowsTrans(s, o2.env, Eval(e.elems[1], o2.env, hasEnv).env, w, w, w);
    }
  }

  lemma {:induction false} SumFromFrame(e: Value, i: nat, acc: Option<int>, s: Store, hasEnv: bool)
    requires e.List? && 1 <= i <= |e.elems|
    ensures Grows(s, SumFrom(e, i, acc, s, hasEnv).env, Targets(e))
    ensures !hasEnv ==> SumFrom(e, i, acc, s, hasEnv).env == s
    decreases e, 0, |e.elems| - i
  {
    var w := Targets(e);
    if i < |e.elems| {
      OperandFrame(e, i, s, hasEnv);
      var o := Eval(e.elems[i], s, hasEnv);
      if o.res.Ok? {
        var acc' := AddTo(acc, NumberOf(o.res.value));
        SumFromFrame(e, i + 1, acc', o.env, hasEnv);
        GrowsTrans(s, o.env, SumFrom(e, i + 1, acc', o.env, hasEnv).env, w, w, w);
      }
    }
  }

  lemma {:induction false} ProductFromFrame(e: Value, i: nat, acc: Option<int>, s: Store, hasEnv: bool)
    requires e.List? && 1 <= i <= |e.elems|
    ensures Grows(s, ProductFrom(e, i, acc, s, hasEnv).env, Targets(e))
    ensures !hasEnv ==> ProductFrom(e, i, acc, s, hasEnv).env == s
    decreases e, 0, |e.elems| - i
  {
    var w := Targets(e);
    if i < |e.elems| {
      OperandFrame(e, i, s, hasEnv);
      var o := Eval(e.elems[i], s, hasEnv);
      if o.res.Ok? {
        var acc' := MultiplyBy(acc, NumberOf(o.res.value));
        ProductFromFrame(e, i + 1, acc', o.env, hasEnv);
        GrowsTrans(s, o.env, ProductFrom(e, i + 1, acc', o.env, hasEnv).env, w, w, w);
      }
    }
  }

  lemma {:induction false} BeginFromFrame(e: Value, i: nat, last: Value, s: Store, hasEnv: bool)
    requires e.List? && 1 <= i <= |e.elems|
    ensures Grows(s, BeginFrom(e, i, last, s, hasEnv).env, Targets(e))
    ensures !hasEnv ==> BeginFrom(e, i, last, s, hasEnv).env == s
    decreases e, 0, |e.elems| - i
  {
    var w := Targets(e);
    if i < |e.elems| {
      OperandFrame(e, i, s, hasEnv);
      var o := Eval(e.elems[i], s, hasEnv);
      if o.res.Ok? {
        BeginFromFrame(e, i + 1, o.res.value, o.env, hasEnv);
        GrowsTrans(s, o.env, BeginFrom(e, i + 1, o.res.value, o.env, hasEnv).env, w, w, w);
      }
    }
  }

  /** An expression with no `define` or `set!` in it leaves the environment
      exactly as it found it. */
  lemma {:induction false} NoTargetsNoChange(e: Value, s: Store, hasEnv: bool)
    requires Targets(e) == {}
    ensures Eval(e, s, hasEnv).env == s
  {
    EvalFrame(e, s, hasEnv);
    GrowsNothing(s, Eval(e, s, hasEnv).env);
  }
}
