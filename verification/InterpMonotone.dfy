/** A later pass decides everything an earlier one did, the same way.

    Two passes run the same program; the later one reads the final contents of more channels. As
    long as neither lost track of an effect, whatever the earlier pass decided (a value, a cell, a
    contribution, a commit time) the later one decides identically, however much more it decides.
    A branch, arm, operand or loop body the earlier pass ran only speculatively is one the later
    pass runs for real, runs several times, or does not run. */
module InterpMonotone {
  import opened Options
  import opened InterpSyntax
  import opened InterpValues
  import opened InterpEval
  import opened InterpWeaken
  import opened InterpBelow
  import opened InterpSteps

  /** Speculating in the earlier pass keeps its context below the later one's. */
  lemma {:induction false} SpeculateBelow(c1: Ctx, c2: Ctx)
    requires CtxBelow(c1, c2)
    ensures CtxBelow(c1.Speculate(), c2) && CtxBelow(c1.Speculate(), c2.Speculate())
  {
  }

  lemma {:induction false} SpeculateRight(c1: Ctx, c2: Ctx)
    requires CtxBelow(c1, c2) && c1.spec > c1.specAtCall
    ensures CtxBelow(c1, c2.Speculate())
  {
  }

  /** Code the earlier pass ran and the later one did not. */
  lemma {:induction false} Skipped(a: State, a': State, b: State, n: nat)
    requires StateBelow(a, b, n) && Weaker(a', a) && |a'.cells| == |a.cells|
    ensures StateBelow(a', b, n)
  {
    BelowWeaker(a, a', b, n);
  }

  // ----- Expressions -----

  lemma {:induction false} EvalBelow(e: Expr, c1: Ctx, c2: Ctx, s1: State, s2: State, n: nat, fuel: nat)
    requires Pre(c1, c2, s1, s2, n)
    requires Followed(Eval(e, c1, s1, fuel).st) && Ran(Eval(e, c2, s2, fuel))
    ensures Agree(Eval(e, c1, s1, fuel), Eval(e, c2, s2, fuel), n)
    decreases fuel, e, 2
  {
    hide StateBelow, EvalRaw;
    EvalRawBelow(e, c1, c2, s1, s2, n, fuel);
  }

  lemma {:induction false} EvalRawBelow(e: Expr, c1: Ctx, c2: Ctx, s1: State, s2: State, n: nat, fuel: nat)
    requires Pre(c1, c2, s1, s2, n)
    requires Followed(EvalRaw(e, c1, s1, fuel).st) && Ran(EvalRaw(e, c2, s2, fuel))
    ensures Agree(EvalRaw(e, c1, s1, fuel), EvalRaw(e, c2, s2, fuel), n)
    decreases fuel, e, 1
  {
    hide Eval, EvalAll, EvalChain, EvalBool, EvalCall, Comprehend, RunBranches, RunMatch, ReadName;
    match e
    case Literal(_) =>
    case Name(x) => ReadNameBelow(x, c1, c2, s1, s2, n);
    case Strict(op, args) =>
      EvalAllBelow(args, c1, c2, s1, s2, n, fuel);
      var o1, o2 := EvalAll(args, c1, s1, fuel), EvalAll(args, c2, s2, fuel);
      if o1.r.Ok? { ApplyBelow(op, o1.r.value, o2.r.value); }
    case Compare(first, rest) =>
      EvalBelow(first, c1, c2, s1, s2, n, fuel);
      var o1, o2 := Eval(first, c1, s1, fuel), Eval(first, c2, s2, fuel);
      if o1.r.Ok? { EvalChainBelow(o1.r.value, o2.r.value, rest, c1, c2, o1.st, o2.st, n, fuel); }
    case BoolOp(conj, operands) => EvalBoolBelow(conj, operands, c1, c2, s1, s2, n, fuel);
    case IfExp(_, _, _) => EvalIfBelow(e, c1, c2, s1, s2, n, fuel);
    case Block(s) =>
      if s.If? { RunBranchesBelow(s.branches, Denote(false), c1, c2, s1, s2, n, fuel); }
      if s.Match? { RunMatchBelow(s, Denote(false), c1, c2, s1, s2, n, fuel); }
    case Call(_, _, at) =>
      EvalCallBelow(e, c1.(calls := c1.calls + [at]), c2.(calls := c2.calls + [at]), s1, s2, n, fuel);
    case ListComp(comp) =>
      ComprehendBelow(comp, [], [], c1, c2, s1, s2, n, fuel);
    case Lambda(_, _) =>
    case AwaitFinal(x) =>
      LookupBelow(c1.env, c2.env, x);
      match Lookup(c1.env, x) {
        case Some(Mut(loc)) => assert CellBelow(s1.cells[loc], s2.cells[loc]);
        case _ =>
      }
  }

  lemma {:induction false} EvalIfBelow(e: Expr, c1: Ctx, c2: Ctx, s1: State, s2: State, n: nat, fuel: nat)
    requires e.IfExp? && Pre(c1, c2, s1, s2, n)
    requires Followed(EvalRaw(e, c1, s1, fuel).st) && Ran(EvalRaw(e, c2, s2, fuel))
    ensures Agree(EvalRaw(e, c1, s1, fuel), EvalRaw(e, c2, s2, fuel), n)
    decreases fuel, e, 0
  {
    hide Eval, EvalAll, EvalChain, EvalBool, EvalCall, Comprehend, RunBranches, RunMatch, ReadName;
    EvalBelow(e.cond, c1, c2, s1, s2, n, fuel);
    var o1, o2 := Eval(e.cond, c1, s1, fuel), Eval(e.cond, c2, s2, fuel);
    if o1.r.Ok? && o1.r.value.Known? {
      if o1.r.value.d == Bool(true) { EvalBelow(e.thn, c1, c2, o1.st, o2.st, n, fuel); }
      if o1.r.value.d == Bool(false) { EvalBelow(e.els, c1, c2, o1.st, o2.st, n, fuel); }
    } else if o1.r.Ok? {
      var d1 := c1.Speculate();
      SpeculateBelow(c1, c2);
      var t1 := Eval(e.thn, d1, o1.st, fuel);
      var f1 := Eval(e.els, d1, t1.st, fuel);
      if o2.r.value.Pending? {
        EvalBelow(e.thn, d1, c2.Speculate(), o1.st, o2.st, n, fuel);
        EvalBelow(e.els, d1, c2.Speculate(), t1.st, Eval(e.thn, c2.Speculate(), o2.st, fuel).st, n, fuel);
      } else if o2.r.value.d == Bool(true) {
        EvalBelow(e.thn, d1, c2, o1.st, o2.st, n, fuel);
        EvalSkipped(e.els, d1, t1.st, Eval(e.thn, c2, o2.st, fuel).st, n, fuel);
      } else {
        EvalSkipped(e.thn, d1, o1.st, o2.st, n, fuel);
        EvalBelow(e.els, d1, c2, t1.st, o2.st, n, fuel);
      }
    }
  }

  lemma {:induction false} EvalSkipped(e: Expr, c1: Ctx, s1: State, s2: State, n: nat, fuel: nat)
    requires c1.spec > 0 && StateBelow(s1, s2, n)
    ensures StateBelow(Eval(e, c1, s1, fuel).st, s2, n)
  {
    hide EvalRaw;
    EvalWeakens(e, c1, s1, fuel);
    Skipped(s1, Eval(e, c1, s1, fuel).st, s2, n);
  }

  lemma {:induction false} EvalAllBelow(es: Exprs, c1: Ctx, c2: Ctx, s1: State, s2: State, n: nat, fuel: nat)
    requires Pre(c1, c2, s1, s2, n)
    requires Followed(EvalAll(es, c1, s1, fuel).st) && Ran(EvalAll(es, c2, s2, fuel))
    ensures AgreeAll(EvalAll(es, c1, s1, fuel), EvalAll(es, c2, s2, fuel), n)
    decreases fuel, es, 0
  {
    hide EvalRaw;
    if es.MoreExprs? {
      EvalBelow(es.head, c1, c2, s1, s2, n, fuel);
      var o1, o2 := Eval(es.head, c1, s1, fuel), Eval(es.head, c2, s2, fuel);
      if o1.r.Ok? { EvalAllBelow(es.tail, c1, c2, o1.st, o2.st, n, fuel); }
    }
  }

  lemma {:induction false} EvalChainBelow(p1: Value, p2: Value, rest: Comparisons, c1: Ctx, c2: Ctx, s1: State,
          s2: State, n: nat, fuel: nat)
    requires Pre(c1, c2, s1, s2, n) && Below(p1, p2)
    requires Followed(EvalChain(p1, rest, c1, s1, fuel).st) && Ran(EvalChain(p2, rest, c2, s2, fuel))
    ensures Agree(EvalChain(p1, rest, c1, s1, fuel), EvalChain(p2, rest, c2, s2, fuel), n)
    decreases fuel, rest, 1
  {
    hide EvalRaw;
    if rest.MoreCmp? {
      EvalBelow(rest.right, c1, c2, s1, s2, n, fuel);
      var o1, o2 := Eval(rest.right, c1, s1, fuel), Eval(rest.right, c2, s2, fuel);
      if o1.r.Ok? {
        if p1.Pending? || o1.r.value.Pending? {
          SpeculateBelow(c1, c2);
          if p2.Pending? || o2.r.value.Pending? {
            SpecChainBelow(rest.tail, c1.Speculate(), c2.Speculate(), o1.st, o2.st, n, fuel);
          } else {
            var b := Comparison(rest.op, p2.d, o2.r.value.d);
            ChainCovered(b.value, o2.r.value, rest.tail, c1.Speculate(), c2, o1.st, o2.st, n, fuel);
          }
        } else {
          EvalChainMore(p1, rest, c1, c2, o1, o2, n, fuel);
        }
      }
    }
  }

  lemma {:induction false} EvalChainMore(prev: Value, rest: Comparisons, c1: Ctx, c2: Ctx, o1: Out<Value>,
          o2: Out<Value>, n: nat, fuel: nat)
    requires rest.MoreCmp? && prev.Known? && o1.r.Ok? && o1.r.value.Known? && o2.r == o1.r
    requires Pre(c1, c2, o1.st, o2.st, n)
    requires var b := Comparison(rest.op, prev.d, o1.r.value.d);
             b == Ok(true) ==>
               && Followed(EvalChain(o1.r.value, rest.tail, c1, o1.st, fuel).st)
               && Ran(EvalChain(o1.r.value, rest.tail, c2, o2.st, fuel))
    ensures var b := Comparison(rest.op, prev.d, o1.r.value.d);
            b == Ok(true) ==> Agree(EvalChain(o1.r.value, rest.tail, c1, o1.st, fuel),
                EvalChain(o1.r.value, rest.tail, c2, o2.st, fuel), n)
    decreases fuel, rest, 0
  {
    hide EvalRaw;
    if Comparison(rest.op, prev.d, o1.r.value.d) == Ok(true) {
      EvalChainBelow(o1.r.value, o1.r.value, rest.tail, c1, c2, o1.st, o2.st, n, fuel);
    }
  }

  lemma {:induction false} SpecChainBelow(rest: Comparisons, c1: Ctx, c2: Ctx, s1: State, s2: State, n: nat, fuel: nat)
    requires c1.spec > 0 && c2.spec > 0 && Pre(c1, c2, s1, s2, n)
    requires Followed(SpecChain(rest, c1, s1, fuel)) && !SpecChain(rest, c2, s2, fuel).lost
    ensures StateBelow(SpecChain(rest, c1, s1, fuel), SpecChain(rest, c2, s2, fuel), n)
    decreases fuel, rest, 0
  {
    hide StateBelow, EvalRaw;
    if rest.MoreCmp? {
      EvalBelow(rest.right, c1, c2, s1, s2, n, fuel);
      SpecChainBelow(rest.tail, c1, c2, Eval(rest.right, c1, s1, fuel).st, Eval(rest.right, c2, s2, fuel).st, n, fuel);
    }
  }

  /** The earlier pass ran every comparand left; the later one goes on while the chain holds. */
  lemma {:induction false} ChainCovered(more: bool, p2: Value, rest: Comparisons, c1: Ctx, c2: Ctx, s1: State,
          s2: State, n: nat, fuel: nat)
    requires c1.spec > c1.specAtCall && Pre(c1, c2, s1, s2, n) && Followed(SpecChain(rest, c1, s1, fuel))
    requires more ==> Ran(EvalChain(p2, rest, c2, s2, fuel))
    ensures StateBelow(SpecChain(rest, c1, s1, fuel), if more then EvalChain(p2, rest, c2, s2, fuel).st else s2, n)
    decreases fuel, rest, 0
  {
    hide StateBelow, EvalRaw;
    if rest.MoreCmp? {
      var t1 := Eval(rest.right, c1, s1, fuel).st;
      if !more {
        EvalSkipped(rest.right, c1, s1, s2, n, fuel);
        ChainCovered(false, p2, rest.tail, c1, c2, t1, s2, n, fuel);
      } else {
        EvalBelow(rest.right, c1, c2, s1, s2, n, fuel);
        var o2 := Eval(rest.right, c2, s2, fuel);
        if p2.Pending? || o2.r.value.Pending? {
          SpeculateRight(c1, c2);
          SpecChainBelow(rest.tail, c1, c2.Speculate(), t1, o2.st, n, fuel);
        } else {
          ChainCovered(Comparison(rest.op, p2.d, o2.r.value.d).value, o2.r.value, rest.tail, c1, c2, t1, o2.st, n,
              fuel);
        }
      }
    }
  }

  lemma {:induction false} EvalBoolBelow(conj: bool, es: Exprs, c1: Ctx, c2: Ctx, s1: State, s2: State, n: nat,
          fuel: nat)
    requires Pre(c1, c2, s1, s2, n)
    requires Followed(EvalBool(conj, es, c1, s1, fuel).st) && Ran(EvalBool(conj, es, c2, s2, fuel))
    ensures Agree(EvalBool(conj, es, c1, s1, fuel), EvalBool(conj, es, c2, s2, fuel), n)
    decreases fuel, es, 0
  {
    hide Weaker, StateBelow, EvalRaw;
    if es.MoreExprs? {
      EvalBelow(es.head, c1, c2, s1, s2, n, fuel);
      var o1, o2 := Eval(es.head, c1, s1, fuel), Eval(es.head, c2, s2, fuel);
      if o1.r.Ok? {
        if o1.r.value.Pending? {
          SpeculateBelow(c1, c2);
          if o2.r.value.Pending? {
            EvalAllBelow(es.tail, c1.Speculate(), c2.Speculate(), o1.st, o2.st, n, fuel);
          } else {
            BoolCovered(o2.r.value.d.b == conj, conj, es.tail, c1.Speculate(), c2, o1.st, o2.st, n, fuel);
          }
        } else if o1.r.value.d == Bool(conj) {
          EvalBoolBelow(conj, es.tail, c1, c2, o1.st, o2.st, n, fuel);
        }
      }
    }
  }

  /** The earlier pass ran every operand left; the later one goes on until a decisive one. */
  lemma {:induction false} BoolCovered(more: bool, conj: bool, es: Exprs, c1: Ctx, c2: Ctx, s1: State, s2: State,
          n: nat, fuel: nat)
    requires c1.spec > c1.specAtCall && Pre(c1, c2, s1, s2, n) && Followed(EvalAll(es, c1, s1, fuel).st)
    requires more ==> Ran(EvalBool(conj, es, c2, s2, fuel))
    ensures StateBelow(EvalAll(es, c1, s1, fuel).st, if more then EvalBool(conj, es, c2, s2, fuel).st else s2, n)
    decreases fuel, es, 0
  {
    hide StateBelow, EvalRaw;
    if es.MoreExprs? {
      var t1 := Eval(es.head, c1, s1, fuel).st;
      if !more {
        EvalSkipped(es.head, c1, s1, s2, n, fuel);
        BoolCovered(false, conj, es.tail, c1, c2, t1, s2, n, fuel);
      } else {
        EvalBelow(es.head, c1, c2, s1, s2, n, fuel);
        var o2 := Eval(es.head, c2, s2, fuel);
        if o2.r.value.Pending? {
          SpeculateRight(c1, c2);
          EvalAllBelow(es.tail, c1, c2.Speculate(), t1, o2.st, n, fuel);
        } else {
          BoolCovered(o2.r.value.d.b == conj, conj, es.tail, c1, c2, t1, o2.st, n, fuel);
        }
      }
    }
  }

  // ----- Calls -----

  lemma {:induction false} EvalCallBelow(e: Expr, c1: Ctx, c2: Ctx, s1: State, s2: State, n: nat, fuel: nat)
    requires e.Call? && Pre(c1, c2, s1, s2, n)
    requires Followed(EvalCall(e, c1, s1, fuel).st) && Ran(EvalCall(e, c2, s2, fuel))
    ensures Agree(EvalCall(e, c1, s1, fuel), EvalCall(e, c2, s2, fuel), n)
    decreases fuel, e, 0
  {
    hide ExecRaw;
    LookupBelow(c1.env, c2.env, e.f);
    match Lookup(c1.env, e.f)
    case Some(Fn(f)) =>
      var g := Lookup(c2.env, e.f).value.f;
      BindArgsBelow(f.params, e.args, f.env, g.env, c1, c2, s1, s2, n, fuel);
      var o1 := BindArgs(f.params, e.args, f.env, c1, s1, fuel);
      var o2 := BindArgs(f.params, e.args, g.env, c2, s2, fuel);
      if o1.r.Ok? {
        var d1, d2 := c1.In(o1.r.value).(specAtCall := c1.spec), c2.In(o2.r.value).(specAtCall := c2.spec);
        var p1, p2 := BlockValue(f.body, true, d1, o1.st, fuel - 1), BlockValue(f.body, true, d2, o2.st, fuel - 1);
        BlockValueBelow(f.body, true, d1, d2, o1.st, o2.st, n, fuel - 1);
        if p1.r.Ok? { BelowPop(p1.st, p2.st, n, |s1.cells|); }
      }
    case _ =>
  }

  lemma {:induction false} BindArgsBelow(params: seq<Param>, args: Exprs, env1: Env, env2: Env, c1: Ctx, c2: Ctx,
          s1: State, s2: State, n: nat, fuel: nat)
    requires |params| == Length(args) && EnvBelow(env1, env2) && Pre(c1, c2, s1, s2, n)
    requires Followed(BindArgs(params, args, env1, c1, s1, fuel).st) && Ran(BindArgs(params, args, env2, c2, s2, fuel))
    ensures AgreeEnv(BindArgs(params, args, env1, c1, s1, fuel), BindArgs(params, args, env2, c2, s2, fuel), n)
    decreases fuel, args, 0
  {
    hide Weaker, StateBelow, EvalRaw;
    if args.MoreExprs? {
      var e, x := args.head, params[0].name;
      if params[0].byRef {
        if e.Name? { LookupBelow(c1.env, c2.env, e.x); }
        match (if e.Name? then Lookup(c1.env, e.x) else None)
        case Some(Mut(loc)) =>
          BindArgsBelow(params[1..], args.tail, Bound(x, Mut(loc), env1), Bound(x, Mut(loc), env2), c1, c2, s1, s2, n,
              fuel);
        case _ =>
      } else {
        BindingOfBelow(e, c1, c2, s1, s2, n, fuel);
        var o1, o2 := BindingOf(e, c1, s1, fuel), BindingOf(e, c2, s2, fuel);
        if o1.r.Ok? {
          BindArgsBelow(params[1..], args.tail, Bound(x, o1.r.value, env1), Bound(x, o2.r.value, env2), c1, c2, o1.st,
              o2.st, n, fuel);
        }
      }
    }
  }

  lemma {:induction false} BindingOfBelow(e: Expr, c1: Ctx, c2: Ctx, s1: State, s2: State, n: nat, fuel: nat)
    requires Pre(c1, c2, s1, s2, n)
    requires Followed(BindingOf(e, c1, s1, fuel).st) && Ran(BindingOf(e, c2, s2, fuel))
    ensures AgreeSlot(BindingOf(e, c1, s1, fuel), BindingOf(e, c2, s2, fuel), n)
    decreases fuel, e, 3
  {
    hide Sticky, EvalRaw;
    if e.Lambda? {
      CaptureBelow(c1.env, c2.env, s1.cells, s2.cells);
    } else {
      if e.Name? { LookupBelow(c1.env, c2.env, e.x); }
      match (if e.Name? then Lookup(c1.env, e.x) else None)
      case Some(Fn(_)) =>
      case Some(Chan(_)) =>
      case _ => EvalBelow(e, c1, c2, s1, s2, n, fuel);
    }
  }

  // ----- Comprehensions -----

  lemma {:induction false} HasPendingLeft(p: seq<(Value, Value)>, q: seq<(Value, Value)>)
    ensures HasPending(p) ==> HasPending(p + q)
    ensures HasPending(q) ==> HasPending(p + q)
  {
    if i :| 0 <= i < |p| && (p[i].0.Pending? || p[i].1.Pending?) { assert (p + q)[i] == p[i]; }
    if i :| 0 <= i < |q| && (q[i].0.Pending? || q[i].1.Pending?) { assert (p + q)[|p| + i] == q[i]; }
  }

  lemma {:induction false} ComprehendBelow(cp: Comp, k1: seq<Value>, k2: seq<Value>, c1: Ctx, c2: Ctx, s1: State,
          s2: State, n: nat, fuel: nat)
    requires Pre(c1, c2, s1, s2, n) && ValuesBelow(k1, k2)
    requires Followed(Comprehend(cp, k1, c1, s1, fuel).st) && Ran(Comprehend(cp, k2, c2, s2, fuel))
    ensures AgreeEntries(Comprehend(cp, k1, c1, s1, fuel), Comprehend(cp, k2, c2, s2, fuel), n)
    decreases fuel, cp, 2
  {
    hide StateBelow, EvalRaw;
    match cp
    case Element(e) =>
      EvalBelow(e, c1, c2, s1, s2, n, fuel);
      TupleKeyBelow(k1, k2);
      var o1 := Comprehend(cp, k1, c1, s1, fuel);
      if o1.r.Ok? { assert o1.r.value[0].0.Pending? || o1.r.value[0].1.Pending? ==> HasPending(o1.r.value); }
    case Guard(cond, rest) =>
      EvalBelow(cond, c1, c2, s1, s2, n, fuel);
      var o1, o2 := Eval(cond, c1, s1, fuel), Eval(cond, c2, s2, fuel);
      if o1.r.Ok? {
        if o1.r.value.Known? {
          if o1.r.value.d == Bool(true) { ComprehendBelow(rest, k1, k2, c1, c2, o1.st, o2.st, n, fuel); }
        } else {
          GuardCovered(cp, k1, k2, c1, c2, o1.st, o2.st, o2.r.value, n, fuel);
        }
      }
    case Generator(_, iter, _) =>
      EvalBelow(iter, c1, c2, s1, s2, n, fuel);
      var o1, o2 := Eval(iter, c1, s1, fuel), Eval(iter, c2, s2, fuel);
      if o1.r.Ok? { GeneratorBelow(o1.r.value, o2.r.value, cp, k1, k2, c1, c2, o1.st, o2.st, n, fuel); }
  }

  /** A guard the earlier pass left undecided. */
  lemma {:induction false} GuardCovered(cp: Comp, k1: seq<Value>, k2: seq<Value>, c1: Ctx, c2: Ctx, s1: State,
          s2: State, v2: Value, n: nat, fuel: nat)
    requires cp.Guard? && Pre(c1, c2, s1, s2, n) && ValuesBelow(k1, k2)
    requires v2.Pending? || v2.d.Bool?
    requires var o1 := WithPendingEntry(Comprehend(cp.rest, k1, c1.Speculate(), s1, fuel)); Followed(o1.st)
    requires v2.Pending? ==> Ran(Comprehend(cp.rest, k2, c2.Speculate(), s2, fuel))
    requires v2 == Known(Bool(true)) ==> Ran(Comprehend(cp.rest, k2, c2, s2, fuel))
    ensures var o1 := WithPendingEntry(Comprehend(cp.rest, k1, c1.Speculate(), s1, fuel));
            var o2 := if v2.Pending? then WithPendingEntry(Comprehend(cp.rest, k2, c2.Speculate(), s2, fuel))
                      else if v2.d.b then Comprehend(cp.rest, k2, c2, s2, fuel)
                      else Out(Ok([]), s2);
            AgreeEntries(o1, o2, n)
    decreases fuel, cp, 1
  {
    hide EvalRaw;
    SpeculateBelow(c1, c2);
    var d1 := c1.Speculate();
    var o1 := Comprehend(cp.rest, k1, d1, s1, fuel);
    if v2.Pending? {
      ComprehendBelow(cp.rest, k1, k2, d1, c2.Speculate(), s1, s2, n, fuel);
    } else if v2.d.b {
      ComprehendBelow(cp.rest, k1, k2, d1, c2, s1, s2, n, fuel);
    } else {
      ComprehendWeakens(cp.rest, k1, d1, s1, fuel);
      Skipped(s1, o1.st, s2, n);
    }
    if o1.r.Ok? { EndsWithPending(o1.r.value); }
  }

  lemma {:induction false} EndsWithPending(out: seq<(Value, Value)>)
    ensures HasPending(out + [(Pending, Pending)])
  {
    assert (out + [(Pending, Pending)])[|out|].0.Pending?;
  }

  lemma {:induction false} BindVarBelow(e1: Env, e2: Env, x: string, v1: Value, v2: Value)
    requires EnvBelow(e1, e2) && Below(v1, v2)
    ensures EnvBelow(BindVar(e1, x, v1), BindVar(e2, x, v2))
  {
  }

  lemma {:induction false} GeneratorBelow(v1: Value, v2: Value, cp: Comp, k1: seq<Value>, k2: seq<Value>, c1: Ctx,
          c2: Ctx, s1: State, s2: State, n: nat, fuel: nat)
    requires cp.Generator? && Pre(c1, c2, s1, s2, n) && ValuesBelow(k1, k2) && Below(v1, v2)
    requires Followed(CompOver(v1, cp, k1, c1, s1, fuel).st) && Ran(CompOver(v2, cp, k2, c2, s2, fuel))
    ensures AgreeEntries(CompOver(v1, cp, k1, c1, s1, fuel), CompOver(v2, cp, k2, c2, s2, fuel), n)
    decreases fuel, cp, 1
  {
    hide StateBelow, EvalRaw;
    if v1.Known? {
      if v1.d.Coll? { CompLoopBelow(cp.x, v1.d.entries, cp.rest, k1, k2, c1, c2, s1, s2, n, fuel); }
    } else {
      var d1 := PendingBinding(c1, cp.x);
      var once := Comprehend(cp.rest, k1 + [Pending], d1, s1, fuel);
      if once.r.Ok? {
        EndsWithPending(once.r.value);
        if v2.Pending? {
          var d2 := PendingBinding(c2, cp.x);
          BindVarBelow(c1.env, c2.env, cp.x, Pending, Pending);
          ComprehendBelow(cp.rest, k1 + [Pending], k2 + [Pending], d1, d2, s1, s2, n, fuel);
          BelowNotes(once.st, once.st, Comprehend(cp.rest, k2 + [Pending], d2, s2, fuel).st,
              CompOver(v2, cp, k2, c2, s2, fuel).st, n);
        } else {
          ComprehendWeakens(cp.rest, k1 + [Pending], d1, s1, fuel);
          Skipped(s1, once.st, s2, n);
          CompLoopCovered(cp.x, v2.d.entries, cp.rest, k1, k2, c1, c2, once.st, s2, n, fuel);
        }
      }
    }
  }

  lemma {:induction false} CompLoopBelow(x: string, entries: seq<(Data, Data)>, rest: Comp, k1: seq<Value>,
          k2: seq<Value>, c1: Ctx, c2: Ctx, s1: State, s2: State, n: nat, fuel: nat)
    requires Pre(c1, c2, s1, s2, n) && ValuesBelow(k1, k2)
    requires Followed(CompLoop(x, entries, rest, k1, c1, s1, fuel).st)
             && Ran(CompLoop(x, entries, rest, k2, c2, s2, fuel))
    ensures AgreeEntries(CompLoop(x, entries, rest, k1, c1, s1, fuel), CompLoop(x, entries, rest, k2, c2, s2, fuel), n)
    decreases fuel, rest, 3 + |entries|
  {
    hide EvalRaw;
    if |entries| > 0 {
      var k, v := Known(entries[0].0), Known(entries[0].1);
      var d1, d2 := c1.In(BindVar(c1.env, x, v)), c2.In(BindVar(c2.env, x, v));
      BindVarBelow(c1.env, c2.env, x, v, v);
      ComprehendBelow(rest, k1 + [k], k2 + [k], d1, d2, s1, s2, n, fuel);
      var o1, o2 := Comprehend(rest, k1 + [k], d1, s1, fuel), Comprehend(rest, k2 + [k], d2, s2, fuel);
      if o1.r.Ok? {
        CompLoopBelow(x, entries[1..], rest, k1, k2, c1, c2, o1.st, o2.st, n, fuel);
        var p1 := CompLoop(x, entries[1..], rest, k1, c1, o1.st, fuel);
        if p1.r.Ok? { HasPendingLeft(o1.r.value, p1.r.value); }
      }
    }
  }

  /** The later pass walks entries the earlier one ran once for, pending. */
  lemma {:induction false} CompLoopCovered(x: string, entries: seq<(Data, Data)>, rest: Comp, k1: seq<Value>,
          k2: seq<Value>, c1: Ctx, c2: Ctx, a: State, s2: State, n: nat, fuel: nat)
    requires CtxBelow(c1, c2) && StateBelow(a, s2, n) && ValuesBelow(k1, k2)
    requires var again := Comprehend(rest, k1 + [Pending], PendingBinding(c1, x), a, fuel);
             again.r.Ok? && Settled(a, again.st)
    requires Ran(CompLoop(x, entries, rest, k2, c2, s2, fuel))
    ensures StateBelow(a, CompLoop(x, entries, rest, k2, c2, s2, fuel).st, n)
    decreases fuel, rest, 3 + |entries|
  {
    hide EvalRaw;
    if |entries| > 0 {
      var k, v := Known(entries[0].0), Known(entries[0].1);
      var d1, d2 := PendingBinding(c1, x), c2.In(BindVar(c2.env, x, v));
      BindVarBelow(c1.env, c2.env, x, Pending, v);
      var again := Comprehend(rest, k1 + [Pending], d1, a, fuel);
      var o2 := Comprehend(rest, k2 + [k], d2, s2, fuel);
      ComprehendBelow(rest, k1 + [Pending], k2 + [k], d1, d2, a, s2, n, fuel);
      ComprehendWeakens(rest, k1 + [Pending], d1, a, fuel);
      BelowSettled(a, again.st, o2.st, n);
      CompLoopCovered(x, entries[1..], rest, k1, k2, c1, c2, a, o2.st, n, fuel);
    }
  }

  // ----- Blocks -----

  lemma {:induction false} RunBodyBelow(body: Stmts, m: Mode, c1: Ctx, c2: Ctx, s1: State, s2: State, n: nat, fuel: nat)
    requires Pre(c1, c2, s1, s2, n)
    requires Followed(RunBody(body, m, c1, s1, fuel).st) && Ran(RunBody(body, m, c2, s2, fuel))
    ensures AgreeOpt(RunBody(body, m, c1, s1, fuel), RunBody(body, m, c2, s2, fuel), n)
    decreases fuel, body, 1
  {
    hide EvalRaw, ExecRaw, BlockValue;
    match m
    case Run =>
      ExecStmtsBelow(body, c1, c2, s1, s2, n, fuel);
      var d1, d2 := ExecStmts(body, c1, s1, fuel), ExecStmts(body, c2, s2, fuel);
      if d1.r.Ok? { BelowPop(d1.st, d2.st, n, |s1.cells|); }
    case Denote(unit) =>
      BlockValueBelow(body, unit, c1, c2, s1, s2, n, fuel);
      var o1, o2 := BlockValue(body, unit, c1, s1, fuel), BlockValue(body, unit, c2, s2, fuel);
      if o1.r.Ok? { BelowPop(o1.st, o2.st, n, |s1.cells|); }
  }

  lemma {:induction false} BodySkipped(body: Stmts, m: Mode, c1: Ctx, s1: State, s2: State, n: nat, fuel: nat)
    requires c1.spec > 0 && StateBelow(s1, s2, n)
    ensures StateBelow(RunBody(body, m, c1, s1, fuel).st, s2, n)
  {
    hide EvalRaw, ExecRaw;
    RunBodyWeakens(body, m, c1, s1, fuel);
    Skipped(s1, RunBody(body, m, c1, s1, fuel).st, s2, n);
  }

  lemma {:induction false} BlockValueBelow(body: Stmts, unit: bool, c1: Ctx, c2: Ctx, s1: State, s2: State, n: nat,
          fuel: nat)
    requires Pre(c1, c2, s1, s2, n)
    requires Followed(BlockValue(body, unit, c1, s1, fuel).st) && Ran(BlockValue(body, unit, c2, s2, fuel))
    ensures Agree(BlockValue(body, unit, c1, s1, fuel), BlockValue(body, unit, c2, s2, fuel), n)
    decreases fuel, body, 0
  {
    hide Weaker, EvalRaw, ExecRaw, LastValue;
    if body.MoreStmts? {
      if body.tail.NoStmts? {
        LastValueBelow(body.head, unit, c1, c2, s1, s2, n, fuel);
      } else {
        ExecBelow(body.head, c1, c2, s1, s2, n, fuel);
        var d1, d2 := Exec(body.head, c1, s1, fuel), Exec(body.head, c2, s2, fuel);
        if d1.r == Ok(None) {
          BlockValueBelow(body.tail, unit, c1.In(d1.env), c2.In(d2.env), d1.st, d2.st, n, fuel);
        }
      }
    }
  }

  lemma {:induction false} LastValueBelow(s: Stmt, unit: bool, c1: Ctx, c2: Ctx, s1: State, s2: State, n: nat,
          fuel: nat)
    requires Pre(c1, c2, s1, s2, n)
    requires Followed(LastValue(s, unit, c1, s1, fuel).st) && Ran(LastValue(s, unit, c2, s2, fuel))
    ensures Agree(LastValue(s, unit, c1, s1, fuel), LastValue(s, unit, c2, s2, fuel), n)
    decreases fuel, s, 3
  {
    hide Eval, Exec, RunMatch, RunBranches;
    if s.ExprStmt? || s.Return? {
      EvalBelow(s.e, c1, c2, s1, s2, n, fuel);
    } else if s.Match? {
      RunMatchBelow(s, Denote(unit), c1, c2, s1, s2, n, fuel);
    } else if s.If? && HasElse(s.branches) {
      RunBranchesBelow(s.branches, Denote(unit), c1, c2, s1, s2, n, fuel);
    } else if unit {
      ExecBelow(s, c1, c2, s1, s2, n, fuel);
    }
  }

  // ----- Branches -----

  lemma {:induction false} RunBranchesBelow(bs: Branches, m: Mode, c1: Ctx, c2: Ctx, s1: State, s2: State, n: nat,
          fuel: nat)
    requires Pre(c1, c2, s1, s2, n)
    requires Followed(RunBranches(bs, m, c1, s1, fuel).st) && Ran(RunBranches(bs, m, c2, s2, fuel))
    ensures AgreeOpt(RunBranches(bs, m, c1, s1, fuel), RunBranches(bs, m, c2, s2, fuel), n)
    decreases fuel, bs, 2
  {
    hide EvalRaw, ExecRaw, BlockValue;
    match bs
    case NoElse =>
    case Else(body) => RunBodyBelow(body, m, c1, c2, s1, s2, n, fuel);
    case Branch(cond, body, rest) =>
      EvalBelow(cond, c1, c2, s1, s2, n, fuel);
      var o1, o2 := Eval(cond, c1, s1, fuel), Eval(cond, c2, s2, fuel);
      if o1.r.Ok? {
        if o1.r.value.Known? {
          if o1.r.value.d == Bool(true) { RunBodyBelow(body, m, c1, c2, o1.st, o2.st, n, fuel); }
          if o1.r.value.d == Bool(false) { RunBranchesBelow(rest, m, c1, c2, o1.st, o2.st, n, fuel); }
        } else {
          BranchesUndecided(bs, m, c1, c2, o1.st, o2, n, fuel);
        }
      }
  }

  /** The earlier pass runs every condition and body left; the later one takes some branch. */
  lemma {:induction false} BranchesUndecided(bs: Branches, m: Mode, c1: Ctx, c2: Ctx, s1: State, o2: Out<Value>,
          n: nat, fuel: nat)
    requires bs.Branch? && Pre(c1, c2, s1, o2.st, n) && o2.r.Ok?
    requires var A := SpecConds(bs.rest, c1.Speculate(), s1, fuel);
             Followed(SpecBodies(bs, m, c1.Speculate(), A, fuel).st)
    requires o2.r.value.Pending? ==>
               Ran(SpecBodies(bs, m, c2.Speculate(), SpecConds(bs.rest, c2.Speculate(), o2.st, fuel), fuel))
    requires o2.r.value.Known? ==> o2.r.value.d.Bool?
    requires o2.r.value == Known(Bool(true)) ==> Ran(RunBody(bs.body, m, c2, o2.st, fuel))
    requires o2.r.value == Known(Bool(false)) ==> Ran(RunBranches(bs.rest, m, c2, o2.st, fuel))
    ensures var ran := SpecBodies(bs, m, c1.Speculate(), SpecConds(bs.rest, c1.Speculate(), s1, fuel), fuel);
            var p2 := if o2.r.value.Pending? then
                        var q := SpecBodies(bs, m, c2.Speculate(), SpecConds(bs.rest, c2.Speculate(), o2.st, fuel),
                            fuel);
                        Out(Ok(Nothing(m)), q.st)
                      else if o2.r.value.d.b then RunBody(bs.body, m, c2, o2.st, fuel)
                      else RunBranches(bs.rest, m, c2, o2.st, fuel);
            ran.r.Ok? ==> AgreeOpt(Out(Ok(Nothing(m)), ran.st), p2, n)
    decreases fuel, bs, 1
  {
    hide StateBelow, EvalRaw, ExecRaw, BlockValue, RunBranches;
    var d1 := c1.Speculate();
    SpeculateBelow(c1, c2);
    var A := SpecConds(bs.rest, d1, s1, fuel);
    var ran := SpecBodies(bs, m, d1, A, fuel);
    if ran.r.Ok? {
      if o2.r.value.Pending? {
        SpecCondsBelow(bs.rest, d1, c2.Speculate(), s1, o2.st, n, fuel);
        SpecBodiesBelow(bs, m, d1, c2.Speculate(), A, SpecConds(bs.rest, c2.Speculate(), o2.st, fuel), n, fuel);
      } else if o2.r.value.d.b {
        CondsSkipped(bs.rest, d1, s1, o2.st, n, fuel);
        FirstBody(bs, m, d1, c2, A, o2.st, n, fuel);
      } else {
        var B := RunBody(bs.body, m, d1, A, fuel).st;
        RunBodyWeakens(bs.body, m, d1, A, fuel);
        BranchesCovered(bs.rest, m, d1, c2, s1, B, o2.st, n, fuel);
      }
    }
  }

  lemma {:induction false} CondsSkipped(bs: Branches, c1: Ctx, s1: State, s2: State, n: nat, fuel: nat)
    requires c1.spec > 0 && StateBelow(s1, s2, n)
    ensures StateBelow(SpecConds(bs, c1, s1, fuel), s2, n)
  {
    hide EvalRaw;
    SpecCondsWeakens(bs, c1, s1, fuel);
    Skipped(s1, SpecConds(bs, c1, s1, fuel), s2, n);
  }

  lemma {:induction false} BodiesSkipped(bs: Branches, m: Mode, c1: Ctx, s1: State, s2: State, n: nat, fuel: nat)
    requires c1.spec > 0 && StateBelow(s1, s2, n)
    ensures StateBelow(SpecBodies(bs, m, c1, s1, fuel).st, s2, n)
  {
    hide EvalRaw, ExecRaw;
    SpecBodiesWeakens(bs, m, c1, s1, fuel);
    Skipped(s1, SpecBodies(bs, m, c1, s1, fuel).st, s2, n);
  }

  /** A body run for real while speculating runs beside leaves the earlier pass nothing to answer. */
  ghost predicate Answers(m: Mode, r: Res<Option<Value>>) {
    r.Ok? && (if m.Run? then r.value.None? else r.value.Some?)
  }

  /** The later pass takes the first body left. */
  lemma {:induction false} FirstBody(bs: Branches, m: Mode, c1: Ctx, c2: Ctx, s1: State, s2: State, n: nat, fuel: nat)
    requires (bs.Branch? || bs.Else?) && c1.spec > c1.specAtCall && Pre(c1, c2, s1, s2, n)
    requires Followed(SpecBodies(bs, m, c1, s1, fuel).st) && SpecBodies(bs, m, c1, s1, fuel).r.Ok?
    requires Ran(RunBody(bs.body, m, c2, s2, fuel))
    ensures StateBelow(SpecBodies(bs, m, c1, s1, fuel).st, RunBody(bs.body, m, c2, s2, fuel).st, n)
    ensures Answers(m, RunBody(bs.body, m, c2, s2, fuel).r)
    decreases fuel, bs, 0
  {
    hide StateBelow, EvalRaw, ExecRaw;
    RunBodyBelow(bs.body, m, c1, c2, s1, s2, n, fuel);
    if bs.Branch? {
      BodiesSkipped(bs.rest, m, c1, RunBody(bs.body, m, c1, s1, fuel).st, RunBody(bs.body, m, c2, s2, fuel).st, n,
          fuel);
    }
  }

  lemma {:induction false} SpecCondsBelow(bs: Branches, c1: Ctx, c2: Ctx, s1: State, s2: State, n: nat, fuel: nat)
    requires c1.spec > 0 && c2.spec > 0 && Pre(c1, c2, s1, s2, n)
    requires Followed(SpecConds(bs, c1, s1, fuel)) && !SpecConds(bs, c2, s2, fuel).lost
    ensures StateBelow(SpecConds(bs, c1, s1, fuel), SpecConds(bs, c2, s2, fuel), n)
    decreases fuel, bs, 0
  {
    hide Weaker, StateBelow, EvalRaw;
    if bs.Branch? {
      EvalBelow(bs.cond, c1, c2, s1, s2, n, fuel);
      SpecCondsBelow(bs.rest, c1, c2, Eval(bs.cond, c1, s1, fuel).st, Eval(bs.cond, c2, s2, fuel).st, n, fuel);
    }
  }

  lemma {:induction false} SpecBodiesBelow(bs: Branches, m: Mode, c1: Ctx, c2: Ctx, s1: State, s2: State, n: nat,
          fuel: nat)
    requires c1.spec > 0 && c2.spec > 0 && Pre(c1, c2, s1, s2, n)
    requires Followed(SpecBodies(bs, m, c1, s1, fuel).st) && Ran(SpecBodies(bs, m, c2, s2, fuel))
    ensures AgreeUnit(SpecBodies(bs, m, c1, s1, fuel), SpecBodies(bs, m, c2, s2, fuel), n)
    decreases fuel, bs, 0
  {
    hide StateBelow, EvalRaw, ExecRaw;
    if !bs.NoElse? {
      RunBodyBelow(bs.body, m, c1, c2, s1, s2, n, fuel);
      if bs.Branch? {
        var o1, o2 := RunBody(bs.body, m, c1, s1, fuel), RunBody(bs.body, m, c2, s2, fuel);
        if o1.r.Ok? { SpecBodiesBelow(bs.rest, m, c1, c2, o1.st, o2.st, n, fuel); }
      }
    }
  }

  /** The earlier pass evaluates the conditions left from `s1`, then runs the bodies left from `B`;
      the later one goes down the chain from `s2`. */
  lemma {:induction false} BranchesCovered(bs: Branches, m: Mode, c1: Ctx, c2: Ctx, s1: State, B: State, s2: State,
          n: nat, fuel: nat)
    requires c1.spec > c1.specAtCall && Pre(c1, c2, s1, s2, n)
    requires var A := SpecConds(bs, c1, s1, fuel); Followed(A) && Weaker(B, A) && |B.cells| == |A.cells|
    requires SpecBodies(bs, m, c1, B, fuel).r.Ok? && Followed(SpecBodies(bs, m, c1, B, fuel).st)
    requires Ran(RunBranches(bs, m, c2, s2, fuel))
    ensures StateBelow(SpecBodies(bs, m, c1, B, fuel).st, RunBranches(bs, m, c2, s2, fuel).st, n)
    ensures Answers(m, RunBranches(bs, m, c2, s2, fuel).r)
    decreases fuel, bs, 1
  {
    hide Weaker, Eval, RunBody;
    match bs
    case NoElse => Skipped(s1, B, s2, n);
    case Else(_) =>
      Skipped(s1, B, s2, n);
      FirstBody(bs, m, c1, c2, B, s2, n, fuel);
    case Branch(cond, body, rest) =>
      EvalBelow(cond, c1, c2, s1, s2, n, fuel);
      var t1, o2 := Eval(cond, c1, s1, fuel).st, Eval(cond, c2, s2, fuel);
      var A := SpecConds(rest, c1, t1, fuel);
      if o2.r.value.Pending? {
        SpeculateRight(c1, c2);
        var A2 := SpecConds(rest, c2.Speculate(), o2.st, fuel);
        SpecCondsBelow(rest, c1, c2.Speculate(), t1, o2.st, n, fuel);
        Skipped(A, B, A2, n);
        SpecBodiesBelow(bs, m, c1, c2.Speculate(), B, A2, n, fuel);
      } else if o2.r.value.d == Bool(true) {
        CondsSkipped(rest, c1, t1, o2.st, n, fuel);
        Skipped(A, B, o2.st, n);
        FirstBody(bs, m, c1, c2, B, o2.st, n, fuel);
      } else {
        var B' := RunBody(body, m, c1, B, fuel).st;
        RunBodyWeakens(body, m, c1, B, fuel);
        WeakerTrans(B', B, A);
        BranchesCovered(rest, m, c1, c2, t1, B', o2.st, n, fuel);
      }
  }

  // ----- Arms -----

  lemma {:induction false} PendingBindersBelow(bs: seq<Option<string>>, v: Data, i: nat)
    requires i <= |bs| && BindPositions(bs, i, v).Ok?
    ensures var p, q := PendingBinders(bs[i..]), BindPositions(bs, i, v).value;
            |p| == |q| && forall j | 0 <= j < |p| :: p[j].0 == q[j].0 && p[j].1.Pending?
    decreases |bs| - i
  {
    if i < |bs| {
      PendingBindersBelow(bs, v, i + 1);
      assert bs[i..][1..] == bs[i + 1..];
    }
  }

  lemma {:induction false} PendingNamesBelow(p: Pattern, v: Data)
    requires MatchPattern(p, v).Ok? && MatchPattern(p, v).value.Some?
    ensures var a, b := PendingNames(p), MatchPattern(p, v).value.value;
            |a| == |b| && forall j | 0 <= j < |a| :: a[j].0 == b[j].0 && a[j].1.Pending?
  {
    match (p, v)
    case (CtorPattern(_, _, bs), Nominal(_, _, arg)) =>
      if |bs| > 1 {
        PendingBindersBelow(bs, arg, 0);
        assert bs[0..] == bs;
      } else if |bs| == 1 {
        assert PendingBinders(bs[1..]) == [];
      }
    case _ =>
  }

  lemma {:induction false} RunMatchBelow(s: Stmt, m: Mode, c1: Ctx, c2: Ctx, s1: State, s2: State, n: nat, fuel: nat)
    requires s.Match? && Pre(c1, c2, s1, s2, n)
    requires Followed(RunMatch(s, m, c1, s1, fuel).st) && Ran(RunMatch(s, m, c2, s2, fuel))
    ensures AgreeOpt(RunMatch(s, m, c1, s1, fuel), RunMatch(s, m, c2, s2, fuel), n)
    decreases fuel, s, 0
  {
    hide EvalRaw, ExecRaw;
    EvalBelow(s.scrutinee, c1, c2, s1, s2, n, fuel);
    var o1, o2 := Eval(s.scrutinee, c1, s1, fuel), Eval(s.scrutinee, c2, s2, fuel);
    if o1.r.Ok? {
      if o1.r.value.Known? {
        if o1.r.value.d.Variant? || o1.r.value.d.Nominal? {
          RunArmsBelow(s.arms, o1.r.value.d, m, c1, c2, o1.st, o2.st, n, fuel);
        }
      } else {
        SpeculateBelow(c1, c2);
        if o2.r.value.Pending? {
          SpecArmsBelow(s.arms, m, c1.Speculate(), c2.Speculate(), o1.st, o2.st, n, fuel);
        } else if SpecArms(s.arms, m, c1.Speculate(), o1.st, fuel).r.Ok? {
          ArmsCovered(s.arms, o2.r.value.d, m, c1.Speculate(), c2, o1.st, o2.st, n, fuel);
        }
      }
    }
  }

  lemma {:induction false} RunArmsBelow(arms: Arms, v: Data, m: Mode, c1: Ctx, c2: Ctx, s1: State, s2: State, n: nat,
          fuel: nat)
    requires Pre(c1, c2, s1, s2, n)
    requires Followed(RunArms(arms, v, m, c1, s1, fuel).st) && Ran(RunArms(arms, v, m, c2, s2, fuel))
    ensures AgreeOpt(RunArms(arms, v, m, c1, s1, fuel), RunArms(arms, v, m, c2, s2, fuel), n)
    decreases fuel, arms, 0
  {
    hide StateBelow, EvalRaw, ExecRaw;
    if arms.Arm? {
      var b := MatchPattern(arms.pattern, v);
      if b.value.None? {
        RunArmsBelow(arms.rest, v, m, c1, c2, s1, s2, n, fuel);
      } else {
        BindAllBelow(c1.env, c2.env, b.value.value, b.value.value);
        RunBodyBelow(arms.body, m, c1.In(BindAll(c1.env, b.value.value)), c2.In(BindAll(c2.env, b.value.value)), s1,
            s2, n, fuel);
      }
    }
  }

  lemma {:induction false} SpecArmsBelow(arms: Arms, m: Mode, c1: Ctx, c2: Ctx, s1: State, s2: State, n: nat, fuel: nat)
    requires c1.spec > 0 && c2.spec > 0 && Pre(c1, c2, s1, s2, n)
    requires Followed(SpecArms(arms, m, c1, s1, fuel).st) && Ran(SpecArms(arms, m, c2, s2, fuel))
    ensures AgreeUnit(SpecArms(arms, m, c1, s1, fuel), SpecArms(arms, m, c2, s2, fuel), n)
    decreases fuel, arms, 0
  {
    hide StateBelow, EvalRaw, ExecRaw;
    if arms.Arm? {
      var names := PendingNames(arms.pattern);
      var d1, d2 := c1.In(BindAll(c1.env, names)), c2.In(BindAll(c2.env, names));
      BindAllBelow(c1.env, c2.env, names, names);
      RunBodyBelow(arms.body, m, d1, d2, s1, s2, n, fuel);
      var o1, o2 := RunBody(arms.body, m, d1, s1, fuel), RunBody(arms.body, m, d2, s2, fuel);
      if o1.r.Ok? { SpecArmsBelow(arms.rest, m, c1, c2, o1.st, o2.st, n, fuel); }
    }
  }

  lemma {:induction false} ArmsSkipped(arms: Arms, m: Mode, c1: Ctx, s1: State, s2: State, n: nat, fuel: nat)
    requires c1.spec > 0 && StateBelow(s1, s2, n)
    ensures StateBelow(SpecArms(arms, m, c1, s1, fuel).st, s2, n)
  {
    hide EvalRaw, ExecRaw;
    SpecArmsWeakens(arms, m, c1, s1, fuel);
    Skipped(s1, SpecArms(arms, m, c1, s1, fuel).st, s2, n);
  }

  /** The earlier pass runs every arm; the later one the first that matches. */
  lemma {:induction false} ArmsCovered(arms: Arms, v: Data, m: Mode, c1: Ctx, c2: Ctx, s1: State, s2: State, n: nat,
          fuel: nat)
    requires c1.spec > c1.specAtCall && Pre(c1, c2, s1, s2, n)
    requires SpecArms(arms, m, c1, s1, fuel).r.Ok? && Followed(SpecArms(arms, m, c1, s1, fuel).st)
    requires Ran(RunArms(arms, v, m, c2, s2, fuel))
    ensures StateBelow(SpecArms(arms, m, c1, s1, fuel).st, RunArms(arms, v, m, c2, s2, fuel).st, n)
    ensures Answers(m, RunArms(arms, v, m, c2, s2, fuel).r)
    decreases fuel, arms, 0
  {
    hide StateBelow, EvalRaw, ExecRaw, BlockValue;
    if arms.Arm? {
      var names := PendingNames(arms.pattern);
      var d1 := c1.In(BindAll(c1.env, names));
      var t1 := RunBody(arms.body, m, d1, s1, fuel).st;
      var b := MatchPattern(arms.pattern, v).value;
      if b.None? {
        BodySkipped(arms.body, m, d1, s1, s2, n, fuel);
        ArmsCovered(arms.rest, v, m, c1, c2, t1, s2, n, fuel);
      } else {
        PendingNamesBelow(arms.pattern, v);
        BindAllBelow(c1.env, c2.env, names, b.value);
        var d2 := c2.In(BindAll(c2.env, b.value));
        RunBodyBelow(arms.body, m, d1, d2, s1, s2, n, fuel);
        ArmsSkipped(arms.rest, m, c1, t1, RunBody(arms.body, m, d2, s2, fuel).st, n, fuel);
      }
    }
  }

  // ----- Statements -----

  lemma {:induction false} ExecStmtsBelow(ss: Stmts, c1: Ctx, c2: Ctx, s1: State, s2: State, n: nat, fuel: nat)
    requires Pre(c1, c2, s1, s2, n)
    requires Followed(ExecStmts(ss, c1, s1, fuel).st)
    requires ExecStmts(ss, c2, s2, fuel).r.Ok? && !ExecStmts(ss, c2, s2, fuel).st.lost
    ensures AgreeDone(ExecStmts(ss, c1, s1, fuel), ExecStmts(ss, c2, s2, fuel), n)
    decreases fuel, ss, 0
  {
    hide StateBelow, EvalRaw, ExecRaw;
    if ss.MoreStmts? {
      ExecBelow(ss.head, c1, c2, s1, s2, n, fuel);
      var d1, d2 := Exec(ss.head, c1, s1, fuel), Exec(ss.head, c2, s2, fuel);
      if d1.r == Ok(None) {
        ExecStmtsBelow(ss.tail, c1.In(d1.env), c2.In(d2.env), d1.st, d2.st, n, fuel);
      }
    }
  }

  lemma {:induction false} ExecBelow(s: Stmt, c1: Ctx, c2: Ctx, s1: State, s2: State, n: nat, fuel: nat)
    requires Pre(c1, c2, s1, s2, n)
    requires Followed(Exec(s, c1, s1, fuel).st)
    requires Exec(s, c2, s2, fuel).r.Ok? && !Exec(s, c2, s2, fuel).st.lost
    ensures AgreeDone(Exec(s, c1, s1, fuel), Exec(s, c2, s2, fuel), n)
    decreases fuel, s, 2
  {
    hide EvalRaw, ExecRaw;
    ExecRawBelow(s, c1, c2, s1, s2, n, fuel);
  }

  lemma {:induction false} ExecRawBelow(s: Stmt, c1: Ctx, c2: Ctx, s1: State, s2: State, n: nat, fuel: nat)
    requires Pre(c1, c2, s1, s2, n)
    requires Followed(ExecRaw(s, c1, s1, fuel).st)
    requires ExecRaw(s, c2, s2, fuel).r.Ok? && !ExecRaw(s, c2, s2, fuel).st.lost
    ensures AgreeDone(ExecRaw(s, c1, s1, fuel), ExecRaw(s, c2, s2, fuel), n)
    decreases fuel, s, 1
  {
    hide StateBelow, Eval, EvalRaw, RunBranches, RunMatch, ExecFor, ExecWith, BindingOf, DefineAs, AssignMut,
        AssignKey, Write;
    match s
    case Assign(_, e) => BindingOfBelow(e, c1, c2, s1, s2, n, fuel);
    case MutAssign(_, _, _) => MutAssignBelow(s, c1, c2, s1, s2, n, fuel);
    case KeyedAssign(_, _, _) => KeyedAssignBelow(s, c1, c2, s1, s2, n, fuel);
    case AugAssign(_, _, _) => AugAssignBelow(s, c1, c2, s1, s2, n, fuel);
    case Define(_, _) => DefineStmtBelow(s, c1, c2, s1, s2, n, fuel);
    case Feed(_, _, _) => FeedStmtBelow(s, c1, c2, s1, s2, n, fuel);
    case If(bs) => RunBranchesBelow(bs, Run, c1, c2, s1, s2, n, fuel);
    case Match(_, _) => RunMatchBelow(s, Run, c1, c2, s1, s2, n, fuel);
    case For(_, _, _) => ExecForBelow(s, c1, c2, s1, s2, n, fuel);
    case With(body, site) => ExecWithBelow(body, site, c1, c2, s1, s2, n, fuel);
    case FunctionDef(_, _, _) => FunctionDefBelow(s, c1, c2, s1, s2, n, fuel);
    case Return(e) => EvalBelow(e, c1, c2, s1, s2, n, fuel);
    case ReturnUnit =>
    case ExprStmt(e) => EvalBelow(e, c1, c2, s1, s2, n, fuel);
    case Pass =>
  }

  lemma {:induction false} MutAssignBelow(s: Stmt, c1: Ctx, c2: Ctx, s1: State, s2: State, n: nat, fuel: nat)
    requires s.MutAssign? && Pre(c1, c2, s1, s2, n)
    requires Followed(ExecRaw(s, c1, s1, fuel).st)
    requires ExecRaw(s, c2, s2, fuel).r.Ok? && !ExecRaw(s, c2, s2, fuel).st.lost
    ensures AgreeDone(ExecRaw(s, c1, s1, fuel), ExecRaw(s, c2, s2, fuel), n)
    decreases fuel, s, 0
  {
    hide StateBelow, EvalRaw;
    EvalBelow(s.e, c1, c2, s1, s2, n, fuel);
    var o1, o2 := Eval(s.e, c1, s1, fuel), Eval(s.e, c2, s2, fuel);
    if o1.r.Ok? { AssignMutBelow(s.x, s.txn, o1.r.value, o2.r.value, c1, c2, o1.st, o2.st, n); }
  }

  lemma {:induction false} DefineStmtBelow(s: Stmt, c1: Ctx, c2: Ctx, s1: State, s2: State, n: nat, fuel: nat)
    requires s.Define? && Pre(c1, c2, s1, s2, n)
    requires Followed(ExecRaw(s, c1, s1, fuel).st)
    requires ExecRaw(s, c2, s2, fuel).r.Ok? && !ExecRaw(s, c2, s2, fuel).st.lost
    ensures AgreeDone(ExecRaw(s, c1, s1, fuel), ExecRaw(s, c2, s2, fuel), n)
    decreases fuel, s, 0
  {
    hide StateBelow, EvalRaw;
    EvalBelow(s.e, c1, c2, s1, s2, n, fuel);
    var o1, o2 := Eval(s.e, c1, s1, fuel), Eval(s.e, c2, s2, fuel);
    if o1.r.Ok? { DefineBelow(s.x, o1.r.value, o2.r.value, c1, c2, o1.st, o2.st, n); }
  }

  lemma {:induction false} FunctionDefBelow(s: Stmt, c1: Ctx, c2: Ctx, s1: State, s2: State, n: nat, fuel: nat)
    requires s.FunctionDef? && Pre(c1, c2, s1, s2, n)
    ensures AgreeDone(ExecRaw(s, c1, s1, fuel), ExecRaw(s, c2, s2, fuel), n)
  {
    CaptureBelow(c1.env, c2.env, s1.cells, s2.cells);
  }

  lemma {:induction false} KeyedAssignBelow(s: Stmt, c1: Ctx, c2: Ctx, s1: State, s2: State, n: nat, fuel: nat)
    requires s.KeyedAssign? && Pre(c1, c2, s1, s2, n)
    requires Followed(ExecRaw(s, c1, s1, fuel).st)
    requires ExecRaw(s, c2, s2, fuel).r.Ok? && !ExecRaw(s, c2, s2, fuel).st.lost
    ensures AgreeDone(ExecRaw(s, c1, s1, fuel), ExecRaw(s, c2, s2, fuel), n)
    decreases fuel, s, 0
  {
    hide StateBelow, EvalRaw;
    EvalBelow(s.e, c1, c2, s1, s2, n, fuel);
    var o1, o2 := Eval(s.e, c1, s1, fuel), Eval(s.e, c2, s2, fuel);
    if o1.r.Ok? {
      EvalBelow(s.index, c1, c2, o1.st, o2.st, n, fuel);
      var i1, i2 := Eval(s.index, c1, o1.st, fuel), Eval(s.index, c2, o2.st, fuel);
      if i1.r.Ok? {
        AssignKeyBelow(s.x, i1.r.value, i2.r.value, o1.r.value, o2.r.value, c1, c2, i1.st, i2.st, n);
      }
    }
  }

  lemma {:induction false} FeedStmtBelow(s: Stmt, c1: Ctx, c2: Ctx, s1: State, s2: State, n: nat, fuel: nat)
    requires s.Feed? && Pre(c1, c2, s1, s2, n)
    requires Followed(ExecRaw(s, c1, s1, fuel).st)
    requires ExecRaw(s, c2, s2, fuel).r.Ok? && !ExecRaw(s, c2, s2, fuel).st.lost
    ensures AgreeDone(ExecRaw(s, c1, s1, fuel), ExecRaw(s, c2, s2, fuel), n)
    decreases fuel, s, 0
  {
    hide StateBelow, EvalRaw;
    LookupBelow(c1.env, c2.env, s.x);
    match Lookup(c1.env, s.x)
    case Some(Chan(key)) =>
      EvalBelow(s.e, c1, c2, s1, s2, n, fuel);
      var o1, o2 := Eval(s.e, c1, s1, fuel), Eval(s.e, c2, s2, fuel);
      if o1.r.Ok? { FeedBelow(key, c1.calls + [s.at], o1.r.value, o2.r.value, c1, c2, o1.st, o2.st, n); }
    case _ =>
  }

  lemma {:induction false} AugAssignBelow(s: Stmt, c1: Ctx, c2: Ctx, s1: State, s2: State, n: nat, fuel: nat)
    requires s.AugAssign? && Pre(c1, c2, s1, s2, n)
    requires Followed(ExecRaw(s, c1, s1, fuel).st)
    requires ExecRaw(s, c2, s2, fuel).r.Ok? && !ExecRaw(s, c2, s2, fuel).st.lost
    ensures AgreeDone(ExecRaw(s, c1, s1, fuel), ExecRaw(s, c2, s2, fuel), n)
    decreases fuel, s, 0
  {
    hide Eval, EvalRaw, RunBranches, RunMatch, ExecFor, ExecWith, BindingOf, Write;
    LookupBelow(c1.env, c2.env, s.x);
    match Lookup(c1.env, s.x)
    case Some(Mut(loc)) =>
      assert CellBelow(s1.cells[loc], s2.cells[loc]);
      var v1, v2 := ReadMut(s1, s.x, loc), ReadMut(s2, s.x, loc);
      assert v1.Ok? && v2.Ok? && Below(v1.value, v2.value);
      EvalBelow(s.e, c1, c2, s1, s2, n, fuel);
      var o1, o2 := Eval(s.e, c1, s1, fuel), Eval(s.e, c2, s2, fuel);
      if o1.r.Ok? {
        ApplyBelow(Binary(s.op), [v1.value, o1.r.value], [v2.value, o2.r.value]);
        var w1, w2 := Apply(Binary(s.op), [v1.value, o1.r.value]), Apply(Binary(s.op), [v2.value, o2.r.value]);
        WriteBelow(c1, c2, o1.st, o2.st, n, loc, w1.value, w2.value);
      }
    case _ =>
  }

  lemma {:induction false} CellMadeBelow(s1: State, s2: State, n: nat, x1: Cell, x2: Cell)
    requires StateBelow(s1, s2, n) && CellBelow(x1, x2)
    ensures StateBelow(s1.(cells := s1.cells + [x1]), s2.(cells := s2.cells + [x2]), n)
  {
    Assembled(s1, s1.(cells := s1.cells + [x1]), s2, s2.(cells := s2.cells + [x2]), n);
  }

  lemma {:induction false} AssignMutBelow(x: string, txn: bool, v1: Value, v2: Value, c1: Ctx, c2: Ctx, s1: State,
          s2: State, n: nat)
    requires Pre(c1, c2, s1, s2, n) && Below(v1, v2)
    requires AssignMut(x, txn, v2, c2, s2).r.Ok? && !AssignMut(x, txn, v2, c2, s2).st.lost
    ensures AgreeDone(AssignMut(x, txn, v1, c1, s1), AssignMut(x, txn, v2, c2, s2), n)
  {
    LookupBelow(c1.env, c2.env, x);
    match Lookup(c1.env, x)
    case Some(Mut(loc)) => WriteBelow(c1, c2, s1, s2, n, loc, v1, v2);
    case _ => CellMadeBelow(s1, s2, n, Cell(x, v1, txn, None), Cell(x, v2, txn, None));
  }

  lemma {:induction false} AssignKeyBelow(x: string, k1: Value, k2: Value, v1: Value, v2: Value, c1: Ctx, c2: Ctx,
          s1: State, s2: State, n: nat)
    requires Pre(c1, c2, s1, s2, n) && Below(k1, k2) && Below(v1, v2) && Ran(AssignKey(x, k2, v2, c2, s2))
    ensures AgreeUnit(AssignKey(x, k1, v1, c1, s1), AssignKey(x, k2, v2, c2, s2), n)
  {
    LookupBelow(c1.env, c2.env, x);
    match Lookup(c1.env, x)
    case Some(Mut(loc)) =>
      assert CellBelow(s1.cells[loc], s2.cells[loc]);
      var w1, w2 := s1.cells[loc].value, s2.cells[loc].value;
      var p1, p2 := AnyPending([k1, v1, w1]), AnyPending([k2, v2, w2]);
      var y2 := if p2 then Pending else KeyWritten(w2, k2, v2).value;
      if p1 {
        WriteBelow(c1, c2, s1, s2, n, loc, Pending, y2);
      } else {
        assert [k1, v1, w1][0].Known? && [k1, v1, w1][1].Known? && [k1, v1, w1][2].Known?;
        assert k1 == k2 && v1 == v2 && w1 == w2;
        WriteBelow(c1, c2, s1, s2, n, loc, y2, y2);
      }
    case _ =>
  }

  // ----- Loops -----

  lemma {:induction false} ExecForBelow(s: Stmt, c1: Ctx, c2: Ctx, s1: State, s2: State, n: nat, fuel: nat)
    requires s.For? && Pre(c1, c2, s1, s2, n)
    requires Followed(ExecFor(s, c1, s1, fuel).st) && Ran(ExecFor(s, c2, s2, fuel))
    ensures AgreeOpt(ExecFor(s, c1, s1, fuel), ExecFor(s, c2, s2, fuel), n)
    decreases fuel, s, 0, 2
  {
    hide StateBelow, EvalRaw, ExecRaw;
    EvalBelow(s.iter, c1, c2, s1, s2, n, fuel);
    var o1, o2 := Eval(s.iter, c1, s1, fuel), Eval(s.iter, c2, s2, fuel);
    if o1.r.Ok? {
      LoopOverBelow(o1.r.value, o2.r.value, s, c1, c2, o1.st, o2.st, n, fuel);
    }
  }

  lemma {:induction false} LoopOverBelow(v1: Value, v2: Value, s: Stmt, c1: Ctx, c2: Ctx, s1: State, s2: State, n: nat,
          fuel: nat)
    requires s.For? && Pre(c1, c2, s1, s2, n) && Below(v1, v2)
    requires Followed(LoopOver(v1, s, c1, s1, fuel).st) && Ran(LoopOver(v2, s, c2, s2, fuel))
    ensures AgreeOpt(LoopOver(v1, s, c1, s1, fuel), LoopOver(v2, s, c2, s2, fuel), n)
    decreases fuel, s, 0, 1
  {
    hide StateBelow, EvalRaw, ExecRaw, BlockValue;
    if v1.Known? {
      if v1.d.Coll? {
        if Positional(v1.d.entries) {
          ForLoopBelow(s.x, SortEntries(v1.d.entries), s.body, c1, c2, s1, s2, n, fuel);
        } else {
          WatchedLoopBelow(s, v1.d.entries, c1, c2, s1, s2, n, fuel);
        }
      }
    } else {
      var d1 := PendingElement(c1, s.x);
      var once := RunBody(s.body, Run, d1, s1, fuel);
      if v2.Pending? {
        PendingElementBelow(c1, c2, s.x);
        RunBodyBelow(s.body, Run, d1, PendingElement(c2, s.x), s1, s2, n, fuel);
        var twice2 := RunBody(s.body, Run, PendingElement(c2, s.x), s2, fuel).st;
        BelowNotes(once.st, once.st, twice2, LoopOver(v2, s, c2, s2, fuel).st, n);
      } else {
        BodySkipped(s.body, Run, d1, s1, s2, n, fuel);
        PendingLoopCovered(s, v2.d.entries, c1, c2, once.st, s2, n, fuel);
      }
    }
  }

  lemma {:induction false} PendingElementBelow(c1: Ctx, c2: Ctx, x: string)
    requires CtxBelow(c1, c2)
    ensures CtxBelow(PendingElement(c1, x), PendingElement(c2, x))
  {
    BindVarBelow(c1.env, c2.env, x, Pending, Pending);
  }

  lemma {:induction false} PendingElementCovers(c1: Ctx, c2: Ctx, x: string, k: Data, v: Data)
    requires CtxBelow(c1, c2)
    ensures CtxBelow(PendingElement(c1, x), c2.AtKey(Known(k)).In(BindVar(c2.env, x, Known(v))))
  {
    BindVarBelow(c1.env, c2.env, x, Pending, Known(v));
  }

  lemma {:induction false} ForLoopBelow(x: string, entries: seq<(Data, Data)>, body: Stmts, c1: Ctx, c2: Ctx,
          s1: State, s2: State, n: nat, fuel: nat)
    requires Pre(c1, c2, s1, s2, n)
    requires Followed(ForLoop(x, entries, body, c1, s1, fuel).st) && Ran(ForLoop(x, entries, body, c2, s2, fuel))
    ensures AgreeOpt(ForLoop(x, entries, body, c1, s1, fuel), ForLoop(x, entries, body, c2, s2, fuel), n)
    decreases fuel, body, 2 + |entries|
  {
    hide StateBelow, EvalRaw, ExecRaw, BlockValue;
    if |entries| > 0 {
      var k, v := Known(entries[0].0), Known(entries[0].1);
      var d1, d2 := c1.AtKey(k).In(BindVar(c1.env, x, v)), c2.AtKey(k).In(BindVar(c2.env, x, v));
      BindVarBelow(c1.env, c2.env, x, v, v);
      RunBodyBelow(body, Run, d1, d2, s1, s2, n, fuel);
      var o1, o2 := RunBody(body, Run, d1, s1, fuel), RunBody(body, Run, d2, s2, fuel);
      if o1.r == Ok(None) { ForLoopBelow(x, entries[1..], body, c1, c2, o1.st, o2.st, n, fuel); }
    }
  }

  lemma {:induction false} WatchBelow(s1: State, s2: State, n: nat)
    requires StateBelow(s1, s2, n)
    ensures StateBelow(Watched(s1), Watched(s2), n)
    ensures n == |s1.watches| == |s2.watches| ==> StateBelow(Watched(s1), Watched(s2), n + 1)
  {
    Assembled(s1, Watched(s1), s2, Watched(s2), n);
    if n == |s1.watches| == |s2.watches| {
      assert WatchesBelow(Watched(s1).watches, Watched(s2).watches, n + 1);
    }
  }

  lemma {:induction false} UnwatchBelow(s1: State, s2: State, n: nat, n': nat, l1: nat, l2: nat)
    requires StateBelow(s1, s2, n') && n <= n' && n <= l1 <= |s1.watches| && n <= l2 <= |s2.watches|
    requires n < n' ==> n == l1
    ensures StateBelow(s1.(watches := s1.watches[..l1]), s2.(watches := s2.watches[..l2]), n)
  {
    var a, b := s1.(watches := s1.watches[..l1]), s2.(watches := s2.watches[..l2]);
    ChannelsKept(s1, a, s2, b);
    SitesKept(s1, a, s2, b);
  }

  lemma {:induction false} WatchedLoopBelow(s: Stmt, entries: seq<(Data, Data)>, c1: Ctx, c2: Ctx, s1: State,
          s2: State, n: nat, fuel: nat)
    requires s.For? && !Positional(entries) && Pre(c1, c2, s1, s2, n)
    requires Followed(LoopOver(Known(Coll(entries)), s, c1, s1, fuel).st)
             && Ran(LoopOver(Known(Coll(entries)), s, c2, s2, fuel))
    ensures AgreeOpt(LoopOver(Known(Coll(entries)), s, c1, s1, fuel), LoopOver(Known(Coll(entries)), s, c2, s2, fuel),
            n)
    decreases fuel, s, 0, 0
  {
    hide Weaker, EvalRaw, ExecRaw, BlockValue;
    WatchBelow(s1, s2, n);
    var n' := if c1.spec == 0 then n + 1 else n;
    ForLoopBelow(s.x, entries, s.body, c1, c2, Watched(s1), Watched(s2), n', fuel);
    var l1, l2 := ForLoop(s.x, entries, s.body, c1, Watched(s1), fuel),
        ForLoop(s.x, entries, s.body, c2, Watched(s2), fuel);
    if l1.r.Ok? {
      UnwatchBelow(l1.st, l2.st, n, n', |s1.watches|, |s2.watches|);
    }
  }

  /** The later pass walks entries the earlier one ran its body once for, pending. */
  lemma {:induction false} PendingLoopCovered(s: Stmt, entries: seq<(Data, Data)>, c1: Ctx, c2: Ctx, a: State,
          s2: State, n: nat, fuel: nat)
    requires s.For? && CtxBelow(c1, c2) && StateBelow(a, s2, n)
    requires Settled(a, RunBody(s.body, Run, PendingElement(c1, s.x), a, fuel).st)
    requires Ran(LoopOver(Known(Coll(entries)), s, c2, s2, fuel))
    ensures AgreeOpt(Out(Ok(None), a), LoopOver(Known(Coll(entries)), s, c2, s2, fuel), n)
    decreases fuel, s, 0, 0
  {
    hide EvalRaw, ExecRaw, BlockValue;
    if Positional(entries) {
      LoopCovered(s, SortEntries(entries), c1, c2, a, s2, n, fuel);
    } else {
      var w2 := Watched(s2);
      ChannelsKept(a, a, s2, w2);
      SitesKept(a, a, s2, w2);
      LoopCovered(s, entries, c1, c2, a, w2, n, fuel);
      var l2 := ForLoop(s.x, entries, s.body, c2, w2, fuel);
      UnwatchBelow(a, l2.st, n, n, |a.watches|, |s2.watches|);
      assert a.watches[..|a.watches|] == a.watches;
    }
  }

  lemma {:induction false} LoopCovered(s: Stmt, entries: seq<(Data, Data)>, c1: Ctx, c2: Ctx, a: State, s2: State,
          n: nat, fuel: nat)
    requires s.For? && CtxBelow(c1, c2) && StateBelow(a, s2, n)
    requires Settled(a, RunBody(s.body, Run, PendingElement(c1, s.x), a, fuel).st)
    requires Ran(ForLoop(s.x, entries, s.body, c2, s2, fuel))
    ensures ForLoop(s.x, entries, s.body, c2, s2, fuel).r == Ok(None)
    ensures StateBelow(a, ForLoop(s.x, entries, s.body, c2, s2, fuel).st, n)
    decreases fuel, s.body, 2 + |entries|
  {
    hide EvalRaw, ExecRaw, BlockValue;
    if |entries| > 0 {
      var d1 := PendingElement(c1, s.x);
      var d2 := c2.AtKey(Known(entries[0].0)).In(BindVar(c2.env, s.x, Known(entries[0].1)));
      PendingElementCovers(c1, c2, s.x, entries[0].0, entries[0].1);
      var again, o2 := RunBody(s.body, Run, d1, a, fuel), RunBody(s.body, Run, d2, s2, fuel);
      RunBodyBelow(s.body, Run, d1, d2, a, s2, n, fuel);
      RunBodyWeakens(s.body, Run, d1, a, fuel);
      BelowSettled(a, again.st, o2.st, n);
      LoopCovered(s, entries[1..], c1, c2, a, o2.st, n, fuel);
    }
  }

  // ----- Blocks of writes -----

  lemma {:induction false} ExecWithBelow(body: Stmts, site: nat, c1: Ctx, c2: Ctx, s1: State, s2: State, n: nat,
          fuel: nat)
    requires Pre(c1, c2, s1, s2, n)
    requires Followed(ExecWith(body, site, c1, s1, fuel).st) && Ran(ExecWith(body, site, c2, s2, fuel))
    ensures AgreeOpt(ExecWith(body, site, c1, s1, fuel), ExecWith(body, site, c2, s2, fuel), n)
    decreases fuel, body, 3
  {
    hide EvalRaw, ExecRaw, BlockValue;
    var frame := TxnFrame(site, false, WrittenIn(body), [], false);
    var t1, t2 := s1.(txn := Some(frame)), s2.(txn := Some(frame));
    assert s1.txn.None? && s2.txn.None?;
    Assembled(s1, t1, s2, t2, n);
    RunBodyBelow(body, Run, c1, c2, t1, t2, n, fuel);
    var o1, o2 := RunBody(body, Run, c1, t1, fuel), RunBody(body, Run, c2, t2, fuel);
    if o1.r.Ok? {
      if c1.spec > 0 { RunBodyWeakens(body, Run, c1, t1, fuel); }
      CommitBelow(o1.st, o2.st, n);
    }
  }
}
