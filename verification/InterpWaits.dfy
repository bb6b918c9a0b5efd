/** What a pass waits on: channels of the program that it was not given the contents of. */
module InterpWaits {
  import opened Options
  import opened InterpSyntax
  import opened InterpValues
  import opened InterpEval

  /** Every channel a scope reaches, also through the functions in it, is one of `ks`. */
  ghost predicate SlotWithin(s: Slot, ks: set<string>) {
    match s
    case Chan(key) => key in ks
    case Fn(f) => Within(f.env, ks)
    case _ => true
  }

  ghost predicate Within(env: Env, ks: set<string>) {
    env.Bound? ==> SlotWithin(env.slot, ks) && Within(env.rest, ks)
  }

  ghost predicate Waits(a: State, b: State, c: Ctx, ks: set<string>) {
    b.waited <= a.waited + (ks - c.finals.Keys)
  }

  lemma {:induction false} LookupWithin(env: Env, x: string, ks: set<string>)
    requires Within(env, ks)
    ensures Lookup(env, x).Some? ==> SlotWithin(Lookup(env, x).value, ks)
  {
    if env.Bound? && env.name != x { LookupWithin(env.rest, x, ks); }
  }

  lemma {:induction false} CaptureWithin(env: Env, cells: seq<Cell>, ks: set<string>)
    requires Within(env, ks)
    ensures Within(Capture(env, cells), ks)
  {
    if env.Bound? { CaptureWithin(env.rest, cells, ks); }
  }

  lemma {:induction false} BindAllWithin(env: Env, binds: seq<(string, Value)>, ks: set<string>)
    requires Within(env, ks)
    ensures Within(BindAll(env, binds), ks)
    decreases |binds|
  {
    if |binds| > 0 { BindAllWithin(Bound(binds[0].0, Val(binds[0].1), env), binds[1..], ks); }
  }

  lemma {:induction false} ReadNameWaits(x: string, c: Ctx, st: State, ks: set<string>)
    requires Within(c.env, ks)
    ensures Waits(st, ReadName(x, c, st).st, c, ks)
  {
    LookupWithin(c.env, x, ks);
  }

  lemma {:induction false} WritesWaitNot(c: Ctx, st: State)
    ensures forall loc, v :: Write(c, st, loc, v).st.waited == st.waited
  {}

  /** A write, a feed, a definition and a commit wait on nothing. */
  lemma {:induction false} StepsWaitNot(c: Ctx, st: State)
    ensures forall loc, v :: Write(c, st, loc, v).st.waited == st.waited
    ensures forall x, key, v :: AssignKey(x, key, v, c, st).st.waited == st.waited
    ensures forall x, txn, v :: AssignMut(x, txn, v, c, st).st.waited == st.waited
    ensures forall x, v :: DefineAs(x, v, c, st).st.waited == st.waited
    ensures forall key, site, v :: FeedInto(key, site, v, c, st).waited == st.waited
    ensures forall frame :: Commit(frame, st).waited == st.waited
  {
    hide Write, KeyWritten, Sticky, Lookup, AddSite, TupleKey;
    WritesWaitNot(c, st);
  }

  lemma {:induction false} BindingWithin(e: Expr, c: Ctx, st: State, ks: set<string>, fuel: nat)
    requires Within(c.env, ks)
    ensures var o := BindingOf(e, c, st, fuel); o.r.Ok? ==> SlotWithin(o.r.value, ks)
  {
    hide EvalRaw;
    if e.Lambda? { CaptureWithin(c.env, st.cells, ks); }
    if e.Name? { LookupWithin(c.env, e.x, ks); }
  }

  lemma {:induction false} ExecWithin(s: Stmt, c: Ctx, st: State, ks: set<string>, fuel: nat)
    requires Within(c.env, ks)
    ensures Within(Exec(s, c, st, fuel).env, ks)
  {
    hide Eval, EvalRaw, RunBranches, RunMatch, ExecFor, ExecWith, BindingOf, Write, AssignKey, FeedInto, Lookup;
    match s
    case Assign(_, e) => BindingWithin(e, c, st, ks, fuel);
    case FunctionDef(_, _, _) => CaptureWithin(c.env, st.cells, ks);
    case _ =>
  }

  // ----- Expressions -----

  lemma {:induction false} EvalWaits(e: Expr, c: Ctx, st: State, ks: set<string>, fuel: nat)
    requires Within(c.env, ks)
    ensures Waits(st, Eval(e, c, st, fuel).st, c, ks)
    decreases fuel, e, 2
  {
    hide EvalRaw, Within;
    EvalRawWaits(e, c, st, ks, fuel);
  }

  lemma {:induction false} EvalRawWaits(e: Expr, c: Ctx, st: State, ks: set<string>, fuel: nat)
    requires Within(c.env, ks)
    ensures Waits(st, EvalRaw(e, c, st, fuel).st, c, ks)
    decreases fuel, e, 1
  {
    hide Eval, EvalAll, EvalChain, EvalBool, EvalCall, Comprehend, RunBranches, RunMatch, ReadName, Apply, Lookup,
        Within;
    match e
    case Name(x) => ReadNameWaits(x, c, st, ks);
    case Strict(_, args) => EvalAllWaits(args, c, st, ks, fuel);
    case Compare(first, rest) =>
      EvalWaits(first, c, st, ks, fuel);
      var o := Eval(first, c, st, fuel);
      if o.r.Ok? { EvalChainWaits(o.r.value, rest, c, o.st, ks, fuel); }
    case BoolOp(conj, operands) => EvalBoolWaits(conj, operands, c, st, ks, fuel);
    case IfExp(_, _, _) => EvalIfWaits(e, c, st, ks, fuel);
    case Block(s) =>
      if s.If? { RunBranchesWaits(s.branches, Denote(false), c, st, ks, fuel); }
      if s.Match? { RunMatchWaits(s, Denote(false), c, st, ks, fuel); }
    case Call(_, _, at) => EvalCallWaits(e, c.(calls := c.calls + [at]), st, ks, fuel);
    case ListComp(comp) => ComprehendWaits(comp, [], c, st, ks, fuel);
    case _ =>
  }

  lemma {:induction false} EvalIfWaits(e: Expr, c: Ctx, st: State, ks: set<string>, fuel: nat)
    requires e.IfExp? && Within(c.env, ks)
    ensures Waits(st, EvalRaw(e, c, st, fuel).st, c, ks)
    decreases fuel, e, 0
  {
    hide Eval, EvalAll, EvalChain, EvalBool, EvalCall, Comprehend, RunBranches, RunMatch, ReadName, Apply, Lookup,
        Within;
    EvalWaits(e.cond, c, st, ks, fuel);
    var o := Eval(e.cond, c, st, fuel);
    if o.r.Ok? {
      EvalWaits(e.thn, c.Speculate(), o.st, ks, fuel);
      EvalWaits(e.els, c.Speculate(), Eval(e.thn, c.Speculate(), o.st, fuel).st, ks, fuel);
      EvalWaits(e.thn, c, o.st, ks, fuel);
      EvalWaits(e.els, c, o.st, ks, fuel);
    }
  }

  lemma {:induction false} EvalAllWaits(es: Exprs, c: Ctx, st: State, ks: set<string>, fuel: nat)
    requires Within(c.env, ks)
    ensures Waits(st, EvalAll(es, c, st, fuel).st, c, ks)
    decreases fuel, es, 0
  {
    hide Eval, Within;
    if es.MoreExprs? {
      EvalWaits(es.head, c, st, ks, fuel);
      EvalAllWaits(es.tail, c, Eval(es.head, c, st, fuel).st, ks, fuel);
    }
  }

  lemma {:induction false} EvalChainWaits(prev: Value, rest: Comparisons, c: Ctx, st: State, ks: set<string>, fuel: nat)
    requires Within(c.env, ks)
    ensures Waits(st, EvalChain(prev, rest, c, st, fuel).st, c, ks)
    decreases fuel, rest, 0
  {
    hide Eval, Within, SpecChain, Comparison;
    if rest.MoreCmp? {
      EvalWaits(rest.right, c, st, ks, fuel);
      var o := Eval(rest.right, c, st, fuel);
      SpecChainWaits(rest.tail, c.Speculate(), o.st, ks, fuel);
      if o.r.Ok? { EvalChainWaits(o.r.value, rest.tail, c, o.st, ks, fuel); }
    }
  }

  lemma {:induction false} SpecChainWaits(rest: Comparisons, c: Ctx, st: State, ks: set<string>, fuel: nat)
    requires Within(c.env, ks)
    ensures Waits(st, SpecChain(rest, c, st, fuel), c, ks)
    decreases fuel, rest, 0
  {
    hide Eval, Within;
    if rest.MoreCmp? {
      EvalWaits(rest.right, c, st, ks, fuel);
      SpecChainWaits(rest.tail, c, Eval(rest.right, c, st, fuel).st, ks, fuel);
    }
  }

  lemma {:induction false} EvalBoolWaits(conj: bool, es: Exprs, c: Ctx, st: State, ks: set<string>, fuel: nat)
    requires Within(c.env, ks)
    ensures Waits(st, EvalBool(conj, es, c, st, fuel).st, c, ks)
    decreases fuel, es, 0
  {
    hide Eval, EvalAll, Within;
    if es.MoreExprs? {
      EvalWaits(es.head, c, st, ks, fuel);
      var o := Eval(es.head, c, st, fuel);
      EvalAllWaits(es.tail, c.Speculate(), o.st, ks, fuel);
      EvalBoolWaits(conj, es.tail, c, o.st, ks, fuel);
    }
  }

  // ----- Calls and comprehensions -----

  lemma {:induction false} BindingWaits(e: Expr, c: Ctx, st: State, ks: set<string>, fuel: nat)
    requires Within(c.env, ks)
    ensures Waits(st, BindingOf(e, c, st, fuel).st, c, ks)
    decreases fuel, e, 3
  {
    hide EvalRaw, Within;
    EvalWaits(e, c, st, ks, fuel);
  }

  lemma {:induction false} BindArgsWaits(params: seq<Param>, args: Exprs, env: Env, c: Ctx, st: State, ks: set<string>,
          fuel: nat)
    requires |params| == Length(args) && Within(c.env, ks) && Within(env, ks)
    ensures var o := BindArgs(params, args, env, c, st, fuel);
            Waits(st, o.st, c, ks) && (o.r.Ok? ==> Within(o.r.value, ks))
    decreases fuel, args, 0
  {
    hide BindingOf, EvalRaw, Lookup;
    if args.MoreExprs? {
      var e := args.head;
      if params[0].byRef {
        match (if e.Name? then Lookup(c.env, e.x) else None)
        case Some(Mut(loc)) => BindArgsWaits(params[1..], args.tail, Bound(params[0].name, Mut(loc), env), c, st, ks,
            fuel);
        case _ =>
      } else {
        BindingWaits(e, c, st, ks, fuel);
        BindingWithin(e, c, st, ks, fuel);
        var o := BindingOf(e, c, st, fuel);
        if o.r.Ok? { BindArgsWaits(params[1..], args.tail, Bound(params[0].name, o.r.value, env), c, o.st, ks, fuel); }
      }
    }
  }

  lemma {:induction false} EvalCallWaits(e: Expr, c: Ctx, st: State, ks: set<string>, fuel: nat)
    requires e.Call? && Within(c.env, ks)
    ensures Waits(st, EvalCall(e, c, st, fuel).st, c, ks)
    decreases fuel, e, 0
  {
    hide EvalRaw, ExecRaw, BlockValue, BindArgs, Lookup;
    LookupWithin(c.env, e.f, ks);
    match Lookup(c.env, e.f)
    case Some(Fn(f)) =>
      if |f.params| == Length(e.args) {
        BindArgsWaits(f.params, e.args, f.env, c, st, ks, fuel);
        var o := BindArgs(f.params, e.args, f.env, c, st, fuel);
        if o.r.Ok? && fuel > 0 {
          BlockValueWaits(f.body, true, c.In(o.r.value).(specAtCall := c.spec), o.st, ks, fuel - 1);
        }
      }
    case _ =>
  }

  lemma {:induction false} ComprehendWaits(cp: Comp, keys: seq<Value>, c: Ctx, st: State, ks: set<string>, fuel: nat)
    requires Within(c.env, ks)
    ensures Waits(st, Comprehend(cp, keys, c, st, fuel).st, c, ks)
    decreases fuel, cp, 1
  {
    hide Eval, Within, CompOver, TupleKey;
    match cp
    case Element(e) => EvalWaits(e, c, st, ks, fuel);
    case Guard(cond, rest) =>
      EvalWaits(cond, c, st, ks, fuel);
      var o := Eval(cond, c, st, fuel);
      ComprehendWaits(rest, keys, c.Speculate(), o.st, ks, fuel);
      ComprehendWaits(rest, keys, c, o.st, ks, fuel);
    case Generator(_, iter, _) =>
      EvalWaits(iter, c, st, ks, fuel);
      var o := Eval(iter, c, st, fuel);
      if o.r.Ok? { CompOverWaits(o.r.value, cp, keys, c, o.st, ks, fuel); }
  }

  lemma {:induction false} CompOverWaits(source: Value, cp: Comp, keys: seq<Value>, c: Ctx, st: State, ks: set<string>,
          fuel: nat)
    requires cp.Generator? && Within(c.env, ks)
    ensures Waits(st, CompOver(source, cp, keys, c, st, fuel).st, c, ks)
    decreases fuel, cp, 0
  {
    hide EvalRaw, Comprehend, Settled, CompLoop;
    if source.Pending? {
      ComprehendWaits(cp.rest, keys + [Pending], PendingBinding(c, cp.x), st, ks, fuel);
    } else if source.d.Coll? {
      CompLoopWaits(cp.x, source.d.entries, cp.rest, keys, c, st, ks, fuel);
    }
  }

  lemma {:induction false} CompLoopWaits(x: string, entries: seq<(Data, Data)>, rest: Comp, keys: seq<Value>, c: Ctx,
          st: State, ks: set<string>, fuel: nat)
    requires Within(c.env, ks)
    ensures Waits(st, CompLoop(x, entries, rest, keys, c, st, fuel).st, c, ks)
    decreases fuel, rest, 2 + |entries|
  {
    hide EvalRaw, Comprehend;
    if |entries| > 0 {
      var c', keys' := c.In(BindVar(c.env, x, Known(entries[0].1))), keys + [Known(entries[0].0)];
      ComprehendWaits(rest, keys', c', st, ks, fuel);
      CompLoopWaits(x, entries[1..], rest, keys, c, Comprehend(rest, keys', c', st, fuel).st, ks, fuel);
    }
  }

  // ----- Blocks, branches and arms -----

  lemma {:induction false} RunBodyWaits(body: Stmts, m: Mode, c: Ctx, st: State, ks: set<string>, fuel: nat)
    requires Within(c.env, ks)
    ensures Waits(st, RunBody(body, m, c, st, fuel).st, c, ks)
    decreases fuel, body, 1
  {
    hide EvalRaw, ExecRaw, BlockValue, ExecStmts, Within;
    match m
    case Run => ExecStmtsWaits(body, c, st, ks, fuel);
    case Denote(unit) => BlockValueWaits(body, unit, c, st, ks, fuel);
  }

  lemma {:induction false} BlockValueWaits(body: Stmts, unit: bool, c: Ctx, st: State, ks: set<string>, fuel: nat)
    requires Within(c.env, ks)
    ensures Waits(st, BlockValue(body, unit, c, st, fuel).st, c, ks)
    decreases fuel, body, 0
  {
    hide EvalRaw, Exec, LastValue, Within;
    if body.MoreStmts? {
      if body.tail.NoStmts? {
        LastValueWaits(body.head, unit, c, st, ks, fuel);
      } else {
        ExecWaits(body.head, c, st, ks, fuel);
        ExecWithin(body.head, c, st, ks, fuel);
        var d := Exec(body.head, c, st, fuel);
        BlockValueWaits(body.tail, unit, c.In(d.env), d.st, ks, fuel);
      }
    }
  }

  lemma {:induction false} LastValueWaits(s: Stmt, unit: bool, c: Ctx, st: State, ks: set<string>, fuel: nat)
    requires Within(c.env, ks)
    ensures Waits(st, LastValue(s, unit, c, st, fuel).st, c, ks)
    decreases fuel, s, 3
  {
    hide Eval, Exec, BlockValue, RunMatch, RunBranches, Within;
    if s.ExprStmt? || s.Return? {
      EvalWaits(s.e, c, st, ks, fuel);
    } else if s.Match? {
      RunMatchWaits(s, Denote(unit), c, st, ks, fuel);
    } else {
      if s.If? { RunBranchesWaits(s.branches, Denote(unit), c, st, ks, fuel); }
      ExecWaits(s, c, st, ks, fuel);
    }
  }

  lemma {:induction false} RunBranchesWaits(bs: Branches, m: Mode, c: Ctx, st: State, ks: set<string>, fuel: nat)
    requires Within(c.env, ks)
    ensures Waits(st, RunBranches(bs, m, c, st, fuel).st, c, ks)
    decreases fuel, bs, 1
  {
    hide Eval, RunBody, SpecConds, SpecBodies, Within;
    match bs
    case NoElse =>
    case Else(body) => RunBodyWaits(body, m, c, st, ks, fuel);
    case Branch(cond, body, rest) =>
      EvalWaits(cond, c, st, ks, fuel);
      var s1 := Eval(cond, c, st, fuel).st;
      SpecCondsWaits(rest, c.Speculate(), s1, ks, fuel);
      SpecBodiesWaits(bs, m, c.Speculate(), SpecConds(rest, c.Speculate(), s1, fuel), ks, fuel);
      RunBodyWaits(body, m, c, s1, ks, fuel);
      RunBranchesWaits(rest, m, c, s1, ks, fuel);
  }

  lemma {:induction false} SpecCondsWaits(bs: Branches, c: Ctx, st: State, ks: set<string>, fuel: nat)
    requires Within(c.env, ks)
    ensures Waits(st, SpecConds(bs, c, st, fuel), c, ks)
    decreases fuel, bs, 0
  {
    hide Eval, Within;
    if bs.Branch? {
      EvalWaits(bs.cond, c, st, ks, fuel);
      SpecCondsWaits(bs.rest, c, Eval(bs.cond, c, st, fuel).st, ks, fuel);
    }
  }

  lemma {:induction false} SpecBodiesWaits(bs: Branches, m: Mode, c: Ctx, st: State, ks: set<string>, fuel: nat)
    requires Within(c.env, ks)
    ensures Waits(st, SpecBodies(bs, m, c, st, fuel).st, c, ks)
    decreases fuel, bs, 0
  {
    hide EvalRaw, RunBody, Within;
    if !bs.NoElse? {
      RunBodyWaits(bs.body, m, c, st, ks, fuel);
      if bs.Branch? { SpecBodiesWaits(bs.rest, m, c, RunBody(bs.body, m, c, st, fuel).st, ks, fuel); }
    }
  }

  lemma {:induction false} RunMatchWaits(s: Stmt, m: Mode, c: Ctx, st: State, ks: set<string>, fuel: nat)
    requires s.Match? && Within(c.env, ks)
    ensures Waits(st, RunMatch(s, m, c, st, fuel).st, c, ks)
    decreases fuel, s, 0
  {
    hide Eval, RunArms, SpecArms, Within;
    EvalWaits(s.scrutinee, c, st, ks, fuel);
    var o := Eval(s.scrutinee, c, st, fuel);
    SpecArmsWaits(s.arms, m, c.Speculate(), o.st, ks, fuel);
    if o.r.Ok? && o.r.value.Known? { RunArmsWaits(s.arms, o.r.value.d, m, c, o.st, ks, fuel); }
  }

  lemma {:induction false} RunArmsWaits(arms: Arms, v: Data, m: Mode, c: Ctx, st: State, ks: set<string>, fuel: nat)
    requires Within(c.env, ks)
    ensures Waits(st, RunArms(arms, v, m, c, st, fuel).st, c, ks)
    decreases fuel, arms, 0
  {
    hide EvalRaw, RunBody, Within, MatchPattern, BindAll;
    if arms.Arm? {
      var p := MatchPattern(arms.pattern, v);
      RunArmsWaits(arms.rest, v, m, c, st, ks, fuel);
      if p.Ok? && p.value.Some? {
        BindAllWithin(c.env, p.value.value, ks);
        RunBodyWaits(arms.body, m, c.In(BindAll(c.env, p.value.value)), st, ks, fuel);
      }
    }
  }

  lemma {:induction false} SpecArmsWaits(arms: Arms, m: Mode, c: Ctx, st: State, ks: set<string>, fuel: nat)
    requires Within(c.env, ks)
    ensures Waits(st, SpecArms(arms, m, c, st, fuel).st, c, ks)
    decreases fuel, arms, 0
  {
    hide EvalRaw, RunBody, Within, PendingNames, BindAll;
    if arms.Arm? {
      var c' := c.In(BindAll(c.env, PendingNames(arms.pattern)));
      BindAllWithin(c.env, PendingNames(arms.pattern), ks);
      RunBodyWaits(arms.body, m, c', st, ks, fuel);
      SpecArmsWaits(arms.rest, m, c, RunBody(arms.body, m, c', st, fuel).st, ks, fuel);
    }
  }

  // ----- Statements -----

  lemma {:induction false} ExecStmtsWaits(ss: Stmts, c: Ctx, st: State, ks: set<string>, fuel: nat)
    requires Within(c.env, ks)
    ensures Waits(st, ExecStmts(ss, c, st, fuel).st, c, ks)
    decreases fuel, ss, 0
  {
    hide EvalRaw, Exec, Within;
    if ss.MoreStmts? {
      ExecWaits(ss.head, c, st, ks, fuel);
      ExecWithin(ss.head, c, st, ks, fuel);
      var d := Exec(ss.head, c, st, fuel);
      ExecStmtsWaits(ss.tail, c.In(d.env), d.st, ks, fuel);
    }
  }

  lemma {:induction false} ExecWaits(s: Stmt, c: Ctx, st: State, ks: set<string>, fuel: nat)
    requires Within(c.env, ks)
    ensures Waits(st, Exec(s, c, st, fuel).st, c, ks)
    decreases fuel, s, 2
  {
    hide EvalRaw, ExecRaw, Within;
    ExecRawWaits(s, c, st, ks, fuel);
  }

  lemma {:induction false} ExecRawWaits(s: Stmt, c: Ctx, st: State, ks: set<string>, fuel: nat)
    requires Within(c.env, ks)
    ensures Waits(st, ExecRaw(s, c, st, fuel).st, c, ks)
    decreases fuel, s, 1
  {
    hide Eval, RunBranches, RunMatch, ExecFor, ExecWith, BindingOf, Lookup, Within, ReadMut, Apply, Write, AssignKey,
        AssignMut, DefineAs, FeedInto;
    match s
    case Assign(_, e) => BindingWaits(e, c, st, ks, fuel);
    case KeyedAssign(_, index, e) =>
      EvalWaits(e, c, st, ks, fuel);
      var s1 := Eval(e, c, st, fuel).st;
      EvalWaits(index, c, s1, ks, fuel);
      StepsWaitNot(c, Eval(index, c, s1, fuel).st);
    case If(bs) => RunBranchesWaits(bs, Run, c, st, ks, fuel);
    case Match(_, _) => RunMatchWaits(s, Run, c, st, ks, fuel);
    case For(_, _, _) => ExecForWaits(s, c, st, ks, fuel);
    case With(body, site) => ExecWithWaits(body, site, c, st, ks, fuel);
    case FunctionDef(_, _, _) =>
    case ReturnUnit =>
    case Pass =>
    case _ =>
      EvalWaits(s.e, c, st, ks, fuel);
      StepsWaitNot(c, Eval(s.e, c, st, fuel).st);
  }

  lemma {:induction false} ExecForWaits(s: Stmt, c: Ctx, st: State, ks: set<string>, fuel: nat)
    requires s.For? && Within(c.env, ks)
    ensures Waits(st, ExecFor(s, c, st, fuel).st, c, ks)
    decreases fuel, s, 0, 1
  {
    hide Eval, LoopOver, Within;
    EvalWaits(s.iter, c, st, ks, fuel);
    var o := Eval(s.iter, c, st, fuel);
    if o.r.Ok? { LoopOverWaits(o.r.value, s, c, o.st, ks, fuel); }
  }

  lemma {:induction false} LoopOverWaits(source: Value, s: Stmt, c: Ctx, st: State, ks: set<string>, fuel: nat)
    requires s.For? && Within(c.env, ks)
    ensures Waits(st, LoopOver(source, s, c, st, fuel).st, c, ks)
    decreases fuel, s, 0, 0
  {
    hide EvalRaw, RunBody, Settled, ForLoop;
    if source.Pending? {
      RunBodyWaits(s.body, Run, PendingElement(c, s.x), st, ks, fuel);
    } else if source.d.Coll? {
      if Positional(source.d.entries) {
        ForLoopWaits(s.x, SortEntries(source.d.entries), s.body, c, st, ks, fuel);
      } else {
        ForLoopWaits(s.x, source.d.entries, s.body, c, Watched(st), ks, fuel);
      }
    }
  }

  lemma {:induction false} ForLoopWaits(x: string, entries: seq<(Data, Data)>, body: Stmts, c: Ctx, st: State,
          ks: set<string>, fuel: nat)
    requires Within(c.env, ks)
    ensures Waits(st, ForLoop(x, entries, body, c, st, fuel).st, c, ks)
    decreases fuel, body, 2 + |entries|
  {
    hide EvalRaw, RunBody;
    if |entries| > 0 {
      var c' := c.AtKey(Known(entries[0].0)).In(BindVar(c.env, x, Known(entries[0].1)));
      RunBodyWaits(body, Run, c', st, ks, fuel);
      ForLoopWaits(x, entries[1..], body, c, RunBody(body, Run, c', st, fuel).st, ks, fuel);
    }
  }

  lemma {:induction false} ExecWithWaits(body: Stmts, site: nat, c: Ctx, st: State, ks: set<string>, fuel: nat)
    requires Within(c.env, ks)
    ensures Waits(st, ExecWith(body, site, c, st, fuel).st, c, ks)
    decreases fuel, body, 3
  {
    hide EvalRaw, RunBody, Within, Commit;
    if st.txn.None? {
      var st0 := st.(txn := Some(TxnFrame(site, false, WrittenIn(body), [], false)));
      RunBodyWaits(body, Run, c, st0, ks, fuel);
      StepsWaitNot(c, RunBody(body, Run, c, st0, fuel).st.(txn := None));
    }
  }
}
