/** In a program whose parts are calm no pass cuts a loop over a pending collection short, unless it
    lost something or a failure left a speculative construct. */
module InterpSettle {
  import opened Options
  import opened InterpSyntax
  import opened InterpValues
  import opened InterpEval
  import opened InterpBelow
  import opened InterpCalm
  import opened InterpTwins
  import opened InterpTwinSteps
  import opened InterpParallel

  ghost predicate CalmParts(ps: set<Part>) {
    forall p | p in ps :: CalmPart(p, ps)
  }

  /** A scope and state of a run of calm parts. */
  ghost predicate Sited(env: Env, st: State, ps: set<Part>) {
    CalmParts(ps) && Placed(env, st.cells, Some(0), ps) && TxnsDeclared(st.cells, ps)
  }

  /** Where a run cut a loop short, it lost something, or a failure left a speculative construct. */
  ghost predicate Settles<T>(r: Res<T>, st: State) {
    st.carried ==> st.lost || r == Err(Escaped)
  }

  lemma {:induction false} SitedStays(env: Env, st: State, st': State, ps: set<Part>)
    requires Sited(env, st, ps) && Kept(st, st')
    ensures Sited(env, st', ps)
  {
    PlacedStays(env, st.cells, st'.cells, Some(0), ps);
  }

  lemma {:induction false} SitedVar(env: Env, x: string, v: Value, st: State, ps: set<Part>)
    requires Sited(env, st, ps)
    ensures Sited(BindVar(env, x, v), st, ps)
  {}

  lemma {:induction false} SitedAll(env: Env, binds: seq<(string, Value)>, st: State, ps: set<Part>)
    requires Sited(env, st, ps)
    ensures Sited(BindAll(env, binds), st, ps)
  {
    BindAllPlaced(env, binds, st.cells, Some(0), ps);
  }

  lemma {:induction false} SitedFunction(params: seq<Param>, body: Stmts, env: Env, st: State, ps: set<Part>)
    requires Sited(env, st, ps) && FunctionBody(params, body) in ps && PartsIn(body) <= ps
    ensures Bindable(Fn(Function(params, body, Capture(env, st.cells))), st.cells, ps)
  {
    CapturePlaced(env, st.cells, Some(0), ps);
  }

  /** What a binding may hold. */
  ghost predicate Bindable(s: Slot, cells: seq<Cell>, ps: set<Part>) {
    match s
    case Fn(f) => FunctionBody(f.params, f.body) in ps && PartsIn(f.body) <= ps && Placed(f.env, cells, None, ps)
    case Mut(_) => false
    case _ => true
  }

  lemma {:induction false} SitedBound(env: Env, x: string, s: Slot, st: State, ps: set<Part>)
    requires Sited(env, st, ps) && Bindable(s, st.cells, ps)
    ensures Sited(Bound(x, s, env), st, ps)
  {}

  lemma {:induction false} BindingPlaced(e: Expr, c: Ctx, st: State, ps: set<Part>, fuel: nat)
    requires Sited(c.env, st, ps) && PartsInExpr(e) <= ps
    ensures var o := BindingOf(e, c, st, fuel);
            o.r.Ok? ==> Bindable(o.r.value, o.st.cells, ps) && Sited(c.env, o.st, ps)
  {
    hide EvalRaw, Sited, CalmParts;
    SitedStays(c.env, st, BindingOf(e, c, st, fuel).st, ps);
    if e.Lambda? {
      SitedFunction(ByValue(e.params), MoreStmts(ExprStmt(e.body), NoStmts), c.env, st, ps);
    } else if e.Name? {
      SitedLookup(c.env, e.x, st, ps);
    }
  }

  lemma {:induction false} SitedLookup(env: Env, x: string, st: State, ps: set<Part>)
    requires Sited(env, st, ps)
    ensures var s := Lookup(env, x); s.Some? && (s.value.Fn? || s.value.Chan?) ==> Bindable(s.value, st.cells, ps)
  {
    LookupPlaced(env, x, st.cells, Some(0), ps);
  }

  /** What a statement leaves in scope. */
  lemma {:induction false} ExecSited(s: Stmt, c: Ctx, st: State, ps: set<Part>, fuel: nat)
    requires Sited(c.env, st, ps) && PartsOf(s) <= ps
    ensures var d := Exec(s, c, st, fuel); d.r == Ok(None) ==> Sited(d.env, d.st, ps)
  {
    hide ExecRaw, EvalRaw, Sited, PartsOf;
    var d := ExecRaw(s, c, st, fuel);
    ExecRawSited(s, c, st, ps, fuel);
    if d.r.Ok? || c.spec > 0 { SitedNotes(Exec(s, c, st, fuel).env, d.st, Exec(s, c, st, fuel).st, ps); }
  }

  lemma {:induction false} SitedNotes(env: Env, st: State, st': State, ps: set<Part>)
    requires Sited(env, st, ps) && st'.cells == st.cells
    ensures Sited(env, st', ps)
  {}

  lemma {:induction false} ExecRawSited(s: Stmt, c: Ctx, st: State, ps: set<Part>, fuel: nat)
    requires Sited(c.env, st, ps) && PartsOf(s) <= ps
    ensures var d := ExecRaw(s, c, st, fuel); Sited(d.env, d.st, ps)
  {
    hide Eval, RunBranches, RunMatch, ExecFor, ExecWith, BindingOf, AssignMut, AssignKey, Write, DefineAs, FeedInto,
        Lookup, Sited, Bindable, PartsInExpr;
    var d := ExecRaw(s, c, st, fuel);
    match s
    case Assign(x, e) =>
      BindingPlaced(e, c, st, ps, fuel);
      var o := BindingOf(e, c, st, fuel);
      SitedStays(c.env, st, o.st, ps);
      if o.r.Ok? { SitedBound(c.env, x, o.r.value, o.st, ps); }
    case MutAssign(x, txn, e) =>
      var o := Eval(e, c, st, fuel);
      SitedStays(c.env, st, o.st, ps);
      if o.r.Ok? { AssignMutSited(x, txn, o.r.value, c, o.st, ps); }
    case Define(x, e) =>
      var o := Eval(e, c, st, fuel);
      SitedStays(c.env, st, o.st, ps);
      if o.r.Ok? { DefineSited(x, o.r.value, c, o.st, ps); }
    case FunctionDef(x, params, body) =>
      SitedFunction(params, body, c.env, st, ps);
      SitedBound(c.env, x, Fn(Function(params, body, Capture(c.env, st.cells))), st, ps);
    case _ => SitedStays(c.env, st, d.st, ps);
  }

  lemma {:induction false} AssignMutSited(x: string, txn: bool, v: Value, c: Ctx, st: State, ps: set<Part>)
    requires Sited(c.env, st, ps) && (txn ==> TxnVariable(x) in ps)
    ensures var d := AssignMut(x, txn, v, c, st); Sited(d.env, d.st, ps)
  {
    hide CalmParts;
    var d := AssignMut(x, txn, v, c, st);
    match Lookup(c.env, x)
    case Some(Mut(loc)) => SitedStays(c.env, st, d.st, ps);
    case _ => MadeSited(x, txn, v, c.env, st, ps);
  }

  lemma {:induction false} MadeSited(x: string, txn: bool, v: Value, env: Env, st: State, ps: set<Part>)
    requires Sited(env, st, ps) && (txn ==> TxnVariable(x) in ps)
    ensures Sited(Bound(x, Mut(|st.cells|), env), st.(cells := st.cells + [Cell(x, v, txn, None)]), ps)
  {
    hide CalmParts;
    var cells := st.cells + [Cell(x, v, txn, None)];
    PlacedStays(env, st.cells, cells, Some(0), ps);
    assert SlotPlaced(x, Mut(|st.cells|), cells, Some(0), ps);
  }

  lemma {:induction false} DefineSited(x: string, v: Value, c: Ctx, st: State, ps: set<Part>)
    requires Sited(c.env, st, ps)
    ensures var d := DefineAs(x, v, c, st); Sited(d.env, d.st, ps)
  {
    hide CalmParts;
    match Lookup(c.env, x)
    case Some(Chan(_)) => SitedNotes(c.env, st, DefineAs(x, v, c, st).st, ps);
    case _ => SitedBound(c.env, x, Val(v), st, ps);
  }

  // ----- A body that runs once for a pending collection -----

  lemma {:induction false} ZoneChosen(w: set<string>, calls: bool, n: nat, env: Env, st: State, ps: set<Part>)
    requires Sited(env, st, ps) && !st.lost && n <= |st.cells|
    requires calls ==> FunctionsSteady(ps, RuleFor(w, true, ps))
    ensures Joint(env, env, st, st, Zone(RuleFor(w, calls, ps), n, ps), false)
  {
    EnvTwinRefl(env, RuleFor(w, calls, ps).written);
    forall p | p in ps && p.FunctionBody? ensures AllByValue(p.params) { assert CalmPart(p, ps); }
  }

  lemma {:induction false} JointTwin(ea: Env, a: State, b: State, z: Zone)
    requires Joint(ea, ea, a, a, z, false) && Twin(a, b, z.rule.written)
    ensures Joint(ea, ea, a, b, z, false)
  {}

  lemma {:induction false} LoopSettled(body: Stmts, c: Ctx, st: State, ps: set<Part>, fuel: nat)
    requires c.spec > 0 && Sited(c.env, st, ps) && CalmLoop(body, ps) && PartsIn(body) <= ps
    requires var once := RunBody(body, Run, c, st, fuel); !once.st.lost
    requires var once := RunBody(body, Run, c, st, fuel); Settles(Ok(()), RunBody(body, Run, c, once.st, fuel).st)
    ensures var once := RunBody(body, Run, c, st, fuel); Settled(once.st, RunBody(body, Run, c, once.st, fuel).st)
  {
    hide RunBody, EvalRaw, ExecRaw, Sited, Joint, Linked, Settled, FunctionsSteady, SteadyStmts, PartsIn;
    var w := WrittenIn(body);
    var calls := !SteadyStmts(body, RuleFor(w, false, ps), false);
    var z := Zone(RuleFor(w, calls, ps), |st.cells|, ps);
    ZoneChosen(w, calls, |st.cells|, c.env, st, ps);
    RunBodySame(body, Run, c, c, st, st, z, false, fuel);
    var once := RunBody(body, Run, c, st, fuel);
    TwinOf(st, once.st, z.rule.written);
    JointTwin(c.env, st, once.st, z);
    RunBodySame(body, Run, c, c, st, once.st, z, false, fuel);
    var twice := RunBody(body, Run, c, once.st, fuel);
    assert !twice.st.lost by { LinkedKeeps(st, once.st, once.st, twice.st, z.rule.written, z.base); }
    LinkedSettles(st, once.st, twice.st, z.rule.written, z.base);
  }

  lemma {:induction false} LinkedKeeps(a0: State, b0: State, a: State, b: State, w: set<string>, base: nat)
    requires Linked(a0, b0, a, b, w, base)
    ensures !b.lost
  {}

  lemma {:induction false} ClausesSettled(rest: Comp, keys: seq<Value>, c: Ctx, st: State, ps: set<Part>, fuel: nat)
    requires c.spec > 0 && Sited(c.env, st, ps) && CalmClauses(rest, ps) && PartsInComp(rest) <= ps
    requires var once := Comprehend(rest, keys, c, st, fuel); !once.st.lost && once.r.Ok?
    requires var once := Comprehend(rest, keys, c, st, fuel);
             var twice := Comprehend(rest, keys, c, once.st, fuel); Settles(twice.r, twice.st)
    ensures var once := Comprehend(rest, keys, c, st, fuel);
            var twice := Comprehend(rest, keys, c, once.st, fuel); twice.r.Ok? && Settled(once.st, twice.st)
  {
    hide Comprehend, EvalRaw, Sited, Joint, Linked, Settled, FunctionsSteady, SteadyComp, PartsInComp;
    var w := WrittenInComp(rest);
    var calls := !SteadyComp(rest, RuleFor(w, false, ps), false);
    var z := Zone(RuleFor(w, calls, ps), |st.cells|, ps);
    ZoneChosen(w, calls, |st.cells|, c.env, st, ps);
    ComprehendSame(rest, keys, c, c, st, st, z, false, fuel);
    var once := Comprehend(rest, keys, c, st, fuel);
    TwinOf(st, once.st, z.rule.written);
    JointTwin(c.env, st, once.st, z);
    ComprehendSame(rest, keys, c, c, st, once.st, z, false, fuel);
    var twice := Comprehend(rest, keys, c, once.st, fuel);
    assert !twice.st.lost by { LinkedKeeps(st, once.st, once.st, twice.st, z.rule.written, z.base); }
    LinkedSettles(st, once.st, twice.st, z.rule.written, z.base);
  }

  // ----- Expressions -----

  lemma {:induction false} EvalSettles(e: Expr, c: Ctx, st: State, ps: set<Part>, fuel: nat)
    requires Sited(c.env, st, ps) && PartsInExpr(e) <= ps && !st.carried
    ensures var o := Eval(e, c, st, fuel); Settles(o.r, o.st)
    decreases fuel, e, 2
  {
    hide EvalRaw, Sited, PartsInExpr;
    EvalRawSettles(e, c, st, ps, fuel);
  }

  lemma {:induction false} EvalRawSettles(e: Expr, c: Ctx, st: State, ps: set<Part>, fuel: nat)
    requires Sited(c.env, st, ps) && PartsInExpr(e) <= ps && !st.carried
    ensures var o := EvalRaw(e, c, st, fuel); Settles(o.r, o.st)
    decreases fuel, e, 1
  {
    hide Eval, EvalAll, EvalChain, EvalBool, EvalCall, Comprehend, RunBranches, RunMatch, Apply, Lookup, Sited;
    match e
    case Strict(_, args) => EvalAllSettles(args, c, st, ps, fuel);
    case Compare(first, rest) =>
      EvalSettles(first, c, st, ps, fuel);
      var o := Eval(first, c, st, fuel);
      if o.r.Ok? && !o.st.carried {
        SitedStays(c.env, st, o.st, ps);
        EvalChainSettles(o.r.value, rest, c, o.st, ps, fuel);
      }
    case BoolOp(conj, operands) => EvalBoolSettles(conj, operands, c, st, ps, fuel);
    case IfExp(_, _, _) => EvalIfSettles(e, c, st, ps, fuel);
    case Block(s) =>
      if s.If? { RunBranchesSettles(s.branches, Denote(false), c, st, ps, fuel); }
      if s.Match? { RunMatchSettles(s, Denote(false), c, st, ps, fuel); }
    case Call(_, _, at) => EvalCallSettles(e, c.(calls := c.calls + [at]), st, ps, fuel);
    case ListComp(comp) => ComprehendSettles(comp, [], c, st, ps, fuel);
    case _ =>
  }

  lemma {:induction false} EvalIfSettles(e: Expr, c: Ctx, st: State, ps: set<Part>, fuel: nat)
    requires e.IfExp? && Sited(c.env, st, ps) && PartsInExpr(e) <= ps && !st.carried
    ensures var o := EvalRaw(e, c, st, fuel); Settles(o.r, o.st)
    decreases fuel, e, 0
  {
    hide Eval, EvalAll, EvalChain, EvalBool, EvalCall, Comprehend, RunBranches, RunMatch, Apply, Lookup, Sited;
    EvalSettles(e.cond, c, st, ps, fuel);
    var o := Eval(e.cond, c, st, fuel);
    if o.r.Ok? && !o.st.carried {
      SitedStays(c.env, st, o.st, ps);
      if o.r.value.Pending? {
        EvalSettles(e.thn, c.Speculate(), o.st, ps, fuel);
        var t := Eval(e.thn, c.Speculate(), o.st, fuel);
        if !t.st.carried {
          SitedStays(c.env, o.st, t.st, ps);
          EvalSettles(e.els, c.Speculate(), t.st, ps, fuel);
        }
      } else {
        EvalSettles(e.thn, c, o.st, ps, fuel);
        EvalSettles(e.els, c, o.st, ps, fuel);
      }
    }
  }

  lemma {:induction false} EvalAllSettles(es: Exprs, c: Ctx, st: State, ps: set<Part>, fuel: nat)
    requires Sited(c.env, st, ps) && PartsInExprs(es) <= ps && !st.carried
    ensures var o := EvalAll(es, c, st, fuel); Settles(o.r, o.st)
    decreases fuel, es, 0
  {
    hide Eval, Sited, PartsInExpr;
    if es.MoreExprs? {
      EvalSettles(es.head, c, st, ps, fuel);
      var o := Eval(es.head, c, st, fuel);
      if o.r.Ok? && !o.st.carried {
        SitedStays(c.env, st, o.st, ps);
        EvalAllSettles(es.tail, c, o.st, ps, fuel);
      }
    }
  }

  lemma {:induction false} EvalChainSettles(prev: Value, rest: Comparisons, c: Ctx, st: State, ps: set<Part>, fuel: nat)
    requires Sited(c.env, st, ps) && PartsInComparisons(rest) <= ps && !st.carried
    ensures var o := EvalChain(prev, rest, c, st, fuel); Settles(o.r, o.st)
    decreases fuel, rest, 0
  {
    hide Eval, Sited, PartsInExpr, SpecChain, Comparison;
    if rest.MoreCmp? {
      EvalSettles(rest.right, c, st, ps, fuel);
      var o := Eval(rest.right, c, st, fuel);
      if o.r.Ok? && !o.st.carried {
        SitedStays(c.env, st, o.st, ps);
        SpecChainSettles(rest.tail, c.Speculate(), o.st, ps, fuel);
        EvalChainSettles(o.r.value, rest.tail, c, o.st, ps, fuel);
      }
    }
  }

  lemma {:induction false} SpecChainSettles(rest: Comparisons, c: Ctx, st: State, ps: set<Part>, fuel: nat)
    requires c.spec > 0 && Sited(c.env, st, ps) && PartsInComparisons(rest) <= ps && !st.carried
    ensures Settles(Ok(()), SpecChain(rest, c, st, fuel))
    decreases fuel, rest, 0
  {
    hide Eval, Sited, PartsInExpr;
    if rest.MoreCmp? {
      EvalSettles(rest.right, c, st, ps, fuel);
      var o := Eval(rest.right, c, st, fuel);
      if !o.st.carried {
        SitedStays(c.env, st, o.st, ps);
        SpecChainSettles(rest.tail, c, o.st, ps, fuel);
      }
    }
  }

  lemma {:induction false} EvalBoolSettles(conj: bool, es: Exprs, c: Ctx, st: State, ps: set<Part>, fuel: nat)
    requires Sited(c.env, st, ps) && PartsInExprs(es) <= ps && !st.carried
    ensures var o := EvalBool(conj, es, c, st, fuel); Settles(o.r, o.st)
    decreases fuel, es, 0
  {
    hide Eval, EvalAll, Sited, PartsInExpr;
    if es.MoreExprs? {
      EvalSettles(es.head, c, st, ps, fuel);
      var o := Eval(es.head, c, st, fuel);
      if o.r.Ok? && !o.st.carried {
        SitedStays(c.env, st, o.st, ps);
        EvalAllSettles(es.tail, c.Speculate(), o.st, ps, fuel);
        EvalBoolSettles(conj, es.tail, c, o.st, ps, fuel);
      }
    }
  }

  // ----- Calls -----

  lemma {:induction false} BindingSettles(e: Expr, c: Ctx, st: State, ps: set<Part>, fuel: nat)
    requires Sited(c.env, st, ps) && PartsInExpr(e) <= ps && !st.carried
    ensures var o := BindingOf(e, c, st, fuel); Settles(o.r, o.st)
    decreases fuel, e, 3
  {
    hide EvalRaw, Sited, PartsInExpr;
    EvalSettles(e, c, st, ps, fuel);
  }

  lemma {:induction false} BindArgsSettles(params: seq<Param>, args: Exprs, env: Env, c: Ctx, st: State, ps: set<Part>,
          fuel: nat)
    requires |params| == Length(args) && AllByValue(params)
    requires Sited(c.env, st, ps) && Sited(env, st, ps) && PartsInExprs(args) <= ps && !st.carried
    ensures var o := BindArgs(params, args, env, c, st, fuel);
            Settles(o.r, o.st) && (o.r.Ok? ==> Sited(o.r.value, o.st, ps))
    decreases fuel, args, 0
  {
    hide BindingOf, EvalRaw, Sited, Bindable, PartsInExpr, Lookup;
    if args.MoreExprs? {
      assert !params[0].byRef;
      BindingSettles(args.head, c, st, ps, fuel);
      BindingPlaced(args.head, c, st, ps, fuel);
      var o := BindingOf(args.head, c, st, fuel);
      if o.r.Ok? {
        SitedStays(env, st, o.st, ps);
        SitedBound(env, params[0].name, o.r.value, o.st, ps);
        var env' := Bound(params[0].name, o.r.value, env);
        if o.st.carried {
          BindArgsSited(params[1..], args.tail, env', c, o.st, ps, fuel);
        } else {
          BindArgsSettles(params[1..], args.tail, env', c, o.st, ps, fuel);
        }
      }
    }
  }

  lemma {:induction false} BindArgsSited(params: seq<Param>, args: Exprs, env: Env, c: Ctx, st: State, ps: set<Part>,
          fuel: nat)
    requires |params| == Length(args) && AllByValue(params)
    requires Sited(c.env, st, ps) && Sited(env, st, ps) && PartsInExprs(args) <= ps
    ensures var o := BindArgs(params, args, env, c, st, fuel); o.r.Ok? ==> Sited(o.r.value, o.st, ps)
    decreases fuel, args, 0
  {
    hide BindingOf, EvalRaw, Sited, Bindable, PartsInExpr, Lookup;
    if args.MoreExprs? {
      assert !params[0].byRef;
      BindingPlaced(args.head, c, st, ps, fuel);
      var o := BindingOf(args.head, c, st, fuel);
      if o.r.Ok? {
        SitedStays(env, st, o.st, ps);
        SitedBound(env, params[0].name, o.r.value, o.st, ps);
        BindArgsSited(params[1..], args.tail, Bound(params[0].name, o.r.value, env), c, o.st, ps, fuel);
      }
    }
  }

  lemma {:induction false} SitedCallee(f: Function, env: Env, st: State, ps: set<Part>)
    requires Sited(env, st, ps) && Bindable(Fn(f), st.cells, ps)
    ensures Sited(f.env, st, ps) && AllByValue(f.params) && PartsIn(f.body) <= ps
  {
    PlacedAnywhere(f.env, st.cells, Some(0), ps);
    assert CalmPart(FunctionBody(f.params, f.body), ps);
  }

  lemma {:induction false} EvalCallSettles(e: Expr, c: Ctx, st: State, ps: set<Part>, fuel: nat)
    requires e.Call? && Sited(c.env, st, ps) && PartsInExpr(e) <= ps && !st.carried
    ensures var o := EvalCall(e, c, st, fuel); Settles(o.r, o.st)
    decreases fuel, e, 0
  {
    hide EvalRaw, ExecRaw, BlockValue, BindArgs, Lookup, Sited, PartsIn, Bindable;
    SitedLookup(c.env, e.f, st, ps);
    match Lookup(c.env, e.f)
    case Some(Fn(f)) =>
      if |f.params| == Length(e.args) {
        SitedCallee(f, c.env, st, ps);
        BindArgsSettles(f.params, e.args, f.env, c, st, ps, fuel);
        var o := BindArgs(f.params, e.args, f.env, c, st, fuel);
        if o.r.Ok? && fuel > 0 && !o.st.carried {
          BlockValueSettles(f.body, true, c.In(o.r.value).(specAtCall := c.spec), o.st, ps, fuel - 1);
        }
      }
    case _ =>
  }

  // ----- Comprehensions -----

  lemma {:induction false} ComprehendSettles(cp: Comp, keys: seq<Value>, c: Ctx, st: State, ps: set<Part>, fuel: nat)
    requires Sited(c.env, st, ps) && PartsInComp(cp) <= ps && !st.carried
    ensures var o := Comprehend(cp, keys, c, st, fuel); Settles(o.r, o.st)
    decreases fuel, cp, 1
  {
    hide Eval, Sited, PartsInExpr, CompOver, TupleKey;
    match cp
    case Element(e) => EvalSettles(e, c, st, ps, fuel);
    case Guard(cond, rest) =>
      EvalSettles(cond, c, st, ps, fuel);
      var o := Eval(cond, c, st, fuel);
      if o.r.Ok? && !o.st.carried {
        SitedStays(c.env, st, o.st, ps);
        ComprehendSettles(rest, keys, c.Speculate(), o.st, ps, fuel);
        ComprehendSettles(rest, keys, c, o.st, ps, fuel);
      }
    case Generator(_, iter, _) =>
      EvalSettles(iter, c, st, ps, fuel);
      var o := Eval(iter, c, st, fuel);
      if o.r.Ok? && !o.st.carried {
        SitedStays(c.env, st, o.st, ps);
        CompOverSettles(o.r.value, cp, keys, c, o.st, ps, fuel);
      }
  }

  lemma {:induction false} CompOverSettles(source: Value, cp: Comp, keys: seq<Value>, c: Ctx, st: State, ps: set<Part>,
          fuel: nat)
    requires cp.Generator? && Sited(c.env, st, ps) && PartsInComp(cp) <= ps && !st.carried
    ensures var o := CompOver(source, cp, keys, c, st, fuel); Settles(o.r, o.st)
    decreases fuel, cp, 0
  {
    hide EvalRaw, Comprehend, Sited, Settled, CompLoop, CalmClauses;
    if source.Pending? {
      var c', keys' := PendingBinding(c, cp.x), keys + [Pending];
      SitedVar(c.env, cp.x, Pending, st, ps);
      ComprehendSettles(cp.rest, keys', c', st, ps, fuel);
      var once := Comprehend(cp.rest, keys', c', st, fuel);
      if once.r.Ok? && !once.st.lost {
        SitedStays(c'.env, st, once.st, ps);
        ComprehendSettles(cp.rest, keys', c', once.st, ps, fuel);
        assert CalmClauses(cp.rest, ps) by { PartCalm(ClauseBody(cp.rest), c.env, st, ps); }
        ClausesSettled(cp.rest, keys', c', st, ps, fuel);
      }
    } else if source.d.Coll? {
      CompLoopSettles(cp.x, source.d.entries, cp.rest, keys, c, st, ps, fuel);
    }
  }

  lemma {:induction false} PartCalm(p: Part, env: Env, st: State, ps: set<Part>)
    requires Sited(env, st, ps) && p in ps
    ensures CalmPart(p, ps)
  {}

  lemma {:induction false} CompLoopSettles(x: string, entries: seq<(Data, Data)>, rest: Comp, keys: seq<Value>, c: Ctx,
          st: State, ps: set<Part>, fuel: nat)
    requires Sited(c.env, st, ps) && PartsInComp(rest) <= ps && !st.carried
    ensures var o := CompLoop(x, entries, rest, keys, c, st, fuel); Settles(o.r, o.st)
    decreases fuel, rest, 2 + |entries|
  {
    hide EvalRaw, Comprehend, Sited, PartsInComp;
    if |entries| > 0 {
      var c' := c.In(BindVar(c.env, x, Known(entries[0].1)));
      SitedVar(c.env, x, Known(entries[0].1), st, ps);
      ComprehendSettles(rest, keys + [Known(entries[0].0)], c', st, ps, fuel);
      var o := Comprehend(rest, keys + [Known(entries[0].0)], c', st, fuel);
      if o.r.Ok? && !o.st.carried {
        SitedStays(c.env, st, o.st, ps);
        CompLoopSettles(x, entries[1..], rest, keys, c, o.st, ps, fuel);
      }
    }
  }

  // ----- Blocks, branches and arms -----

  lemma {:induction false} RunBodySettles(body: Stmts, m: Mode, c: Ctx, st: State, ps: set<Part>, fuel: nat)
    requires Sited(c.env, st, ps) && PartsIn(body) <= ps && !st.carried
    ensures var o := RunBody(body, m, c, st, fuel); Settles(o.r, o.st)
    decreases fuel, body, 1
  {
    hide EvalRaw, ExecRaw, BlockValue, ExecStmts, Sited, PartsIn;
    match m
    case Run => ExecStmtsSettles(body, c, st, ps, fuel);
    case Denote(unit) => BlockValueSettles(body, unit, c, st, ps, fuel);
  }

  lemma {:induction false} BlockValueSettles(body: Stmts, unit: bool, c: Ctx, st: State, ps: set<Part>, fuel: nat)
    requires Sited(c.env, st, ps) && PartsIn(body) <= ps && !st.carried
    ensures var o := BlockValue(body, unit, c, st, fuel); Settles(o.r, o.st)
    decreases fuel, body, 0
  {
    hide EvalRaw, Exec, LastValue, Sited, PartsOf;
    if body.MoreStmts? {
      if body.tail.NoStmts? {
        LastValueSettles(body.head, unit, c, st, ps, fuel);
      } else {
        ExecSettles(body.head, c, st, ps, fuel);
        var d := Exec(body.head, c, st, fuel);
        if d.r == Ok(None) && !d.st.carried {
          ExecSited(body.head, c, st, ps, fuel);
          BlockValueSettles(body.tail, unit, c.In(d.env), d.st, ps, fuel);
        }
      }
    }
  }

  lemma {:induction false} LastValueSettles(s: Stmt, unit: bool, c: Ctx, st: State, ps: set<Part>, fuel: nat)
    requires Sited(c.env, st, ps) && PartsOf(s) <= ps && !st.carried
    ensures var o := LastValue(s, unit, c, st, fuel); Settles(o.r, o.st)
    decreases fuel, s, 3
  {
    hide Eval, Exec, BlockValue, RunMatch, RunBranches, Sited;
    if s.ExprStmt? || s.Return? {
      EvalSettles(s.e, c, st, ps, fuel);
    } else if s.Match? {
      RunMatchSettles(s, Denote(unit), c, st, ps, fuel);
    } else if s.If? && HasElse(s.branches) {
      RunBranchesSettles(s.branches, Denote(unit), c, st, ps, fuel);
    } else {
      ExecSettles(s, c, st, ps, fuel);
    }
  }

  lemma {:induction false} RunBranchesSettles(bs: Branches, m: Mode, c: Ctx, st: State, ps: set<Part>, fuel: nat)
    requires Sited(c.env, st, ps) && PartsInBranches(bs) <= ps && !st.carried
    ensures var o := RunBranches(bs, m, c, st, fuel); Settles(o.r, o.st)
    decreases fuel, bs, 1
  {
    hide Eval, RunBody, SpecConds, SpecBodies, Sited, PartsInExpr, PartsIn;
    match bs
    case NoElse =>
    case Else(body) => RunBodySettles(body, m, c, st, ps, fuel);
    case Branch(cond, body, rest) =>
      EvalSettles(cond, c, st, ps, fuel);
      var o := Eval(cond, c, st, fuel);
      if o.r.Ok? && !o.st.carried {
        SitedStays(c.env, st, o.st, ps);
        if o.r.value.Pending? {
          SpecCondsSettles(rest, c.Speculate(), o.st, ps, fuel);
          var s1 := SpecConds(rest, c.Speculate(), o.st, fuel);
          if !s1.carried {
            SitedStays(c.env, o.st, s1, ps);
            SpecBodiesSettles(bs, m, c.Speculate(), s1, ps, fuel);
          }
        } else {
          RunBodySettles(body, m, c, o.st, ps, fuel);
          RunBranchesSettles(rest, m, c, o.st, ps, fuel);
        }
      }
  }

  lemma {:induction false} SpecCondsSettles(bs: Branches, c: Ctx, st: State, ps: set<Part>, fuel: nat)
    requires c.spec > 0 && Sited(c.env, st, ps) && PartsInBranches(bs) <= ps && !st.carried
    ensures Settles(Ok(()), SpecConds(bs, c, st, fuel))
    decreases fuel, bs, 0
  {
    hide Eval, Sited, PartsInExpr, PartsIn;
    if bs.Branch? {
      EvalSettles(bs.cond, c, st, ps, fuel);
      var o := Eval(bs.cond, c, st, fuel);
      if !o.st.carried {
        SitedStays(c.env, st, o.st, ps);
        SpecCondsSettles(bs.rest, c, o.st, ps, fuel);
      }
    }
  }

  lemma {:induction false} SpecBodiesSettles(bs: Branches, m: Mode, c: Ctx, st: State, ps: set<Part>, fuel: nat)
    requires c.spec > 0 && Sited(c.env, st, ps) && PartsInBranches(bs) <= ps && !st.carried
    ensures var o := SpecBodies(bs, m, c, st, fuel); Settles(o.r, o.st)
    decreases fuel, bs, 0
  {
    hide EvalRaw, RunBody, Sited, PartsInExpr, PartsIn;
    if !bs.NoElse? {
      RunBodySettles(bs.body, m, c, st, ps, fuel);
      var o := RunBody(bs.body, m, c, st, fuel);
      if bs.Branch? && o.r.Ok? && !o.st.carried {
        SitedStays(c.env, st, o.st, ps);
        SpecBodiesSettles(bs.rest, m, c, o.st, ps, fuel);
      }
    }
  }

  lemma {:induction false} RunMatchSettles(s: Stmt, m: Mode, c: Ctx, st: State, ps: set<Part>, fuel: nat)
    requires s.Match? && Sited(c.env, st, ps) && PartsOf(s) <= ps && !st.carried
    ensures var o := RunMatch(s, m, c, st, fuel); Settles(o.r, o.st)
    decreases fuel, s, 0
  {
    hide Eval, RunArms, SpecArms, Sited;
    EvalSettles(s.scrutinee, c, st, ps, fuel);
    var o := Eval(s.scrutinee, c, st, fuel);
    if o.r.Ok? && !o.st.carried {
      SitedStays(c.env, st, o.st, ps);
      if o.r.value.Pending? {
        SpecArmsSettles(s.arms, m, c.Speculate(), o.st, ps, fuel);
      } else {
        RunArmsSettles(s.arms, o.r.value.d, m, c, o.st, ps, fuel);
      }
    }
  }

  lemma {:induction false} RunArmsSettles(arms: Arms, v: Data, m: Mode, c: Ctx, st: State, ps: set<Part>, fuel: nat)
    requires Sited(c.env, st, ps) && PartsInArms(arms) <= ps && !st.carried
    ensures var o := RunArms(arms, v, m, c, st, fuel); Settles(o.r, o.st)
    decreases fuel, arms, 0
  {
    hide EvalRaw, RunBody, Sited, PartsIn, MatchPattern, BindAll;
    if arms.Arm? {
      var p := MatchPattern(arms.pattern, v);
      if p.Ok? {
        if p.value.None? {
          RunArmsSettles(arms.rest, v, m, c, st, ps, fuel);
        } else {
          SitedAll(c.env, p.value.value, st, ps);
          RunBodySettles(arms.body, m, c.In(BindAll(c.env, p.value.value)), st, ps, fuel);
        }
      }
    }
  }

  lemma {:induction false} SpecArmsSettles(arms: Arms, m: Mode, c: Ctx, st: State, ps: set<Part>, fuel: nat)
    requires c.spec > 0 && Sited(c.env, st, ps) && PartsInArms(arms) <= ps && !st.carried
    ensures var o := SpecArms(arms, m, c, st, fuel); Settles(o.r, o.st)
    decreases fuel, arms, 0
  {
    hide EvalRaw, RunBody, Sited, PartsIn, PendingNames, BindAll;
    if arms.Arm? {
      var c' := c.In(BindAll(c.env, PendingNames(arms.pattern)));
      SitedAll(c.env, PendingNames(arms.pattern), st, ps);
      RunBodySettles(arms.body, m, c', st, ps, fuel);
      var o := RunBody(arms.body, m, c', st, fuel);
      if o.r.Ok? && !o.st.carried {
        SitedStays(c.env, st, o.st, ps);
        SpecArmsSettles(arms.rest, m, c, o.st, ps, fuel);
      }
    }
  }

  // ----- Statements -----

  lemma {:induction false} ExecStmtsSettles(ss: Stmts, c: Ctx, st: State, ps: set<Part>, fuel: nat)
    requires Sited(c.env, st, ps) && PartsIn(ss) <= ps && !st.carried
    ensures var d := ExecStmts(ss, c, st, fuel); Settles(d.r, d.st)
    decreases fuel, ss, 0
  {
    hide EvalRaw, Exec, Sited, PartsOf;
    if ss.MoreStmts? {
      ExecSettles(ss.head, c, st, ps, fuel);
      var d := Exec(ss.head, c, st, fuel);
      if d.r == Ok(None) && !d.st.carried {
        ExecSited(ss.head, c, st, ps, fuel);
        ExecStmtsSettles(ss.tail, c.In(d.env), d.st, ps, fuel);
      }
    }
  }

  lemma {:induction false} ExecSettles(s: Stmt, c: Ctx, st: State, ps: set<Part>, fuel: nat)
    requires Sited(c.env, st, ps) && PartsOf(s) <= ps && !st.carried
    ensures var d := Exec(s, c, st, fuel); Settles(d.r, d.st)
    decreases fuel, s, 2
  {
    hide EvalRaw, ExecRaw, Sited, PartsOf;
    ExecRawSettles(s, c, st, ps, fuel);
  }

  lemma {:induction false} ExecRawSettles(s: Stmt, c: Ctx, st: State, ps: set<Part>, fuel: nat)
    requires Sited(c.env, st, ps) && PartsOf(s) <= ps && !st.carried
    ensures var d := ExecRaw(s, c, st, fuel); Settles(d.r, d.st)
    decreases fuel, s, 1
  {
    hide Eval, RunBranches, RunMatch, ExecFor, ExecWith, BindingOf, Lookup, Sited, ReadMut, Apply, KeyWritten;
    match s
    case Assign(_, e) => BindingSettles(e, c, st, ps, fuel);
    case MutAssign(_, _, e) => EvalSettles(e, c, st, ps, fuel);
    case KeyedAssign(_, index, e) =>
      EvalSettles(e, c, st, ps, fuel);
      var o := Eval(e, c, st, fuel);
      if o.r.Ok? && !o.st.carried {
        SitedStays(c.env, st, o.st, ps);
        EvalSettles(index, c, o.st, ps, fuel);
      }
    case AugAssign(_, _, e) => EvalSettles(e, c, st, ps, fuel);
    case Define(_, e) => EvalSettles(e, c, st, ps, fuel);
    case Feed(_, e, _) => EvalSettles(e, c, st, ps, fuel);
    case If(bs) => RunBranchesSettles(bs, Run, c, st, ps, fuel);
    case Match(_, _) => RunMatchSettles(s, Run, c, st, ps, fuel);
    case For(_, _, _) => ExecForSettles(s, c, st, ps, fuel);
    case With(body, site) => ExecWithSettles(body, site, c, st, ps, fuel);
    case Return(e) => EvalSettles(e, c, st, ps, fuel);
    case ExprStmt(e) => EvalSettles(e, c, st, ps, fuel);
    case _ =>
  }

  lemma {:induction false} ExecForSettles(s: Stmt, c: Ctx, st: State, ps: set<Part>, fuel: nat)
    requires s.For? && Sited(c.env, st, ps) && PartsOf(s) <= ps && !st.carried
    ensures var o := ExecFor(s, c, st, fuel); Settles(o.r, o.st)
    decreases fuel, s, 0, 1
  {
    hide Eval, LoopOver, Sited;
    EvalSettles(s.iter, c, st, ps, fuel);
    var o := Eval(s.iter, c, st, fuel);
    if o.r.Ok? && !o.st.carried {
      SitedStays(c.env, st, o.st, ps);
      LoopOverSettles(o.r.value, s, c, o.st, ps, fuel);
    }
  }

  lemma {:induction false} LoopOverSettles(source: Value, s: Stmt, c: Ctx, st: State, ps: set<Part>, fuel: nat)
    requires s.For? && Sited(c.env, st, ps) && PartsOf(s) <= ps && !st.carried
    ensures var o := LoopOver(source, s, c, st, fuel); Settles(o.r, o.st)
    decreases fuel, s, 0, 0
  {
    hide EvalRaw, RunBody, Sited, Settled, ForLoop, CalmLoop;
    if source.Pending? {
      var c' := PendingElement(c, s.x);
      SitedVar(c.env, s.x, Pending, st, ps);
      RunBodySettles(s.body, Run, c', st, ps, fuel);
      var once := RunBody(s.body, Run, c', st, fuel);
      if !once.st.lost {
        SitedStays(c'.env, st, once.st, ps);
        RunBodySettles(s.body, Run, c', once.st, ps, fuel);
        assert CalmLoop(s.body, ps) by { PartCalm(LoopBody(s.body), c.env, st, ps); }
        LoopSettled(s.body, c', st, ps, fuel);
      }
    } else if source.d.Coll? {
      if Positional(source.d.entries) {
        ForLoopSettles(s.x, SortEntries(source.d.entries), s.body, c, st, ps, fuel);
      } else {
        SitedNotes(c.env, st, Watched(st), ps);
        ForLoopSettles(s.x, source.d.entries, s.body, c, Watched(st), ps, fuel);
      }
    }
  }

  lemma {:induction false} ForLoopSettles(x: string, entries: seq<(Data, Data)>, body: Stmts, c: Ctx, st: State,
          ps: set<Part>, fuel: nat)
    requires Sited(c.env, st, ps) && PartsIn(body) <= ps && !st.carried
    ensures var o := ForLoop(x, entries, body, c, st, fuel); Settles(o.r, o.st)
    decreases fuel, body, 2 + |entries|
  {
    hide EvalRaw, RunBody, Sited, PartsIn;
    if |entries| > 0 {
      var c' := c.AtKey(Known(entries[0].0)).In(BindVar(c.env, x, Known(entries[0].1)));
      SitedVar(c.env, x, Known(entries[0].1), st, ps);
      RunBodySettles(body, Run, c', st, ps, fuel);
      var o := RunBody(body, Run, c', st, fuel);
      if o.r == Ok(None) && !o.st.carried {
        SitedStays(c.env, st, o.st, ps);
        ForLoopSettles(x, entries[1..], body, c, o.st, ps, fuel);
      }
    }
  }

  lemma {:induction false} ExecWithSettles(body: Stmts, site: nat, c: Ctx, st: State, ps: set<Part>, fuel: nat)
    requires Sited(c.env, st, ps) && PartsIn(body) <= ps && !st.carried
    ensures var o := ExecWith(body, site, c, st, fuel); Settles(o.r, o.st)
    decreases fuel, body, 3
  {
    hide EvalRaw, RunBody, Sited, PartsIn;
    if st.txn.None? {
      var st0 := st.(txn := Some(TxnFrame(site, false, WrittenIn(body), [], false)));
      SitedNotes(c.env, st, st0, ps);
      RunBodySettles(body, Run, c, st0, ps, fuel);
    }
  }
}
