/** A pass that waits on nothing runs the program as it is meant: every expression has the value, and
    every statement the effects, of the plain run; and a pass waits on a channel exactly where the
    plain run reads contents that are not given. */
module PlainRuns {
  import opened Options
  import opened InterpSyntax
  import opened InterpValues
  import opened InterpEval
  import opened InterpClean
  import opened PlainRelation
  import opened PlainSteps
  import Operators = OperatorMeaning
  import P = PlainMeaning

  lemma {:induction false} AtIn(c: Ctx, at: P.Place, env: Env, scope: P.Scope)
    requires At(c, at) && ScopeMeans(env, scope)
    ensures At(c.In(env), at.(scope := scope))
  {}

  lemma {:induction false} AtPlain(c: Ctx, at: P.Place)
    requires At(c, at)
    ensures c.spec == 0 && c.calls == at.calls
  {}

  lemma {:induction false} ApplyMeans(op: Op, vs: seq<Value>, ds: seq<Data>)
    requires KeysMean(vs, ds)
    ensures Apply(op, vs) == match Operators.Result(op, ds) case Some(v) => Ok(Known(v)) case None => Err(Refused)
  {
    hide Compute, Operators.Result;
    assert !AnyPending(vs) && Decided(vs) == ds;
    Operators.ResultIs(op, ds);
  }

  // ----- Expressions -----

  lemma {:induction false} EvalMeans(e: Expr, c: Ctx, st: State, at: P.Place, w: P.World, ms: seq<Mark>, fuel: nat)
    requires At(c, at) && Means(st, w, ms)
    ensures Agrees(Eval(e, c, st, fuel), P.Evaluate(e, at, w, fuel), ms)
    decreases fuel, e, 2
  {
    hide EvalRaw, P.Evaluate, At, Means;
    AtPlain(c, at);
    EvalRawMeans(e, c, st, at, w, ms, fuel);
  }

  lemma {:induction false} EvalRawMeans(e: Expr, c: Ctx, st: State, at: P.Place, w: P.World, ms: seq<Mark>, fuel: nat)
    requires At(c, at) && Means(st, w, ms)
    ensures Agrees(EvalRaw(e, c, st, fuel), P.Evaluate(e, at, w, fuel), ms)
    decreases fuel, e, 1
  {
    hide Eval, EvalAll, EvalChain, EvalBool, EvalCall, Comprehend, RunBranches, RunMatch, ReadName, Apply, CollectionOf,
        Lookup, P.EvaluateAll, P.Compares, P.Decide, P.Test, P.Invoke, P.Clauses, P.ValueOfBlock, P.ReadName,
        Operators.Result, Operators.Gathered, At, Means;
    MeansWaits(st, w, ms);
    match e
    case Literal(_) =>
    case Name(x) => ReadNameMeans(x, c, st, at, w, ms);
    case Strict(_, _) => StrictMeans(e, c, st, at, w, ms, fuel);
    case Compare(_, _) => CompareMeans(e, c, st, at, w, ms, fuel);
    case BoolOp(_, _) => BoolOpMeans(e, c, st, at, w, ms, fuel);
    case IfExp(_, _, _) => EvalIfMeans(e, c, st, at, w, ms, fuel);
    case Block(s) => BlockMeans(e, c, st, at, w, ms, fuel);
    case Call(_, _, site) =>
      AtCall(c, at, site);
      EvalCallMeans(e, c.(calls := c.calls + [site]), st, at.(calls := at.calls + [site]), w, ms, fuel);
    case ListComp(_) => ListCompMeans(e, c, st, at, w, ms, fuel);
    case Lambda(_, _) =>
    case AwaitFinal(x) => AwaitMeans(x, c, st, at, w, ms, fuel);
  }

  lemma {:induction false} StrictMeans(e: Expr, c: Ctx, st: State, at: P.Place, w: P.World, ms: seq<Mark>, fuel: nat)
    requires e.Strict? && At(c, at) && Means(st, w, ms)
    ensures Agrees(EvalRaw(e, c, st, fuel), P.Evaluate(e, at, w, fuel), ms)
    decreases fuel, e, 0
  {
    hide Eval, EvalAll, EvalChain, EvalBool, EvalCall, Comprehend, RunBranches, RunMatch, ReadName, Apply, CollectionOf,
        Lookup, P.EvaluateAll, P.Compares, P.Decide, P.Test, P.Invoke, P.Clauses, P.ValueOfBlock, P.ReadName,
        Operators.Result, Operators.Gathered, At, Means;
    EvalAllMeans(e.args, c, st, at, w, ms, fuel);
    var o, r := EvalAll(e.args, c, st, fuel), P.EvaluateAll(e.args, at, w, fuel);
    if r.Got? {
      ApplyMeans(e.op, o.r.value, r.value.0);
      MeansWaits(o.st, r.value.1, ms);
    }
  }

  lemma {:induction false} ListCompMeans(e: Expr, c: Ctx, st: State, at: P.Place, w: P.World, ms: seq<Mark>, fuel: nat)
    requires e.ListComp? && At(c, at) && Means(st, w, ms)
    ensures Agrees(EvalRaw(e, c, st, fuel), P.Evaluate(e, at, w, fuel), ms)
    decreases fuel, e, 0
  {
    hide Eval, EvalAll, EvalChain, EvalBool, EvalCall, Comprehend, RunBranches, RunMatch, ReadName, Apply, CollectionOf,
        Lookup, P.EvaluateAll, P.Compares, P.Decide, P.Test, P.Invoke, P.Clauses, P.ValueOfBlock, P.ReadName,
        Operators.Result, Operators.Gathered, At, Means;
    ComprehendMeans(e.comp, [], [], c, st, at, w, ms, fuel);
    var o, r := Comprehend(e.comp, [], c, st, fuel), P.Clauses(e.comp, [], at, w, fuel);
    if r.Got? {
      CollectionMeans(o.r.value, r.value.0);
      MeansWaits(o.st, r.value.1, ms);
    }
  }

  lemma {:induction false} MeansWaits(st: State, w: P.World, ms: seq<Mark>)
    requires Means(st, w, ms)
    ensures st.waited == {} && |st.cells| == |w.vars| && st.txn.Some? == w.block.Some?
  {}

  lemma {:induction false} AtCall(c: Ctx, at: P.Place, site: nat)
    requires At(c, at)
    ensures At(c.(calls := c.calls + [site]), at.(calls := at.calls + [site]))
  {}

  lemma {:induction false} AwaitMeans(x: string, c: Ctx, st: State, at: P.Place, w: P.World, ms: seq<Mark>, fuel: nat)
    requires At(c, at) && Means(st, w, ms)
    ensures Agrees(EvalRaw(AwaitFinal(x), c, st, fuel), P.Evaluate(AwaitFinal(x), at, w, fuel), ms)
  {
    hide Eval, EvalAll, EvalChain, EvalBool, EvalCall, Comprehend, RunBranches, RunMatch, P.EvaluateAll, P.Compares,
        P.Decide,
        P.Test, P.Invoke, P.Clauses, P.ValueOfBlock, ScopeMeans, ChannelsMean, WatchesMean;
    LookupMeans(c.env, at.scope, x);
  }

  lemma {:induction false} CompareMeans(e: Expr, c: Ctx, st: State, at: P.Place, w: P.World, ms: seq<Mark>, fuel: nat)
    requires e.Compare? && At(c, at) && Means(st, w, ms)
    ensures Agrees(EvalRaw(e, c, st, fuel), P.Evaluate(e, at, w, fuel), ms)
    decreases fuel, e, 0
  {
    hide Eval, EvalAll, EvalChain, EvalBool, EvalCall, Comprehend, RunBranches, RunMatch, ReadName, Apply, CollectionOf,
        Lookup, P.EvaluateAll, P.Compares, P.Decide, P.Test, P.Invoke, P.Clauses, P.ValueOfBlock, P.ReadName,
        Operators.Result, Operators.Gathered, At, Means;
    EvalMeans(e.first, c, st, at, w, ms, fuel);
    var o, r := Eval(e.first, c, st, fuel), P.Evaluate(e.first, at, w, fuel);
    if r.Got? { EvalChainMeans(r.value.0, e.rest, c, o.st, at, r.value.1, ms, fuel); }
  }

  /** The value of a chain: whether all its comparisons hold. */
  ghost predicate AgreesChain(o: Out<Value>, r: P.Run<(seq<bool>, P.World)>, ms: seq<Mark>) {
    match r
    case Got((bs, w)) => o.r == Ok(Known(Bool(false !in bs))) && Means(o.st, w, ms)
    case Fails(e) => o.r == Err(e) && o.st.waited == {}
    case Unanswered => o.st.waited != {}
  }

  lemma {:induction false} EvalChainMeans(prev: Data, rest: Comparisons, c: Ctx, st: State, at: P.Place, w: P.World,
          ms: seq<Mark>, fuel: nat)
    requires At(c, at) && Means(st, w, ms)
    ensures AgreesChain(EvalChain(Known(prev), rest, c, st, fuel), P.Compares(prev, rest, at, w, fuel), ms)
    decreases fuel, rest, 0
  {
    hide Eval, P.Evaluate, At, Means, SpecChain, Comparison, Operators.Compared;
    match rest
    case NoCmp =>
    case MoreCmp(op, right, tail) =>
      EvalMeans(right, c, st, at, w, ms, fuel);
      var o, r := Eval(right, c, st, fuel), P.Evaluate(right, at, w, fuel);
      if r.Got? {
        MeansWaits(o.st, r.value.1, ms);
        Operators.ComparisonIs(op, prev, r.value.0);
        var b := Operators.Compared(op, prev, r.value.0);
        if b == Some(true) { EvalChainMeans(r.value.0, tail, c, o.st, at, r.value.1, ms, fuel); }
      }
  }

  /** The value of a short-circuiting operator. */
  ghost predicate AgreesBool(o: Out<Value>, r: P.Run<(seq<bool>, P.World)>, conj: bool, ms: seq<Mark>) {
    match r
    case Got((bs, w)) => o.r == Ok(Known(Bool(if conj then false !in bs else true in bs))) && Means(o.st, w, ms)
    case Fails(e) => o.r == Err(e) && o.st.waited == {}
    case Unanswered => o.st.waited != {}
  }

  lemma {:induction false} BoolOpMeans(e: Expr, c: Ctx, st: State, at: P.Place, w: P.World, ms: seq<Mark>, fuel: nat)
    requires e.BoolOp? && At(c, at) && Means(st, w, ms)
    ensures Agrees(EvalRaw(e, c, st, fuel), P.Evaluate(e, at, w, fuel), ms)
    decreases fuel, e, 0
  {
    hide Eval, EvalAll, EvalChain, EvalBool, EvalCall, Comprehend, RunBranches, RunMatch, ReadName, Apply, CollectionOf,
        Lookup, P.EvaluateAll, P.Compares, P.Decide, P.Test, P.Invoke, P.Clauses, P.ValueOfBlock, P.ReadName,
        Operators.Result, Operators.Gathered, At, Means;
    EvalBoolMeans(e.conj, e.operands, c, st, at, w, ms, fuel);
  }

  /** A condition has a boolean value, or the run refuses it. */
  ghost predicate AgreesTest(o: Out<Value>, r: P.Run<(bool, P.World)>, ms: seq<Mark>) {
    match r
    case Got((b, w)) => o.r == Ok(Known(Bool(b))) && Means(o.st, w, ms)
    case Fails(e) =>
      o.st.waited == {} && (o.r == Err(e) || (e == Refused && o.r.Ok? && o.r.value.Known? && !o.r.value.d.Bool?))
    case Unanswered => o.st.waited != {}
  }

  lemma {:induction false} TestMeans(e: Expr, c: Ctx, st: State, at: P.Place, w: P.World, ms: seq<Mark>, fuel: nat)
    requires At(c, at) && Means(st, w, ms)
    ensures AgreesTest(Eval(e, c, st, fuel), P.Test(e, at, w, fuel), ms)
    decreases fuel, e, 3
  {
    hide Eval, P.Evaluate, At, Means;
    EvalMeans(e, c, st, at, w, ms, fuel);
    var r := P.Evaluate(e, at, w, fuel);
    if r.Got? { MeansWaits(Eval(e, c, st, fuel).st, r.value.1, ms); }
  }

  lemma {:induction false} EvalBoolMeans(conj: bool, es: Exprs, c: Ctx, st: State, at: P.Place, w: P.World,
          ms: seq<Mark>, fuel: nat)
    requires At(c, at) && Means(st, w, ms)
    ensures AgreesBool(EvalBool(conj, es, c, st, fuel), P.Decide(es, !conj, at, w, fuel), conj, ms)
    decreases fuel, es, 0
  {
    hide Eval, P.Test, At, Means, EvalAll;
    match es
    case NoExprs =>
    case MoreExprs(e, rest) =>
      TestMeans(e, c, st, at, w, ms, fuel);
      var o, r := Eval(e, c, st, fuel), P.Test(e, at, w, fuel);
      if r.Got? && r.value.0 == conj { EvalBoolMeans(conj, rest, c, o.st, at, r.value.1, ms, fuel); }
  }

  lemma {:induction false} EvalIfMeans(e: Expr, c: Ctx, st: State, at: P.Place, w: P.World, ms: seq<Mark>, fuel: nat)
    requires e.IfExp? && At(c, at) && Means(st, w, ms)
    ensures Agrees(EvalRaw(e, c, st, fuel), P.Evaluate(e, at, w, fuel), ms)
    decreases fuel, e, 0
  {
    hide Eval, EvalAll, EvalChain, EvalBool, EvalCall, Comprehend, RunBranches, RunMatch, ReadName, Apply, CollectionOf,
        Lookup, P.EvaluateAll, P.Compares, P.Decide, P.Test, P.Invoke, P.Clauses, P.ValueOfBlock, P.ReadName,
        Operators.Result, Operators.Gathered, At, Means;
    TestMeans(e.cond, c, st, at, w, ms, fuel);
    var o, r := Eval(e.cond, c, st, fuel), P.Test(e.cond, at, w, fuel);
    if r.Got? {
      EvalMeans(e.thn, c, o.st, at, r.value.1, ms, fuel);
      EvalMeans(e.els, c, o.st, at, r.value.1, ms, fuel);
    }
  }

  lemma {:induction false} EvalAllMeans(es: Exprs, c: Ctx, st: State, at: P.Place, w: P.World, ms: seq<Mark>, fuel: nat)
    requires At(c, at) && Means(st, w, ms)
    ensures AgreesAll(EvalAll(es, c, st, fuel), P.EvaluateAll(es, at, w, fuel), ms)
    decreases fuel, es, 0
  {
    hide Eval, P.Evaluate, At, Means;
    match es
    case NoExprs =>
    case MoreExprs(e, rest) =>
      EvalMeans(e, c, st, at, w, ms, fuel);
      var o, r := Eval(e, c, st, fuel), P.Evaluate(e, at, w, fuel);
      if r.Got? { EvalAllMeans(rest, c, o.st, at, r.value.1, ms, fuel); }
  }

  // ----- Calls -----

  lemma {:induction false} BindingMeans(e: Expr, c: Ctx, st: State, at: P.Place, w: P.World, ms: seq<Mark>, fuel: nat)
    requires At(c, at) && Means(st, w, ms)
    ensures AgreesSlot(BindingOf(e, c, st, fuel), P.Holding(e, at, w, fuel), ms)
    decreases fuel, e, 3
  {
    hide Eval, P.Evaluate, Lookup;
    if e.Lambda? {
      assert ByValue(e.params) == P.ByValue(e.params);
      CaptureMeans(c.env, at.scope, st.cells, w.vars);
    } else {
      if e.Name? { LookupMeans(c.env, at.scope, e.x); }
      hide At, Means, ScopeMeans;
      EvalMeans(e, c, st, at, w, ms, fuel);
    }
  }

  lemma {:induction false} ScopeGrows(env: Env, scope: P.Scope, x: string, s: Slot, t: P.Slot)
    requires ScopeMeans(env, scope) && SlotMeans(s, t)
    ensures ScopeMeans(Bound(x, s, env), scope[x := t])
  {}

  lemma {:induction false} BindArgsMeans(params: seq<Param>, args: Exprs, env: Env, scope: P.Scope, c: Ctx, st: State,
          at: P.Place, w: P.World, ms: seq<Mark>, fuel: nat)
    requires |params| == Length(args) && At(c, at) && Means(st, w, ms) && ScopeMeans(env, scope)
    ensures AgreesScope(BindArgs(params, args, env, c, st, fuel), P.Arguments(params, args, scope, at, w, fuel), ms)
    decreases fuel, args, 0
  {
    hide BindingOf, P.Holding, Lookup, Means, SlotMeans;
    MeansWaits(st, w, ms);
    match args
    case NoExprs =>
    case MoreExprs(e, rest) =>
      if params[0].byRef {
        if e.Name? { ByRefMeans(e.x, c, at); }
        if e.Name? && e.x in at.scope && at.scope[e.x].Var? {
          ScopeGrows(env, scope, params[0].name, Lookup(c.env, e.x).value, at.scope[e.x]);
          BindArgsMeans(params[1..], rest, Bound(params[0].name, Lookup(c.env, e.x).value, env),
            scope[params[0].name := at.scope[e.x]], c, st, at, w, ms, fuel);
        }
      } else {
        hide At, ScopeMeans;
        BindingMeans(e, c, st, at, w, ms, fuel);
        var o, r := BindingOf(e, c, st, fuel), P.Holding(e, at, w, fuel);
        if r.Got? {
          ScopeGrows(env, scope, params[0].name, o.r.value, r.value.0);
          BindArgsMeans(params[1..], rest, Bound(params[0].name, o.r.value, env), scope[params[0].name := r.value.0],
              c, o.st,
            at, r.value.1, ms, fuel);
        }
      }
  }

  lemma {:induction false} ByRefMeans(x: string, c: Ctx, at: P.Place)
    requires At(c, at)
    ensures var s := Lookup(c.env, x);
            && (s.Some? && s.value.Mut? <==> x in at.scope && at.scope[x].Var?)
            && (s.Some? ==> x in at.scope && SlotMeans(s.value, at.scope[x]))
            && (s.Some? && s.value.Mut? ==> at.scope[x] == P.Var(s.value.loc))
            && (s.Some? && s.value.Fn? <==> x in at.scope && at.scope[x].Fn?)
            && (s.Some? && s.value.Chan? <==> x in at.scope && at.scope[x].Chan?)
            && (s.Some? && s.value.Chan? ==> at.scope[x] == P.Chan(s.value.key))
  {
    hide Lookup;
    LookupMeans(c.env, at.scope, x);
  }

  lemma {:induction false} EvalCallMeans(e: Expr, c: Ctx, st: State, at: P.Place, w: P.World, ms: seq<Mark>, fuel: nat)
    requires e.Call? && At(c, at) && Means(st, w, ms)
    ensures Agrees(EvalCall(e, c, st, fuel), P.Invoke(e, at, w, fuel), ms)
    decreases fuel, e, 0
  {
    hide EvalRaw, ExecRaw, BlockValue, BindArgs, Lookup, Means, P.Arguments, P.ValueOf;
    MeansWaits(st, w, ms);
    ByRefMeans(e.f, c, at);
    match Lookup(c.env, e.f)
    case Some(Fn(f)) =>
      assert ScopeMeans(f.env, at.scope[e.f].scope) && at.scope[e.f] == P.Fn(f.params, f.body, at.scope[e.f].scope);
      if |f.params| == Length(e.args) {
        BindArgsMeans(f.params, e.args, f.env, at.scope[e.f].scope, c, st, at, w, ms, fuel);
        var o, r := BindArgs(f.params, e.args, f.env, c, st, fuel),
            P.Arguments(f.params, e.args, at.scope[e.f].scope, at, w, fuel);
        if r.Got? { MeansWaits(o.st, r.value.1, ms); }
        if r.Got? && fuel > 0 {
          var c', at' := c.In(o.r.value).(specAtCall := c.spec), at.(scope := r.value.0);
          BlockValueMeans(f.body, true, c', o.st, at', r.value.1, ms, fuel - 1);
          PopAgrees(BlockValue(f.body, true, c', o.st, fuel - 1), P.ValueOf(f.body, true, at', r.value.1, fuel - 1),
              ms, |st.cells|);
        }
      }
    case _ =>
  }

  lemma {:induction false} PopAgrees(o: Out<Value>, r: P.Run<(Data, P.World)>, ms: seq<Mark>, n: nat)
    requires Agrees(o, r, ms) && n <= |o.st.cells|
    ensures r.Got? ==> o.r == Ok(Known(r.value.0)) && Means(Pop(o.st, n), r.value.1.Leaving(n), ms)
  {
    hide Means;
    if r.Got? { PopMeans(o.st, r.value.1, ms, n); }
  }

  // ----- Comprehensions -----

  lemma {:induction false} AtBound(c: Ctx, at: P.Place, x: string, v: Data)
    requires At(c, at)
    ensures At(c.In(BindVar(c.env, x, Known(v))), at.(scope := P.Bound(at.scope, x, v)))
  {
    BindVarMeans(c.env, at.scope, x, v);
  }

  lemma {:induction false} KeysGrow(ks: seq<Value>, ds: seq<Data>, d: Data)
    requires KeysMean(ks, ds)
    ensures KeysMean(ks + [Known(d)], ds + [d])
  {}

  lemma {:induction false} ComprehendMeans(cp: Comp, ks: seq<Value>, ds: seq<Data>, c: Ctx, st: State, at: P.Place,
          w: P.World, ms: seq<Mark>, fuel: nat)
    requires At(c, at) && Means(st, w, ms) && KeysMean(ks, ds)
    ensures AgreesEntries(Comprehend(cp, ks, c, st, fuel), P.Clauses(cp, ds, at, w, fuel), ms)
    decreases fuel, cp, 1
  {
    hide Eval, P.Evaluate, P.Test, At, Means, CompLoop, P.Each, TupleKey, P.KeyOf, KeysMean;
    match cp
    case Element(e) =>
      EvalMeans(e, c, st, at, w, ms, fuel);
      KeyMeans(ks, ds);
    case Guard(cond, rest) =>
      TestMeans(cond, c, st, at, w, ms, fuel);
      var o, r := Eval(cond, c, st, fuel), P.Test(cond, at, w, fuel);
      if r.Got? && r.value.0 { ComprehendMeans(rest, ks, ds, c, o.st, at, r.value.1, ms, fuel); }
    case Generator(x, iter, rest) =>
      EvalMeans(iter, c, st, at, w, ms, fuel);
      var o, r := Eval(iter, c, st, fuel), P.Evaluate(iter, at, w, fuel);
      if r.Got? {
        MeansWaits(o.st, r.value.1, ms);
        if r.value.0.Coll? { CompLoopMeans(x, r.value.0.entries, rest, ks, ds, c, o.st, at, r.value.1, ms, fuel); }
      }
  }

  lemma {:induction false} CompLoopMeans(x: string, entries: seq<(Data, Data)>, rest: Comp, ks: seq<Value>,
          ds: seq<Data>, c: Ctx, st: State, at: P.Place, w: P.World, ms: seq<Mark>, fuel: nat)
    requires At(c, at) && Means(st, w, ms) && KeysMean(ks, ds)
    ensures AgreesEntries(CompLoop(x, entries, rest, ks, c, st, fuel), P.Each(x, entries, rest, ds, at, w, fuel), ms)
    decreases fuel, rest, 2 + |entries|
  {
    hide Comprehend, P.Clauses, At, Means, KeysMean;
    if |entries| > 0 {
      var (k, v) := entries[0];
      AtBound(c, at, x, v);
      KeysGrow(ks, ds, k);
      var c', at' := c.In(BindVar(c.env, x, Known(v))), at.(scope := P.Bound(at.scope, x, v));
      ComprehendMeans(rest, ks + [Known(k)], ds + [k], c', st, at', w, ms, fuel);
      var o, r := Comprehend(rest, ks + [Known(k)], c', st, fuel), P.Clauses(rest, ds + [k], at', w, fuel);
      if r.Got? { CompLoopMeans(x, entries[1..], rest, ks, ds, c, o.st, at, r.value.1, ms, fuel); }
    }
  }

  // ----- Blocks, branches and arms -----

  lemma {:induction false} BlockMeans(e: Expr, c: Ctx, st: State, at: P.Place, w: P.World, ms: seq<Mark>, fuel: nat)
    requires e.Block? && At(c, at) && Means(st, w, ms)
    ensures Agrees(EvalRaw(e, c, st, fuel), P.Evaluate(e, at, w, fuel), ms)
    decreases fuel, e, 0
  {
    hide Eval, EvalAll, EvalChain, EvalBool, EvalCall, Comprehend, RunBranches, RunMatch, ReadName, Apply, CollectionOf,
        Lookup, P.EvaluateAll, P.Compares, P.Decide, P.Test, P.Invoke, P.Clauses, P.ValueOfBlock, P.ReadName,
        Operators.Result, Operators.Gathered, At, Means;
    if e.stmt.If? {
      BranchesValue(e.stmt, false, c, st, at, w, ms, fuel);
    } else if e.stmt.Match? {
      MatchValue(e.stmt, false, c, st, at, w, ms, fuel);
    } else {
      MeansWaits(st, w, ms);
      NoValue(e.stmt, at, w, fuel);
    }
  }

  lemma {:induction false} NoValue(s: Stmt, at: P.Place, w: P.World, fuel: nat)
    requires !s.If? && !s.Match?
    ensures P.ValueOfBlock(s, false, at, w, fuel) == P.Fails(Refused)
  {
    hide P.Taken, P.Matched;
  }

  /** The branch an `if` takes is the one that runs, from the state its conditions leave. */
  lemma {:induction false} TakenMeans(bs: Branches, m: Mode, c: Ctx, st: State, at: P.Place, w: P.World, ms: seq<Mark>,
          fuel: nat)
    returns (st': State)
    requires At(c, at) && Means(st, w, ms)
    ensures AgreesTaken(RunBranches(bs, m, c, st, fuel), P.Taken(bs, at, w, fuel), m, c, st', ms, fuel)
    decreases fuel, bs, 1
  {
    hide Eval, P.Test, At, Means, RunBody, SpecConds, SpecBodies;
    st' := st;
    match bs
    case NoElse => MeansWaits(st, w, ms);
    case Else(body) =>
    case Branch(cond, body, rest) =>
      TestMeans(cond, c, st, at, w, ms, fuel);
      var o, r := Eval(cond, c, st, fuel), P.Test(cond, at, w, fuel);
      if r.Got? {
        st' := o.st;
        if !r.value.0 { st' := TakenMeans(rest, m, c, o.st, at, r.value.1, ms, fuel); }
      }
  }

  ghost predicate AgreesTaken(o: Out<Option<Value>>, r: P.Run<(Option<Stmts>, P.World)>, m: Mode, c: Ctx, st: State,
          ms: seq<Mark>, fuel: nat) {
    match r
    case Got((Some(body), w)) => o == RunBody(body, m, c, st, fuel) && Means(st, w, ms)
    case Got((None, w)) => o.st.waited == {} && if m.Run? then o.r == Ok(None) && Means(o.st, w, ms)
        else o.r == Err(Refused)
    case Fails(e) => o.r == Err(e) && o.st.waited == {}
    case Unanswered => o.st.waited != {}
  }

  lemma {:induction false} BranchesValue(s: Stmt, unit: bool, c: Ctx, st: State, at: P.Place, w: P.World,
          ms: seq<Mark>, fuel: nat)
    requires s.If? && At(c, at) && Means(st, w, ms)
    ensures Agrees(Denoted(RunBranches(s.branches, Denote(unit), c, st, fuel)), P.ValueOfBlock(s, unit, at, w, fuel),
            ms)
    decreases fuel, s, 1
  {
    hide RunBranches, RunBody, P.Taken, P.Matched, P.ValueOfBody, At, Means;
    var st1 := TakenMeans(s.branches, Denote(unit), c, st, at, w, ms, fuel);
    var r := P.Taken(s.branches, at, w, fuel);
    if r.Got? && r.value.0.Some? { BodyValueMeans(r.value.0.value, unit, c, st1, at, r.value.1, ms, fuel); }
  }

  lemma {:induction false} BodyValueMeans(body: Stmts, unit: bool, c: Ctx, st: State, at: P.Place, w: P.World,
          ms: seq<Mark>, fuel: nat)
    requires At(c, at) && Means(st, w, ms)
    ensures Agrees(Denoted(RunBody(body, Denote(unit), c, st, fuel)), P.ValueOfBody(body, unit, at, w, fuel), ms)
    decreases fuel, body, 1
  {
    hide BlockValue, P.ValueOf, At, Means;
    MeansWaits(st, w, ms);
    BlockValueMeans(body, unit, c, st, at, w, ms, fuel);
    PopAgrees(BlockValue(body, unit, c, st, fuel), P.ValueOf(body, unit, at, w, fuel), ms, |st.cells|);
  }

  /** A body in a scope of its own. */
  lemma {:induction false} BodyMeans(body: Stmts, c: Ctx, st: State, at: P.Place, w: P.World, ms: seq<Mark>, fuel: nat)
    requires At(c, at) && Means(st, w, ms)
    ensures AgreesReturn(RunBody(body, Run, c, st, fuel), P.Within(body, at, w, fuel), ms)
    decreases fuel, body, 1
  {
    hide ExecStmts, P.ExecuteAll, At, Means;
    MeansWaits(st, w, ms);
    ExecStmtsMeans(body, c, st, at, w, ms, fuel);
    var d, r := ExecStmts(body, c, st, fuel), P.ExecuteAll(body, at, w, fuel);
    if r.Got? { PopMeans(d.st, r.value.1, ms, |st.cells|); }
  }

  lemma {:induction false} BlockValueMeans(body: Stmts, unit: bool, c: Ctx, st: State, at: P.Place, w: P.World,
          ms: seq<Mark>, fuel: nat)
    requires At(c, at) && Means(st, w, ms)
    ensures Agrees(BlockValue(body, unit, c, st, fuel), P.ValueOf(body, unit, at, w, fuel), ms)
    decreases fuel, body, 0
  {
    hide Exec, P.Execute, LastValue, P.ValueOfLast, At, Means;
    MeansWaits(st, w, ms);
    if body.MoreStmts? {
      if body.tail.NoStmts? {
        LastValueMeans(body.head, unit, c, st, at, w, ms, fuel);
      } else {
        ExecMeans(body.head, c, st, at, w, ms, fuel);
        var d, r := Exec(body.head, c, st, fuel), P.Execute(body.head, at, w, fuel);
        if r.Got? && r.value.0.On? {
          AtIn(c, at, d.env, r.value.0.scope);
          BlockValueMeans(body.tail, unit, c.In(d.env), d.st, at.(scope := r.value.0.scope), r.value.1, ms, fuel);
        }
      }
    }
  }

  lemma {:induction false} LastValueMeans(s: Stmt, unit: bool, c: Ctx, st: State, at: P.Place, w: P.World,
          ms: seq<Mark>, fuel: nat)
    requires At(c, at) && Means(st, w, ms)
    ensures Agrees(LastValue(s, unit, c, st, fuel), P.ValueOfLast(s, unit, at, w, fuel), ms)
    decreases fuel, s, 5
  {
    hide Eval, P.Evaluate, Exec, P.Execute, RunMatch, RunBranches, P.ValueOfBlock, At, Means;
    MeansWaits(st, w, ms);
    if s.ExprStmt? || s.Return? {
      EvalMeans(s.e, c, st, at, w, ms, fuel);
    } else if s.Match? {
      MatchValue(s, unit, c, st, at, w, ms, fuel);
    } else if s.If? && HasElse(s.branches) {
      BranchesValue(s, unit, c, st, at, w, ms, fuel);
    } else if unit {
      ExecMeans(s, c, st, at, w, ms, fuel);
    }
  }

  /** The arm a `match` takes is the one that runs, with what its pattern binds. */
  lemma {:induction false} ArmMeans(arms: Arms, v: Data, m: Mode, c: Ctx, st: State, at: P.Place,
          fuel: nat) returns (env: Env)
    requires At(c, at)
    ensures match P.TakenArm(arms, v)
            case Got((body, binds)) => && RunArms(arms, v, m, c, st, fuel) == RunBody(body, m, c.In(env), st, fuel)
                                       && ScopeMeans(env, P.BoundAll(at.scope, binds))
            case Fails(e) => RunArms(arms, v, m, c, st, fuel) == Out(Err(e), st)
            case Unanswered => false
    decreases arms
  {
    hide RunBody, MatchPattern, P.Fits, P.BoundAll, ScopeMeans, BindMap;
    env := c.env;
    match arms
    case NoArms =>
    case Arm(p, body, rest) =>
      FitMeans(p, v);
      match P.Fits(p, v)
      case Unfit =>
      case Other => env := ArmMeans(rest, v, m, c, st, at, fuel);
      case Fitting(binds) =>
        var found := MatchPattern(p, v).value.value;
        env := BindAll(c.env, found);
        BindAllMeans(c.env, at.scope, found);
  }

  lemma {:induction false} MatchedMeans(s: Stmt, m: Mode, c: Ctx, st: State, at: P.Place, w: P.World, ms: seq<Mark>,
          fuel: nat)
    returns (c': Ctx, st': State)
    requires s.Match? && At(c, at) && Means(st, w, ms)
    ensures AgreesMatched(RunMatch(s, m, c, st, fuel), P.Matched(s, at, w, fuel), m, c', st', ms, fuel)
    decreases fuel, s, 0
  {
    hide Eval, P.Evaluate, RunArms, P.TakenArm, SpecArms, RunBody, At, Means;
    c', st' := c, st;
    EvalMeans(s.scrutinee, c, st, at, w, ms, fuel);
    var o, r := Eval(s.scrutinee, c, st, fuel), P.Evaluate(s.scrutinee, at, w, fuel);
    if r.Got? {
      MeansWaits(o.st, r.value.1, ms);
      if r.value.0.Variant? || r.value.0.Nominal? {
        var env := ArmMeans(s.arms, r.value.0, m, c, o.st, at, fuel);
        c', st' := c.In(env), o.st;
        var arm := P.TakenArm(s.arms, r.value.0);
        if arm.Got? { AtIn(c, at, env, P.BoundAll(at.scope, arm.value.1)); }
      }
    }
  }

  ghost predicate AgreesMatched(o: Out<Option<Value>>, r: P.Run<((Stmts, P.Place), P.World)>, m: Mode, c: Ctx,
          st: State, ms: seq<Mark>, fuel: nat) {
    match r
    case Got(((body, at), w)) => o == RunBody(body, m, c, st, fuel) && At(c, at) && Means(st, w, ms)
    case Fails(e) => o.r == Err(e) && o.st.waited == {}
    case Unanswered => o.st.waited != {}
  }

  lemma {:induction false} MatchValue(s: Stmt, unit: bool, c: Ctx, st: State, at: P.Place, w: P.World, ms: seq<Mark>,
          fuel: nat)
    requires s.Match? && At(c, at) && Means(st, w, ms)
    ensures Agrees(Denoted(RunMatch(s, Denote(unit), c, st, fuel)), P.ValueOfBlock(s, unit, at, w, fuel), ms)
    decreases fuel, s, 1
  {
    hide RunMatch, RunBody, P.Taken, P.Matched, P.ValueOfBody, At, Means;
    var c1, st1 := MatchedMeans(s, Denote(unit), c, st, at, w, ms, fuel);
    var r := P.Matched(s, at, w, fuel);
    if r.Got? { BodyValueMeans(r.value.0.0, unit, c1, st1, r.value.0.1, r.value.1, ms, fuel); }
  }

  // ----- Statements -----

  lemma {:induction false} ExecStmtsMeans(ss: Stmts, c: Ctx, st: State, at: P.Place, w: P.World, ms: seq<Mark>,
          fuel: nat)
    requires At(c, at) && Means(st, w, ms)
    ensures AgreesFlow(ExecStmts(ss, c, st, fuel), P.ExecuteAll(ss, at, w, fuel), ms)
    decreases fuel, ss, 0
  {
    hide Exec, P.Execute, Means;
    if ss.MoreStmts? {
      ExecMeans(ss.head, c, st, at, w, ms, fuel);
      var d, r := Exec(ss.head, c, st, fuel), P.Execute(ss.head, at, w, fuel);
      if r.Got? && r.value.0.On? {
        AtIn(c, at, d.env, r.value.0.scope);
        hide At, ScopeMeans;
        ExecStmtsMeans(ss.tail, c.In(d.env), d.st, at.(scope := r.value.0.scope), r.value.1, ms, fuel);
      }
    }
  }

  lemma {:induction false} ExecMeans(s: Stmt, c: Ctx, st: State, at: P.Place, w: P.World, ms: seq<Mark>, fuel: nat)
    requires At(c, at) && Means(st, w, ms)
    ensures AgreesFlow(Exec(s, c, st, fuel), P.Execute(s, at, w, fuel), ms)
    decreases fuel, s, 4
  {
    hide ExecRaw, P.Execute, At, Means;
    AtPlain(c, at);
    ExecRawMeans(s, c, st, at, w, ms, fuel);
  }

  lemma {:induction false} ExecRawMeans(s: Stmt, c: Ctx, st: State, at: P.Place, w: P.World, ms: seq<Mark>, fuel: nat)
    requires At(c, at) && Means(st, w, ms)
    ensures AgreesFlow(ExecRaw(s, c, st, fuel), P.Execute(s, at, w, fuel), ms)
    decreases fuel, s, 3
  {
    hide ExecRaw, P.Execute, At, Means;
    match s
    case Assign(_, _) => AssignMeans(s, c, st, at, w, ms, fuel);
    case MutAssign(_, _, _) => MutAssignMeans(s, c, st, at, w, ms, fuel);
    case KeyedAssign(_, _, _) => KeyedAssignMeans(s, c, st, at, w, ms, fuel);
    case AugAssign(_, _, _) => AugAssignMeans(s, c, st, at, w, ms, fuel);
    case Define(_, _) => DefineStmtMeans(s, c, st, at, w, ms, fuel);
    case Feed(_, _, _) => FeedStmtMeans(s, c, st, at, w, ms, fuel);
    case If(_) => IfMeans(s, c, st, at, w, ms, fuel);
    case Match(_, _) => MatchMeans(s, c, st, at, w, ms, fuel);
    case For(_, _, _) => ForMeans(s, c, st, at, w, ms, fuel);
    case With(_, _) => WithMeans(s, c, st, at, w, ms, fuel);
    case _ => SimpleMeans(s, c, st, at, w, ms, fuel);
  }

  lemma {:induction false} SimpleMeans(s: Stmt, c: Ctx, st: State, at: P.Place, w: P.World, ms: seq<Mark>, fuel: nat)
    requires s.FunctionDef? || s.Return? || s.ReturnUnit? || s.ExprStmt? || s.Pass?
    requires At(c, at) && Means(st, w, ms)
    ensures AgreesFlow(ExecRaw(s, c, st, fuel), P.Execute(s, at, w, fuel), ms)
    decreases fuel, s, 2
  {
    hide Eval, RunBranches, RunMatch, ExecFor, ExecWith, BindingOf, P.Evaluate, P.Holding, P.Taken, P.Matched,
        P.Within, P.Loop,
        Means, ScopeMeans, Capture, P.Kept;
    MeansWaits(st, w, ms);
    if s.FunctionDef? {
      FunctionMeans(s.params, s.body, c, st, at, w, ms);
      ScopeGrows(c.env, at.scope, s.x, Fn(Function(s.params, s.body, Capture(c.env, st.cells))),
        P.Fn(s.params, s.body, P.Kept(at.scope, w.vars)));
    } else if s.Return? || s.ExprStmt? {
      EvalMeans(s.e, c, st, at, w, ms, fuel);
    }
  }

  lemma {:induction false} FunctionMeans(params: seq<Param>, body: Stmts, c: Ctx, st: State, at: P.Place, w: P.World,
          ms: seq<Mark>)
    requires At(c, at) && Means(st, w, ms)
    ensures SlotMeans(Fn(Function(params, body, Capture(c.env, st.cells))),
            P.Fn(params, body, P.Kept(at.scope, w.vars)))
  {
    CaptureMeans(c.env, at.scope, st.cells, w.vars);
  }

  lemma {:induction false} AssignMeans(s: Stmt, c: Ctx, st: State, at: P.Place, w: P.World, ms: seq<Mark>, fuel: nat)
    requires s.Assign? && At(c, at) && Means(st, w, ms)
    ensures AgreesFlow(ExecRaw(s, c, st, fuel), P.Execute(s, at, w, fuel), ms)
    decreases fuel, s, 2
  {
    hide Eval, RunBranches, RunMatch, ExecFor, ExecWith, BindingOf, P.Evaluate, P.Holding, P.Taken, P.Matched,
        P.Within, P.Loop,
        Means, ScopeMeans, SlotMeans;
    BindingMeans(s.e, c, st, at, w, ms, fuel);
    var o, r := BindingOf(s.e, c, st, fuel), P.Holding(s.e, at, w, fuel);
    if r.Got? { ScopeGrows(c.env, at.scope, s.x, o.r.value, r.value.0); }
  }

  lemma {:induction false} MutAssignMeans(s: Stmt, c: Ctx, st: State, at: P.Place, w: P.World, ms: seq<Mark>, fuel: nat)
    requires s.MutAssign? && At(c, at) && Means(st, w, ms)
    ensures AgreesFlow(ExecRaw(s, c, st, fuel), P.Execute(s, at, w, fuel), ms)
    decreases fuel, s, 2
  {
    hide Eval, RunBranches, RunMatch, ExecFor, ExecWith, BindingOf, P.Evaluate, P.Holding, P.Taken, P.Matched,
        P.Within, P.Loop,
        Means, ScopeMeans, SlotMeans, Lookup, Write, P.WriteVar;
    EvalMeans(s.e, c, st, at, w, ms, fuel);
    ByRefMeans(s.x, c, at);
    var o, r := Eval(s.e, c, st, fuel), P.Evaluate(s.e, at, w, fuel);
    if r.Got? {
      MeansWaits(o.st, r.value.1, ms);
      if s.x in at.scope && at.scope[s.x].Var? {
        WriteMeans(c, o.st, r.value.1, ms, at.scope[s.x].loc, r.value.0);
      } else {
        MadeMeans(o.st, r.value.1, ms, s.x, s.txn, r.value.0);
        SlotMade(|o.st.cells|);
        ScopeGrows(c.env, at.scope, s.x, Mut(|o.st.cells|), P.Var(|o.st.cells|));
      }
    }
  }

  lemma {:induction false} SlotMade(n: nat)
    ensures SlotMeans(Mut(n), P.Var(n))
  {}

  lemma {:induction false} KeyedAssignMeans(s: Stmt, c: Ctx, st: State, at: P.Place, w: P.World, ms: seq<Mark>,
          fuel: nat)
    requires s.KeyedAssign? && At(c, at) && Means(st, w, ms)
    ensures AgreesFlow(ExecRaw(s, c, st, fuel), P.Execute(s, at, w, fuel), ms)
    decreases fuel, s, 2
  {
    hide Eval, RunBranches, RunMatch, ExecFor, ExecWith, BindingOf, P.Evaluate, P.Holding, P.Taken, P.Matched,
        P.Within, P.Loop,
        Means, ScopeMeans, SlotMeans, Lookup, P.PutKey, AssignKey;
    EvalMeans(s.e, c, st, at, w, ms, fuel);
    var o, r := Eval(s.e, c, st, fuel), P.Evaluate(s.e, at, w, fuel);
    if r.Got? {
      EvalMeans(s.index, c, o.st, at, r.value.1, ms, fuel);
      var k, q := Eval(s.index, c, o.st, fuel), P.Evaluate(s.index, at, r.value.1, fuel);
      if q.Got? { AssignKeyMeans(s.x, q.value.0, r.value.0, c, k.st, at, q.value.1, ms); }
    }
  }

  lemma {:induction false} AssignKeyMeans(x: string, k: Data, v: Data, c: Ctx, st: State, at: P.Place, w: P.World,
          ms: seq<Mark>)
    requires At(c, at) && Means(st, w, ms)
    ensures var o := AssignKey(x, Known(k), Known(v), c, st);
            match P.PutKey(x, k, v, at, w)
            case Got(w') => o.r == Ok(()) && Means(o.st, w', ms)
            case Fails(e) => o.r == Err(e) && o.st.waited == {}
            case Unanswered => false
  {
    hide ScopeMeans, SlotMeans, Lookup, Write, P.WriteVar, KeyWritten, Operators.Rebound, Operators.Gathered,
        ChannelsMean,
        WatchesMean;
    ByRefMeans(x, c, at);
    if x in at.scope && at.scope[x].Var? && at.scope[x].loc < |w.vars| {
      var loc := at.scope[x].loc;
      var was := w.vars[loc].value;
      assert st.cells[loc].value == Known(was);
      assert !AnyPending([Known(k), Known(v), Known(was)]);
      if was.Coll? {
        KeyWrittenMeans(was, k, v);
        var now := KeyWritten(Known(was), Known(k), Known(v));
        if now.Ok? { WriteMeans(c, st, w, ms, loc, now.value.d); }
      } else {
        NotWritten(was, k, v);
      }
    }
  }

  lemma {:induction false} NotWritten(was: Data, k: Data, v: Data)
    requires !was.Coll?
    ensures KeyWritten(Known(was), Known(k), Known(v)) == Err(Refused)
  {}

  lemma {:induction false} AugAssignMeans(s: Stmt, c: Ctx, st: State, at: P.Place, w: P.World, ms: seq<Mark>, fuel: nat)
    requires s.AugAssign? && At(c, at) && Means(st, w, ms)
    ensures AgreesFlow(ExecRaw(s, c, st, fuel), P.Execute(s, at, w, fuel), ms)
    decreases fuel, s, 2
  {
    hide Eval, RunBranches, RunMatch, ExecFor, ExecWith, BindingOf, P.Evaluate, P.Holding, P.Taken, P.Matched,
        P.Within, P.Loop,
        Means, ScopeMeans, SlotMeans, Lookup, Write, P.WriteVar, ReadMut, P.ReadVar, Apply, Operators.Result;
    MeansWaits(st, w, ms);
    ByRefMeans(s.x, c, at);
    if s.x in at.scope && at.scope[s.x].Var? {
      var loc := at.scope[s.x].loc;
      ReadMutMeans(s.x, loc, st, w, ms);
      var was := P.ReadVar(s.x, loc, w);
      if was.Got? {
        EvalMeans(s.e, c, st, at, w, ms, fuel);
        var o, r := Eval(s.e, c, st, fuel), P.Evaluate(s.e, at, w, fuel);
        if r.Got? {
          MeansWaits(o.st, r.value.1, ms);
          ApplyMeans(Binary(s.op), [Known(was.value), o.r.value], [was.value, r.value.0]);
          var now := Operators.Result(Binary(s.op), [was.value, r.value.0]);
          if now.Some? { WriteMeans(c, o.st, r.value.1, ms, loc, now.value); }
        }
      }
    }
  }

  lemma {:induction false} DefineStmtMeans(s: Stmt, c: Ctx, st: State, at: P.Place, w: P.World, ms: seq<Mark>,
          fuel: nat)
    requires s.Define? && At(c, at) && Means(st, w, ms)
    ensures AgreesFlow(ExecRaw(s, c, st, fuel), P.Execute(s, at, w, fuel), ms)
    decreases fuel, s, 2
  {
    hide Eval, RunBranches, RunMatch, ExecFor, ExecWith, BindingOf, P.Evaluate, P.Holding, P.Taken, P.Matched,
        P.Within, P.Loop,
        Means, ScopeMeans, SlotMeans, Lookup, P.Defining;
    EvalMeans(s.e, c, st, at, w, ms, fuel);
    ByRefMeans(s.x, c, at);
    var o, r := Eval(s.e, c, st, fuel), P.Evaluate(s.e, at, w, fuel);
    if r.Got? {
      MeansWaits(o.st, r.value.1, ms);
      if s.x in at.scope && at.scope[s.x].Chan? {
        DefineMeans(at.scope[s.x].key, s.x, r.value.0, c, o.st, at, r.value.1, ms);
      } else {
        ValueSlot(r.value.0);
        ScopeGrows(c.env, at.scope, s.x, Val(Known(r.value.0)), P.Val(r.value.0));
      }
    }
  }

  lemma {:induction false} ValueSlot(v: Data)
    ensures SlotMeans(Val(Known(v)), P.Val(v))
  {}

  lemma {:induction false} FeedStmtMeans(s: Stmt, c: Ctx, st: State, at: P.Place, w: P.World, ms: seq<Mark>, fuel: nat)
    requires s.Feed? && At(c, at) && Means(st, w, ms)
    ensures AgreesFlow(ExecRaw(s, c, st, fuel), P.Execute(s, at, w, fuel), ms)
    decreases fuel, s, 2
  {
    hide Eval, RunBranches, RunMatch, ExecFor, ExecWith, BindingOf, P.Evaluate, P.Holding, P.Taken, P.Matched,
        P.Within, P.Loop,
        Means, ScopeMeans, SlotMeans, Lookup, FeedInto, P.Feeding;
    MeansWaits(st, w, ms);
    ByRefMeans(s.x, c, at);
    if s.x in at.scope && at.scope[s.x].Chan? {
      EvalMeans(s.e, c, st, at, w, ms, fuel);
      var o, r := Eval(s.e, c, st, fuel), P.Evaluate(s.e, at, w, fuel);
      if r.Got? { FeedMeans(at.scope[s.x].key, c.calls + [s.at], r.value.0, c, o.st, at, r.value.1, ms); }
    }
  }

  lemma {:induction false} IfMeans(s: Stmt, c: Ctx, st: State, at: P.Place, w: P.World, ms: seq<Mark>, fuel: nat)
    requires s.If? && At(c, at) && Means(st, w, ms)
    ensures AgreesFlow(ExecRaw(s, c, st, fuel), P.Execute(s, at, w, fuel), ms)
    decreases fuel, s, 2
  {
    hide Eval, RunBranches, RunMatch, ExecFor, ExecWith, BindingOf, P.Evaluate, P.Holding, P.Taken, P.Matched,
        P.Within, P.Loop,
        Means, ScopeMeans, RunBody;
    var st1 := TakenMeans(s.branches, Run, c, st, at, w, ms, fuel);
    var r := P.Taken(s.branches, at, w, fuel);
    if r.Got? && r.value.0.Some? { BodyMeans(r.value.0.value, c, st1, at, r.value.1, ms, fuel); }
  }

  lemma {:induction false} MatchMeans(s: Stmt, c: Ctx, st: State, at: P.Place, w: P.World, ms: seq<Mark>, fuel: nat)
    requires s.Match? && At(c, at) && Means(st, w, ms)
    ensures AgreesFlow(ExecRaw(s, c, st, fuel), P.Execute(s, at, w, fuel), ms)
    decreases fuel, s, 2
  {
    hide Eval, RunBranches, RunMatch, ExecFor, ExecWith, BindingOf, P.Evaluate, P.Holding, P.Taken, P.Matched,
        P.Within, P.Loop,
        Means, ScopeMeans, RunBody;
    var c1, st1 := MatchedMeans(s, Run, c, st, at, w, ms, fuel);
    var r := P.Matched(s, at, w, fuel);
    if r.Got? { BodyMeans(r.value.0.0, c1, st1, r.value.0.1, r.value.1, ms, fuel); }
  }

  // ----- Loops and blocks of writes -----

  lemma {:induction false} ForMeans(s: Stmt, c: Ctx, st: State, at: P.Place, w: P.World, ms: seq<Mark>, fuel: nat)
    requires s.For? && At(c, at) && Means(st, w, ms)
    ensures AgreesFlow(ExecRaw(s, c, st, fuel), P.Execute(s, at, w, fuel), ms)
    decreases fuel, s, 2
  {
    hide Eval, RunBranches, RunMatch, LoopOver, ExecWith, BindingOf, P.Evaluate, P.Holding, P.Taken, P.Matched,
        P.Within, P.Loop,
        Means, ScopeMeans;
    EvalMeans(s.iter, c, st, at, w, ms, fuel);
    var o, r := Eval(s.iter, c, st, fuel), P.Evaluate(s.iter, at, w, fuel);
    if r.Got? {
      MeansWaits(o.st, r.value.1, ms);
      LoopOverMeans(r.value.0, s, c, o.st, at, r.value.1, ms, fuel);
    }
  }

  lemma {:induction false} LoopOverMeans(v: Data, s: Stmt, c: Ctx, st: State, at: P.Place, w: P.World, ms: seq<Mark>,
          fuel: nat)
    requires s.For? && At(c, at) && Means(st, w, ms)
    ensures var o := LoopOver(Known(v), s, c, st, fuel);
            if v.Coll? then AgreesReturn(o, P.Loop(s.x, v.entries, s.body, at, w, fuel), ms)
                else o == Out(Err(Refused), st)
    decreases fuel, s.body, if v.Coll? then 4 + |v.entries| else 0
  {
    hide ForLoop, P.Iterate, At, Means, SortEntries, P.Ascending;
    if v.Coll? {
      if Positional(v.entries) {
        SortIs(v.entries);
        P.SameLength(v.entries);
        ForLoopMeans(s.x, SortEntries(v.entries), s.body, c, st, at, w, ms, fuel);
      } else {
        WatchedMeans(st, w, ms);
        var m := (|w.log|, |st.cells|);
        ForLoopMeans(s.x, v.entries, s.body, c, Watched(st), at, w, ms + [m], fuel);
        MeansWaits(st, w, ms);
        UnwatchedMeans(ForLoop(s.x, v.entries, s.body, c, Watched(st), fuel),
            P.Iterate(s.x, v.entries, s.body, at, w, fuel),
          ms, m, |v.entries| > 1);
      }
    }
  }

  lemma {:induction false} WatchedMeans(st: State, w: P.World, ms: seq<Mark>)
    requires Means(st, w, ms)
    ensures Means(Watched(st), w, ms + [(|w.log|, |st.cells|)]) && |st.watches| == |ms|
  {
    ChannelsStayMean(st, Watched(st), w, w);
    assert !P.Outlives(w.log[|w.log|..], |st.cells|);
  }

  /** The end of a watched loop: whether it moved is in the log since it began. */
  lemma {:induction false} UnwatchedMeans(o: Out<Option<Value>>, r: P.Run<(Option<Data>, P.World)>, ms: seq<Mark>,
          m: Mark, several: bool)
    requires AgreesReturn(o, r, ms + [m]) && |o.st.watches| == |ms| + 1
    ensures var p := Unwatched(o, |ms|, several);
            match r
            case Got((v, w)) =>
              if P.Outlives(P.Since(w.log, m.0), m.1) || (several && v.Some?) then p.r == Err(Refused)
                  && p.st.waited == {}
              else p.r.Ok? && ReturnMeans(p.r.value, v) && Means(p.st, w, ms)
            case Fails(e) => p.r == Err(e) && p.st.waited == {}
            case Unanswered => p.st.waited != {}
  {
    if r.Got? {
      var w, n := r.value.1, |ms|;
      assert (ms + [m])[n] == m && WatchMeans(o.st.watches[n], w.log, m);
      var st' := o.st.(watches := o.st.watches[..n]);
      ChannelsStayMean(o.st, st', w, w);
      forall i | 0 <= i < n ensures WatchMeans(st'.watches[i], w.log, ms[i]) {
        assert (ms + [m])[i] == ms[i] && WatchMeans(o.st.watches[i], w.log, ms[i]);
      }
    }
  }

  lemma {:induction false} AtTurn(c: Ctx, at: P.Place, x: string, k: Data, v: Data)
    requires At(c, at)
    ensures At(c.AtKey(Known(k)).In(BindVar(c.env, x, Known(v))),
            at.(scope := P.Bound(at.scope, x, v), keys := at.keys + [k]))
  {
    BindVarMeans(c.env, at.scope, x, v);
    KeysGrow(c.loopKeys, at.keys, k);
  }

  lemma {:induction false} ForLoopMeans(x: string, entries: seq<(Data, Data)>, body: Stmts, c: Ctx, st: State,
          at: P.Place, w: P.World, ms: seq<Mark>, fuel: nat)
    requires At(c, at) && Means(st, w, ms)
    ensures AgreesReturn(ForLoop(x, entries, body, c, st, fuel), P.Iterate(x, entries, body, at, w, fuel), ms)
    decreases fuel, body, 2 + |entries|
  {
    hide RunBody, P.Within, At, Means;
    if |entries| > 0 {
      var (k, v) := entries[0];
      AtTurn(c, at, x, k, v);
      var c' := c.AtKey(Known(k)).In(BindVar(c.env, x, Known(v)));
      var at' := at.(scope := P.Bound(at.scope, x, v), keys := at.keys + [k]);
      BodyMeans(body, c', st, at', w, ms, fuel);
      var o, r := RunBody(body, Run, c', st, fuel), P.Within(body, at', w, fuel);
      if r.Got? && r.value.0.None? { ForLoopMeans(x, entries[1..], body, c, o.st, at, r.value.1, ms, fuel); }
    }
  }

  lemma {:induction false} BegunMeans(st: State, w: P.World, ms: seq<Mark>, site: nat, writes: set<string>)
    requires Means(st, w, ms)
    ensures Means(st.(txn := Some(TxnFrame(site, false, writes, [], false))),
            w.(block := Some(P.Block.Block(site, false, writes, []))), ms)
  {
    ChannelsStayMean(st, st.(txn := Some(TxnFrame(site, false, writes, [], false))), w,
      w.(block := Some(P.Block.Block(site, false, writes, []))));
  }

  lemma {:induction false} WithMeans(s: Stmt, c: Ctx, st: State, at: P.Place, w: P.World, ms: seq<Mark>, fuel: nat)
    requires s.With? && At(c, at) && Means(st, w, ms)
    ensures AgreesFlow(ExecRaw(s, c, st, fuel), P.Execute(s, at, w, fuel), ms)
    decreases fuel, s, 2
  {
    hide Eval, RunBranches, RunMatch, ExecFor, BindingOf, P.Evaluate, P.Holding, P.Taken, P.Matched, P.Within, P.Loop,
        Means,
        ScopeMeans, RunBody, Commit, P.Committing;
    MeansWaits(st, w, ms);
    if st.txn.None? {
      var st0 := st.(txn := Some(TxnFrame(s.site, false, WrittenIn(s.body), [], false)));
      var w0 := w.(block := Some(P.Block.Block(s.site, false, WrittenIn(s.body), [])));
      BegunMeans(st, w, ms, s.site, WrittenIn(s.body));
      BodyMeans(s.body, c, st0, at, w0, ms, fuel);
      var o, r := RunBody(s.body, Run, c, st0, fuel), P.Within(s.body, at, w0, fuel);
      if r.Got? { CommitMeans(o.st, r.value.1, ms); }
    }
  }
}
