/** What a speculative run can do to a pass: nothing but undecide.

    Code whose running depends on a pending value leaves every cell as it was or pending, adds only
    pending contributions and replies, takes no commit time, and moves no watched loop. */
module InterpWeaken {
  import opened Options
  import opened InterpSyntax
  import opened InterpValues
  import opened InterpEval

  ghost predicate CellsWeaker(n: seq<Cell>, o: seq<Cell>) {
    && |o| <= |n|
    && forall i | 0 <= i < |o| :: CellWeaker(n[i], o[i])
  }

  ghost predicate CellWeaker(n: Cell, o: Cell) {
    n == o || n == o.(value := Pending)
  }

  ghost predicate ChannelWeaker(n: Channel, o: Channel) {
    && o.fed <= n.fed
    && (forall i | |o.fed| <= i < |n.fed| :: PendingContribution(n.fed[i]))
    && (n.defined == o.defined || n.defined == Some(Pending))
  }

  /** A site that joined a channel left a pending contribution or a pending reply there. */
  ghost predicate SitesWeaker(n: State, o: State, k: string) {
    || ChannelOf(n, k).sites == ChannelOf(o, k).sites
    || |ChannelOf(n, k).fed| > |ChannelOf(o, k).fed|
    || (n.txn.Some? && k in PendingReplies(n.txn.value.replies))
  }

  ghost predicate TxnWeaker(n: Option<TxnFrame>, o: Option<TxnFrame>) {
    || n == o
    || (&& n.Some? && o.Some? && n.value.uncertain
        && n.value.site == o.value.site && n.value.writes == o.value.writes && n.value.wrote == o.value.wrote
        && o.value.replies <= n.value.replies
        && forall i | |o.value.replies| <= i < |n.value.replies| :: n.value.replies[i].value.Pending?)
  }

  ghost predicate ChannelsWeaker(n: State, o: State) {
    forall k :: ChannelWeaker(ChannelOf(n, k), ChannelOf(o, k)) && SitesWeaker(n, o, k)
  }

  /** `n` is `o` after code that may not run. */
  ghost predicate Weaker(n: State, o: State) {
    && CellsWeaker(n.cells, o.cells)
    && ChannelsWeaker(n, o)
    && n.commitTime == o.commitTime
    && (n.clockKnown ==> o.clockKnown)
    && TxnWeaker(n.txn, o.txn)
    && n.watches == o.watches
  }

  lemma {:induction false} WeakerTrans(a: State, b: State, c: State)
    requires Weaker(a, b) && Weaker(b, c)
    ensures Weaker(a, c)
  {
    assert TxnWeaker(a.txn, c.txn);
    forall k ensures ChannelWeaker(ChannelOf(a, k), ChannelOf(c, k)) && SitesWeaker(a, c, k) {
      assert ChannelWeaker(ChannelOf(a, k), ChannelOf(b, k)) && ChannelWeaker(ChannelOf(b, k), ChannelOf(c, k));
      assert SitesWeaker(a, b, k) && SitesWeaker(b, c, k);
      if b.txn.Some? && k in PendingReplies(b.txn.value.replies) {
        RepliesGrow(a.txn, b.txn, k);
      }
    }
  }

  lemma {:induction false} RepliesGrow(n: Option<TxnFrame>, o: Option<TxnFrame>, k: string)
    requires TxnWeaker(n, o) && o.Some? && k in PendingReplies(o.value.replies)
    ensures n.Some? && k in PendingReplies(n.value.replies)
  {
    var i :| 0 <= i < |o.value.replies| && o.value.replies[i].value.Pending? && o.value.replies[i].chan == k;
    assert n.value.replies[i].value.Pending? && n.value.replies[i].chan == k;
  }

  /** Leaving a scope keeps the cells made before it. */
  lemma {:induction false} WeakerPop(n: State, o: State)
    requires Weaker(n, o)
    ensures Weaker(Pop(n, |o.cells|), o)
    ensures |Pop(n, |o.cells|).cells| == |o.cells|
  {
    assert forall k :: SitesWeaker(n, o, k) ==> SitesWeaker(Pop(n, |o.cells|), o, k);
  }

  /** What only `lost`, `carried` and `waited` tell apart is equally weak. */
  lemma {:induction false} WeakerNotes(n: State, n': State, o: State)
    requires Weaker(n, o)
    requires n' == n.(lost := n'.lost, carried := n'.carried, waited := n'.waited)
    ensures Weaker(n', o)
  {
    assert forall k :: SitesWeaker(n, o, k) ==> SitesWeaker(n', o, k);
  }

  // ----- The steps that change a state -----

  lemma {:induction false} WriteWeakens(c: Ctx, st: State, loc: nat, v: Value)
    requires c.spec > 0
    ensures Weaker(Write(c, st, loc, v).st, st)
  {
  }

  lemma {:induction false} ChannelsOthers(n: State, o: State, key: string)
    requires n.chans == o.chans[key := ChannelOf(n, key)] && n.txn == o.txn
    requires ChannelWeaker(ChannelOf(n, key), ChannelOf(o, key)) && SitesWeaker(n, o, key)
    ensures ChannelsWeaker(n, o)
  {
    forall k ensures ChannelWeaker(ChannelOf(n, k), ChannelOf(o, k)) && SitesWeaker(n, o, k) {
      if k != key { assert ChannelOf(n, k) == ChannelOf(o, k); }
    }
  }

  lemma {:induction false} DefineWeakens(x: string, v: Value, c: Ctx, st: State)
    requires c.spec > 0
    ensures Weaker(DefineAs(x, v, c, st).st, st)
  {
    var n := DefineAs(x, v, c, st).st;
    match Lookup(c.env, x)
    case Some(Chan(key)) => ChannelsOthers(n, st, key);
    case _ =>
  }

  lemma {:induction false} ContributeWeakens(st: State, key: string, c: Contribution)
    requires PendingContribution(c)
    ensures Weaker(Contribute(st, key, c), st)
    ensures |ChannelOf(Contribute(st, key, c), key).fed| > |ChannelOf(st, key).fed|
    ensures forall k | k != key :: ChannelOf(Contribute(st, key, c), k) == ChannelOf(st, k)
  {
    ChannelsOthers(Contribute(st, key, c), st, key);
  }

  lemma {:induction false} FeedWeakens(key: string, site: Site, v: Value, c: Ctx, st: State)
    requires c.spec > 0
    ensures Weaker(FeedInto(key, site, v, c, st), st)
  {
    var n := FeedInto(key, site, v, c, st);
    var joined := JoinSite(st, key, site);
    match st.txn
    case None =>
      assert ChannelOf(n, key).fed == ChannelOf(st, key).fed + [Contribution(site, TupleKey(c.loopKeys), Pending)];
      assert n.chans == st.chans[key := ChannelOf(n, key)];
      ChannelsOthers(n, st, key);
    case Some(frame) =>
      var r := n.txn.value.replies;
      assert r[|r| - 1].value.Pending? && r[|r| - 1].chan == key;
      forall k ensures ChannelWeaker(ChannelOf(n, k), ChannelOf(st, k)) && SitesWeaker(n, st, k) {
        if k != key { assert ChannelOf(n, k) == ChannelOf(st, k); }
      }
  }

  /** Pushing replies as pending adds one pending contribution to each channel replied to. */
  lemma {:induction false} PushWeakens(st: State, replies: seq<Reply>)
    ensures var n := PushReplies(st, replies, Pending, true);
            && Weaker(n, st)
            && forall k | k in RepliedTo(replies) :: |ChannelOf(n, k).fed| > |ChannelOf(st, k).fed|
    decreases |replies|
  {
    if |replies| > 0 {
      var r := replies[0];
      var c := Contribution(r.site, Pending, Pending);
      var st1 := Contribute(st, r.chan, c);
      ContributeWeakens(st, r.chan, c);
      PushWeakens(st1, replies[1..]);
      var n := PushReplies(st1, replies[1..], Pending, true);
      WeakerTrans(n, st1, st);
      forall k | k in RepliedTo(replies) ensures |ChannelOf(n, k).fed| > |ChannelOf(st, k).fed| {
        assert ChannelWeaker(ChannelOf(n, k), ChannelOf(st1, k));
        if k != r.chan {
          var i :| 0 <= i < |replies| && replies[i].chan == k;
          assert replies[1..][i - 1].chan == k;
          assert k in RepliedTo(replies[1..]);
        }
      }
    }
  }

  /** A block begun while speculating either denied or is undecided. */
  lemma {:induction false} CommitWeakens(st: State, ran: State, frame: TxnFrame)
    requires st.txn.None? && !frame.wrote && frame.replies == [] && !frame.uncertain
    requires ran.txn.Some? && Weaker(ran, st.(txn := Some(frame)))
    ensures Weaker(Commit(ran.txn.value, ran.(txn := None)), st)
  {
    var f := ran.txn.value;
    var after := ran.(txn := None);
    if f.uncertain {
      var base := after.(clockKnown := false);
      PushWeakens(base, f.replies);
      var n := PushReplies(base, f.replies, Pending, true);
      assert n == Commit(f, after);
      forall k ensures ChannelWeaker(ChannelOf(n, k), ChannelOf(st, k)) && SitesWeaker(n, st, k) {
        assert ChannelOf(base, k) == ChannelOf(ran, k);
        assert ChannelWeaker(ChannelOf(n, k), ChannelOf(base, k)) && SitesWeaker(n, base, k);
        assert ChannelWeaker(ChannelOf(ran, k), ChannelOf(st, k)) && SitesWeaker(ran, st.(txn := Some(frame)), k);
        if k in PendingReplies(f.replies) { assert k in RepliedTo(f.replies); }
      }
    } else {
      assert f == frame;
      forall k ensures ChannelWeaker(ChannelOf(after, k), ChannelOf(st, k)) && SitesWeaker(after, st, k) {
        assert ChannelWeaker(ChannelOf(ran, k), ChannelOf(st, k)) && SitesWeaker(ran, st.(txn := Some(frame)), k);
      }
    }
  }

  // ----- Expressions -----

  lemma {:induction false} EvalWeakens(e: Expr, c: Ctx, st: State, fuel: nat)
    requires c.spec > 0
    ensures Weaker(Eval(e, c, st, fuel).st, st)
    decreases fuel, e, 2
  {
    hide EvalRaw;
    EvalRawWeakens(e, c, st, fuel);
    WeakerNotes(EvalRaw(e, c, st, fuel).st, Eval(e, c, st, fuel).st, st);
  }

  lemma {:induction false} EvalRawWeakens(e: Expr, c: Ctx, st: State, fuel: nat)
    requires c.spec > 0
    ensures Weaker(EvalRaw(e, c, st, fuel).st, st)
    decreases fuel, e, 1
  {
    hide Eval, EvalAll, EvalChain, EvalBool, EvalCall, Comprehend, RunBranches, RunMatch;
    match e
    case Literal(_) =>
    case Name(x) => WeakerNotes(st, ReadName(x, c, st).st, st);
    case Strict(_, args) => EvalAllWeakens(args, c, st, fuel);
    case Compare(first, rest) =>
      EvalWeakens(first, c, st, fuel);
      var o := Eval(first, c, st, fuel);
      EvalChainWeakens(o.r.value, rest, c, o.st, fuel);
      WeakerTrans(EvalChain(o.r.value, rest, c, o.st, fuel).st, o.st, st);
    case BoolOp(conj, operands) => EvalBoolWeakens(conj, operands, c, st, fuel);
    case IfExp(_, _, _) => EvalIfWeakens(e, c, st, fuel);
    case Block(s) =>
      if s.If? { RunBranchesWeakens(s.branches, Denote(false), c, st, fuel); }
      if s.Match? { RunMatchWeakens(s, Denote(false), c, st, fuel); }
    case Call(_, _, at) => EvalCallWeakens(e, c.(calls := c.calls + [at]), st, fuel);
    case ListComp(comp) => ComprehendWeakens(comp, [], c, st, fuel);
    case Lambda(_, _) =>
    case AwaitFinal(_) =>
  }

  lemma {:induction false} EvalIfWeakens(e: Expr, c: Ctx, st: State, fuel: nat)
    requires e.IfExp? && c.spec > 0
    ensures Weaker(EvalRaw(e, c, st, fuel).st, st)
    decreases fuel, e, 0
  {
    hide Weaker, ExecRaw;
    EvalWeakens(e.cond, c, st, fuel);
    var o := Eval(e.cond, c, st, fuel);
    var c' := c.Speculate();
    if o.r.value.Pending? {
      EvalWeakens(e.thn, c', o.st, fuel);
      var s2 := Eval(e.thn, c', o.st, fuel).st;
      EvalWeakens(e.els, c', s2, fuel);
      WeakerTrans(s2, o.st, st);
      WeakerTrans(Eval(e.els, c', s2, fuel).st, s2, st);
    } else if o.r.value.d == Bool(true) {
      EvalWeakens(e.thn, c, o.st, fuel);
      WeakerTrans(Eval(e.thn, c, o.st, fuel).st, o.st, st);
    } else if o.r.value.d == Bool(false) {
      EvalWeakens(e.els, c, o.st, fuel);
      WeakerTrans(Eval(e.els, c, o.st, fuel).st, o.st, st);
    }
  }

  lemma {:induction false} EvalAllWeakens(es: Exprs, c: Ctx, st: State, fuel: nat)
    requires c.spec > 0
    ensures Weaker(EvalAll(es, c, st, fuel).st, st)
    decreases fuel, es, 0
  {
    hide EvalRaw;
    if es.MoreExprs? {
      EvalWeakens(es.head, c, st, fuel);
      var s1 := Eval(es.head, c, st, fuel).st;
      EvalAllWeakens(es.tail, c, s1, fuel);
      WeakerTrans(EvalAll(es.tail, c, s1, fuel).st, s1, st);
    }
  }

  lemma {:induction false} EvalChainWeakens(prev: Value, rest: Comparisons, c: Ctx, st: State, fuel: nat)
    requires c.spec > 0
    ensures Weaker(EvalChain(prev, rest, c, st, fuel).st, st)
    decreases fuel, rest, 0
  {
    hide Sticky, EvalRaw;
    if rest.MoreCmp? {
      EvalWeakens(rest.right, c, st, fuel);
      var o := Eval(rest.right, c, st, fuel);
      SpecChainWeakens(rest.tail, c.Speculate(), o.st, fuel);
      WeakerTrans(SpecChain(rest.tail, c.Speculate(), o.st, fuel), o.st, st);
      EvalChainWeakens(o.r.value, rest.tail, c, o.st, fuel);
      WeakerTrans(EvalChain(o.r.value, rest.tail, c, o.st, fuel).st, o.st, st);
    }
  }

  lemma {:induction false} SpecChainWeakens(rest: Comparisons, c: Ctx, st: State, fuel: nat)
    requires c.spec > 0
    ensures Weaker(SpecChain(rest, c, st, fuel), st)
    decreases fuel, rest, 0
  {
    hide EvalRaw;
    if rest.MoreCmp? {
      EvalWeakens(rest.right, c, st, fuel);
      var s1 := Eval(rest.right, c, st, fuel).st;
      SpecChainWeakens(rest.tail, c, s1, fuel);
      WeakerTrans(SpecChain(rest.tail, c, s1, fuel), s1, st);
    }
  }

  lemma {:induction false} EvalBoolWeakens(conj: bool, es: Exprs, c: Ctx, st: State, fuel: nat)
    requires c.spec > 0
    ensures Weaker(EvalBool(conj, es, c, st, fuel).st, st)
    decreases fuel, es, 0
  {
    hide Sticky, EvalRaw;
    if es.MoreExprs? {
      EvalWeakens(es.head, c, st, fuel);
      var s1 := Eval(es.head, c, st, fuel).st;
      EvalAllWeakens(es.tail, c.Speculate(), s1, fuel);
      WeakerTrans(EvalAll(es.tail, c.Speculate(), s1, fuel).st, s1, st);
      EvalBoolWeakens(conj, es.tail, c, s1, fuel);
      WeakerTrans(EvalBool(conj, es.tail, c, s1, fuel).st, s1, st);
    }
  }

  lemma {:induction false} EvalCallWeakens(e: Expr, c: Ctx, st: State, fuel: nat)
    requires e.Call? && c.spec > 0
    ensures Weaker(EvalCall(e, c, st, fuel).st, st)
    decreases fuel, e, 0
  {
    hide Sticky, EvalRaw, ExecRaw, BlockValue;
    match Lookup(c.env, e.f)
    case Some(Fn(f)) =>
      if |f.params| == Length(e.args) {
        BindArgsWeakens(f.params, e.args, f.env, c, st, fuel);
        var o := BindArgs(f.params, e.args, f.env, c, st, fuel);
        if o.r.Ok? && fuel > 0 {
          var c' := c.In(o.r.value).(specAtCall := c.spec);
          BlockValueWeakens(f.body, true, c', o.st, fuel - 1);
          var p := BlockValue(f.body, true, c', o.st, fuel - 1);
          WeakerTrans(p.st, o.st, st);
          WeakerPop(p.st, st);
        }
      }
    case _ =>
  }

  lemma {:induction false} BindArgsWeakens(params: seq<Param>, args: Exprs, env: Env, c: Ctx, st: State, fuel: nat)
    requires |params| == Length(args) && c.spec > 0
    ensures Weaker(BindArgs(params, args, env, c, st, fuel).st, st)
    decreases fuel, args, 0
  {
    hide EvalRaw;
    if args.MoreExprs? {
      var e := args.head;
      if params[0].byRef {
        match (if e.Name? then Lookup(c.env, e.x) else None)
        case Some(Mut(loc)) =>
          BindArgsWeakens(params[1..], args.tail, Bound(params[0].name, Mut(loc), env), c, st, fuel);
        case _ =>
      } else {
        BindingOfWeakens(e, c, st, fuel);
        var o := BindingOf(e, c, st, fuel);
        if o.r.Ok? {
          var env' := Bound(params[0].name, o.r.value, env);
          BindArgsWeakens(params[1..], args.tail, env', c, o.st, fuel);
          WeakerTrans(BindArgs(params[1..], args.tail, env', c, o.st, fuel).st, o.st, st);
        }
      }
    }
  }

  lemma {:induction false} BindingOfWeakens(e: Expr, c: Ctx, st: State, fuel: nat)
    requires c.spec > 0
    ensures Weaker(BindingOf(e, c, st, fuel).st, st)
    decreases fuel, e, 3
  {
    hide EvalRaw;
    EvalWeakens(e, c, st, fuel);
  }

  lemma {:induction false} ComprehendWeakens(cp: Comp, keys: seq<Value>, c: Ctx, st: State, fuel: nat)
    requires c.spec > 0
    ensures Weaker(Comprehend(cp, keys, c, st, fuel).st, st)
    decreases fuel, cp, 1
  {
    hide Weaker, EvalRaw;
    match cp
    case Element(e) => EvalWeakens(e, c, st, fuel);
    case Guard(cond, rest) =>
      EvalWeakens(cond, c, st, fuel);
      var s1 := Eval(cond, c, st, fuel).st;
      ComprehendWeakens(rest, keys, c.Speculate(), s1, fuel);
      WeakerTrans(Comprehend(rest, keys, c.Speculate(), s1, fuel).st, s1, st);
      ComprehendWeakens(rest, keys, c, s1, fuel);
      WeakerTrans(Comprehend(rest, keys, c, s1, fuel).st, s1, st);
    case Generator(_, iter, _) =>
      EvalWeakens(iter, c, st, fuel);
      var o := Eval(iter, c, st, fuel);
      CompOverWeakens(o.r.value, cp, keys, c, o.st, fuel);
      WeakerTrans(CompOver(o.r.value, cp, keys, c, o.st, fuel).st, o.st, st);
  }

  lemma {:induction false} CompOverWeakens(source: Value, cp: Comp, keys: seq<Value>, c: Ctx, st: State, fuel: nat)
    requires cp.Generator? && c.spec > 0
    ensures Weaker(CompOver(source, cp, keys, c, st, fuel).st, st)
    decreases fuel, cp, 0
  {
    hide Sticky, EvalRaw;
    if source.Pending? {
      ComprehendWeakens(cp.rest, keys + [Pending], PendingBinding(c, cp.x), st, fuel);
      var once := Comprehend(cp.rest, keys + [Pending], PendingBinding(c, cp.x), st, fuel).st;
      WeakerNotes(once, once.(carried := true), st);
    } else if source.d.Coll? {
      CompLoopWeakens(cp.x, source.d.entries, cp.rest, keys, c, st, fuel);
    }
  }

  lemma {:induction false} CompLoopWeakens(x: string, entries: seq<(Data, Data)>, rest: Comp, keys: seq<Value>, c: Ctx,
          st: State, fuel: nat)
    requires c.spec > 0
    ensures Weaker(CompLoop(x, entries, rest, keys, c, st, fuel).st, st)
    decreases fuel, rest, 2 + |entries|
  {
    hide EvalRaw;
    if |entries| > 0 {
      var c' := c.In(BindVar(c.env, x, Known(entries[0].1)));
      var keys' := keys + [Known(entries[0].0)];
      ComprehendWeakens(rest, keys', c', st, fuel);
      var s1 := Comprehend(rest, keys', c', st, fuel).st;
      CompLoopWeakens(x, entries[1..], rest, keys, c, s1, fuel);
      WeakerTrans(CompLoop(x, entries[1..], rest, keys, c, s1, fuel).st, s1, st);
    }
  }

  // ----- Blocks, branches and arms -----

  lemma {:induction false} RunBodyWeakens(body: Stmts, m: Mode, c: Ctx, st: State, fuel: nat)
    requires c.spec > 0
    ensures Weaker(RunBody(body, m, c, st, fuel).st, st)
    ensures |RunBody(body, m, c, st, fuel).st.cells| == |st.cells|
    decreases fuel, body, 1
  {
    hide EvalRaw, ExecRaw;
    match m
    case Run =>
      ExecStmtsWeakens(body, c, st, fuel);
      WeakerPop(ExecStmts(body, c, st, fuel).st, st);
    case Denote(unit) =>
      BlockValueWeakens(body, unit, c, st, fuel);
      WeakerPop(BlockValue(body, unit, c, st, fuel).st, st);
  }

  lemma {:induction false} BlockValueWeakens(body: Stmts, unit: bool, c: Ctx, st: State, fuel: nat)
    requires c.spec > 0
    ensures Weaker(BlockValue(body, unit, c, st, fuel).st, st)
    decreases fuel, body, 0
  {
    hide EvalRaw, ExecRaw;
    if body.MoreStmts? {
      if body.tail.NoStmts? {
        LastValueWeakens(body.head, unit, c, st, fuel);
      } else {
        ExecWeakens(body.head, c, st, fuel);
        var d := Exec(body.head, c, st, fuel);
        BlockValueWeakens(body.tail, unit, c.In(d.env), d.st, fuel);
        WeakerTrans(BlockValue(body.tail, unit, c.In(d.env), d.st, fuel).st, d.st, st);
      }
    }
  }

  lemma {:induction false} LastValueWeakens(s: Stmt, unit: bool, c: Ctx, st: State, fuel: nat)
    requires c.spec > 0
    ensures Weaker(LastValue(s, unit, c, st, fuel).st, st)
    decreases fuel, s, 3
  {
    hide EvalRaw, ExecRaw, BlockValue, RunMatch;
    if s.ExprStmt? || s.Return? {
      EvalWeakens(s.e, c, st, fuel);
    } else if s.Match? {
      RunMatchWeakens(s, Denote(unit), c, st, fuel);
    } else {
      if s.If? { RunBranchesWeakens(s.branches, Denote(unit), c, st, fuel); }
      ExecWeakens(s, c, st, fuel);
    }
  }

  lemma {:induction false} RunBranchesWeakens(bs: Branches, m: Mode, c: Ctx, st: State, fuel: nat)
    requires c.spec > 0
    ensures Weaker(RunBranches(bs, m, c, st, fuel).st, st)
    decreases fuel, bs, 1
  {
    hide Sticky, EvalRaw, ExecRaw, BlockValue;
    match bs
    case NoElse =>
    case Else(body) => RunBodyWeakens(body, m, c, st, fuel);
    case Branch(cond, body, rest) =>
      EvalWeakens(cond, c, st, fuel);
      var s1 := Eval(cond, c, st, fuel).st;
      var s2 := SpecConds(rest, c.Speculate(), s1, fuel);
      SpecCondsWeakens(rest, c.Speculate(), s1, fuel);
      SpecBodiesWeakens(bs, m, c.Speculate(), s2, fuel);
      WeakerTrans(s2, s1, st);
      WeakerTrans(SpecBodies(bs, m, c.Speculate(), s2, fuel).st, s2, st);
      RunBodyWeakens(body, m, c, s1, fuel);
      WeakerTrans(RunBody(body, m, c, s1, fuel).st, s1, st);
      RunBranchesWeakens(rest, m, c, s1, fuel);
      WeakerTrans(RunBranches(rest, m, c, s1, fuel).st, s1, st);
  }

  lemma {:induction false} SpecCondsWeakens(bs: Branches, c: Ctx, st: State, fuel: nat)
    requires c.spec > 0
    ensures Weaker(SpecConds(bs, c, st, fuel), st)
    decreases fuel, bs, 0
  {
    hide Sticky, EvalRaw;
    if bs.Branch? {
      EvalWeakens(bs.cond, c, st, fuel);
      var s1 := Eval(bs.cond, c, st, fuel).st;
      SpecCondsWeakens(bs.rest, c, s1, fuel);
      WeakerTrans(SpecConds(bs.rest, c, s1, fuel), s1, st);
    }
  }

  lemma {:induction false} SpecBodiesWeakens(bs: Branches, m: Mode, c: Ctx, st: State, fuel: nat)
    requires c.spec > 0
    ensures Weaker(SpecBodies(bs, m, c, st, fuel).st, st)
    decreases fuel, bs, 0
  {
    hide EvalRaw, ExecRaw;
    if !bs.NoElse? {
      RunBodyWeakens(bs.body, m, c, st, fuel);
      if bs.Branch? {
        var s1 := RunBody(bs.body, m, c, st, fuel).st;
        SpecBodiesWeakens(bs.rest, m, c, s1, fuel);
        WeakerTrans(SpecBodies(bs.rest, m, c, s1, fuel).st, s1, st);
      }
    }
  }

  lemma {:induction false} RunMatchWeakens(s: Stmt, m: Mode, c: Ctx, st: State, fuel: nat)
    requires s.Match? && c.spec > 0
    ensures Weaker(RunMatch(s, m, c, st, fuel).st, st)
    decreases fuel, s, 0
  {
    hide EvalRaw, ExecRaw;
    EvalWeakens(s.scrutinee, c, st, fuel);
    var o := Eval(s.scrutinee, c, st, fuel);
    if o.r.value.Pending? {
      SpecArmsWeakens(s.arms, m, c.Speculate(), o.st, fuel);
      WeakerTrans(SpecArms(s.arms, m, c.Speculate(), o.st, fuel).st, o.st, st);
    } else {
      RunArmsWeakens(s.arms, o.r.value.d, m, c, o.st, fuel);
      WeakerTrans(RunArms(s.arms, o.r.value.d, m, c, o.st, fuel).st, o.st, st);
    }
  }

  lemma {:induction false} RunArmsWeakens(arms: Arms, v: Data, m: Mode, c: Ctx, st: State, fuel: nat)
    requires c.spec > 0
    ensures Weaker(RunArms(arms, v, m, c, st, fuel).st, st)
    decreases fuel, arms, 0
  {
    hide Sticky, EvalRaw, ExecRaw;
    if arms.Arm? {
      var b := MatchPattern(arms.pattern, v);
      if b.Ok? {
        if b.value.None? {
          RunArmsWeakens(arms.rest, v, m, c, st, fuel);
        } else {
          RunBodyWeakens(arms.body, m, c.In(BindAll(c.env, b.value.value)), st, fuel);
        }
      }
    }
  }

  lemma {:induction false} SpecArmsWeakens(arms: Arms, m: Mode, c: Ctx, st: State, fuel: nat)
    requires c.spec > 0
    ensures Weaker(SpecArms(arms, m, c, st, fuel).st, st)
    decreases fuel, arms, 0
  {
    hide Sticky, EvalRaw, ExecRaw;
    if arms.Arm? {
      var c' := c.In(BindAll(c.env, PendingNames(arms.pattern)));
      RunBodyWeakens(arms.body, m, c', st, fuel);
      var s1 := RunBody(arms.body, m, c', st, fuel).st;
      SpecArmsWeakens(arms.rest, m, c, s1, fuel);
      WeakerTrans(SpecArms(arms.rest, m, c, s1, fuel).st, s1, st);
    }
  }

  // ----- Statements -----

  lemma {:induction false} ExecStmtsWeakens(ss: Stmts, c: Ctx, st: State, fuel: nat)
    requires c.spec > 0
    ensures Weaker(ExecStmts(ss, c, st, fuel).st, st)
    decreases fuel, ss, 0
  {
    hide EvalRaw, ExecRaw;
    if ss.MoreStmts? {
      ExecWeakens(ss.head, c, st, fuel);
      var d := Exec(ss.head, c, st, fuel);
      ExecStmtsWeakens(ss.tail, c.In(d.env), d.st, fuel);
      WeakerTrans(ExecStmts(ss.tail, c.In(d.env), d.st, fuel).st, d.st, st);
    }
  }

  lemma {:induction false} ExecWeakens(s: Stmt, c: Ctx, st: State, fuel: nat)
    requires c.spec > 0
    ensures Weaker(Exec(s, c, st, fuel).st, st)
    decreases fuel, s, 2
  {
    hide Weaker, Sticky, EvalRaw, ExecRaw;
    ExecRawWeakens(s, c, st, fuel);
    WeakerNotes(ExecRaw(s, c, st, fuel).st, Exec(s, c, st, fuel).st, st);
  }

  lemma {:induction false} ExecRawWeakens(s: Stmt, c: Ctx, st: State, fuel: nat)
    requires c.spec > 0
    ensures Weaker(ExecRaw(s, c, st, fuel).st, st)
    decreases fuel, s, 1
  {
    hide Eval, EvalRaw, RunBranches, RunMatch, ExecFor, ExecWith, BindingOf, AssignMut, AssignKey, Write, DefineAs,
        FeedInto;
    match s
    case Assign(_, e) => BindingOfWeakens(e, c, st, fuel);
    case MutAssign(x, txn, e) =>
      EvalWeakens(e, c, st, fuel);
      var o := Eval(e, c, st, fuel);
      AssignMutWeakens(x, txn, o.r.value, c, o.st);
      WeakerTrans(AssignMut(x, txn, o.r.value, c, o.st).st, o.st, st);
    case KeyedAssign(_, _, _) => KeyedAssignWeakens(s, c, st, fuel);
    case AugAssign(_, _, _) => AugAssignWeakens(s, c, st, fuel);
    case Define(x, e) =>
      EvalWeakens(e, c, st, fuel);
      var o := Eval(e, c, st, fuel);
      DefineWeakens(x, o.r.value, c, o.st);
      WeakerTrans(DefineAs(x, o.r.value, c, o.st).st, o.st, st);
    case Feed(x, e, at) =>
      match Lookup(c.env, x) {
        case Some(Chan(key)) =>
          EvalWeakens(e, c, st, fuel);
          var o := Eval(e, c, st, fuel);
          FeedWeakens(key, c.calls + [at], o.r.value, c, o.st);
          WeakerTrans(FeedInto(key, c.calls + [at], o.r.value, c, o.st), o.st, st);
        case _ =>
      }
    case If(bs) => RunBranchesWeakens(bs, Run, c, st, fuel);
    case Match(_, _) => RunMatchWeakens(s, Run, c, st, fuel);
    case For(_, _, _) => ExecForWeakens(s, c, st, fuel);
    case With(body, site) => ExecWithWeakens(body, site, c, st, fuel);
    case FunctionDef(_, _, _) =>
    case Return(e) => EvalWeakens(e, c, st, fuel);
    case ReturnUnit =>
    case ExprStmt(e) => EvalWeakens(e, c, st, fuel);
    case Pass =>
  }

  lemma {:induction false} KeyedAssignWeakens(s: Stmt, c: Ctx, st: State, fuel: nat)
    requires s.KeyedAssign? && c.spec > 0
    ensures Weaker(ExecRaw(s, c, st, fuel).st, st)
    decreases fuel, s, 0
  {
    hide Weaker, EvalRaw;
    EvalWeakens(s.e, c, st, fuel);
    var o := Eval(s.e, c, st, fuel);
    EvalWeakens(s.index, c, o.st, fuel);
    var k := Eval(s.index, c, o.st, fuel);
    AssignKeyWeakens(s.x, k.r.value, o.r.value, c, k.st);
    WeakerTrans(k.st, o.st, st);
    WeakerTrans(AssignKey(s.x, k.r.value, o.r.value, c, k.st).st, k.st, st);
  }

  lemma {:induction false} AugAssignWeakens(s: Stmt, c: Ctx, st: State, fuel: nat)
    requires s.AugAssign? && c.spec > 0
    ensures Weaker(ExecRaw(s, c, st, fuel).st, st)
    decreases fuel, s, 0
  {
    hide Sticky, EvalRaw;
    match Lookup(c.env, s.x)
    case Some(Mut(loc)) =>
      EvalWeakens(s.e, c, st, fuel);
      var o := Eval(s.e, c, st, fuel);
      var cur := ReadMut(st, s.x, loc);
      if cur.Ok? {
        var v := Apply(Binary(s.op), [cur.value, o.r.value]);
        if v.Ok? {
          WriteWeakens(c, o.st, loc, v.value);
          WeakerTrans(Write(c, o.st, loc, v.value).st, o.st, st);
        }
      }
    case _ =>
  }

  lemma {:induction false} AssignMutWeakens(x: string, txn: bool, v: Value, c: Ctx, st: State)
    requires c.spec > 0
    ensures Weaker(AssignMut(x, txn, v, c, st).st, st)
  {
    match Lookup(c.env, x)
    case Some(Mut(loc)) => WriteWeakens(c, st, loc, v);
    case _ =>
  }

  lemma {:induction false} AssignKeyWeakens(x: string, key: Value, v: Value, c: Ctx, st: State)
    requires c.spec > 0
    ensures Weaker(AssignKey(x, key, v, c, st).st, st)
  {
    match Lookup(c.env, x)
    case Some(Mut(loc)) =>
      if loc < |st.cells| {
        WriteWeakens(c, st, loc, Pending);
        var w := KeyWritten(st.cells[loc].value, key, v);
        if w.Ok? { WriteWeakens(c, st, loc, w.value); }
      }
    case _ =>
  }

  lemma {:induction false} ExecForWeakens(s: Stmt, c: Ctx, st: State, fuel: nat)
    requires s.For? && c.spec > 0
    ensures Weaker(ExecFor(s, c, st, fuel).st, st)
    decreases fuel, s, 0, 1
  {
    hide EvalRaw, ExecRaw;
    EvalWeakens(s.iter, c, st, fuel);
    var o := Eval(s.iter, c, st, fuel);
    LoopOverWeakens(o.r.value, s, c, o.st, fuel);
    WeakerTrans(LoopOver(o.r.value, s, c, o.st, fuel).st, o.st, st);
  }

  lemma {:induction false} LoopOverWeakens(source: Value, s: Stmt, c: Ctx, st: State, fuel: nat)
    requires s.For? && c.spec > 0
    ensures Weaker(LoopOver(source, s, c, st, fuel).st, st)
    decreases fuel, s, 0, 0
  {
    hide Sticky, EvalRaw, ExecRaw;
    if source.Pending? {
      RunBodyWeakens(s.body, Run, PendingElement(c, s.x), st, fuel);
      var once := RunBody(s.body, Run, PendingElement(c, s.x), st, fuel).st;
      WeakerNotes(once, once.(carried := true), st);
    } else if source.d.Coll? {
      if Positional(source.d.entries) {
        ForLoopWeakens(s.x, SortEntries(source.d.entries), s.body, c, st, fuel);
      } else {
        ForLoopWeakens(s.x, source.d.entries, s.body, c, Watched(st), fuel);
        UnwatchWeakens(ForLoop(s.x, source.d.entries, s.body, c, Watched(st), fuel).st, st);
      }
    }
  }

  lemma {:induction false} UnwatchWeakens(n: State, o: State)
    requires Weaker(n, Watched(o))
    ensures Weaker(n.(watches := o.watches), o)
    ensures |n.watches| == |o.watches| + 1 && n.watches[..|o.watches|] == o.watches
  {
    var n' := n.(watches := o.watches);
    forall k ensures ChannelWeaker(ChannelOf(n', k), ChannelOf(o, k)) && SitesWeaker(n', o, k) {
      assert ChannelWeaker(ChannelOf(n, k), ChannelOf(Watched(o), k)) && SitesWeaker(n, Watched(o), k);
    }
  }

  lemma {:induction false} ForLoopWeakens(x: string, entries: seq<(Data, Data)>, body: Stmts, c: Ctx, st: State,
          fuel: nat)
    requires c.spec > 0
    ensures Weaker(ForLoop(x, entries, body, c, st, fuel).st, st)
    decreases fuel, body, 2 + |entries|
  {
    hide EvalRaw, ExecRaw;
    if |entries| > 0 {
      var c' := c.AtKey(Known(entries[0].0)).In(BindVar(c.env, x, Known(entries[0].1)));
      RunBodyWeakens(body, Run, c', st, fuel);
      var s1 := RunBody(body, Run, c', st, fuel).st;
      ForLoopWeakens(x, entries[1..], body, c, s1, fuel);
      WeakerTrans(ForLoop(x, entries[1..], body, c, s1, fuel).st, s1, st);
    }
  }

  lemma {:induction false} ExecWithWeakens(body: Stmts, site: nat, c: Ctx, st: State, fuel: nat)
    requires c.spec > 0
    ensures Weaker(ExecWith(body, site, c, st, fuel).st, st)
    decreases fuel, body, 3
  {
    hide Sticky, EvalRaw, ExecRaw;
    if st.txn.None? {
      var frame := TxnFrame(site, false, WrittenIn(body), [], false);
      var st0 := st.(txn := Some(frame));
      RunBodyWeakens(body, Run, c, st0, fuel);
      var o := RunBody(body, Run, c, st0, fuel);
      CommitWeakens(st, o.st, frame);
    }
  }
}
