/** A pass that waits on no channel decides everything, and does the same whatever else it could
    have read: what other channels' final contents are makes no difference to it. */
module InterpClean {
  import opened Options
  import opened InterpSyntax
  import opened InterpValues
  import opened InterpEval
  import opened InterpBelow

  ghost predicate SlotClean(s: Slot) {
    match s
    case Val(v) => v.Known?
    case Fn(f) => EnvClean(f.env)
    case _ => true
  }

  ghost predicate EnvClean(env: Env) {
    env.Bound? ==> SlotClean(env.slot) && EnvClean(env.rest)
  }

  ghost predicate ReplyClean(r: Reply) {
    r.value.Known?
  }

  ghost predicate CellsClean(cells: seq<Cell>) {
    forall i | 0 <= i < |cells| :: cells[i].value.Known?
  }

  ghost predicate ChannelsClean(st: State) {
    forall k :: !Undecided(ChannelOf(st, k))
  }

  ghost predicate TxnClean(txn: Option<TxnFrame>) {
    txn.Some? ==> !txn.value.uncertain && forall i | 0 <= i < |txn.value.replies| :: ReplyClean(txn.value.replies[i])
  }

  ghost predicate EntriesClean(out: seq<(Value, Value)>) {
    forall i | 0 <= i < |out| :: out[i].0.Known? && out[i].1.Known?
  }

  // What a step that decides everything answers.

  ghost predicate ValueClean(r: Res<Value>) {
    r.Ok? ==> r.value.Known?
  }

  ghost predicate ValuesClean(r: Res<seq<Value>>) {
    r.Ok? ==> !AnyPending(r.value)
  }

  ghost predicate ScopeClean(r: Res<Env>) {
    r.Ok? ==> EnvClean(r.value)
  }

  ghost predicate BindingClean(r: Res<Slot>) {
    r.Ok? ==> SlotClean(r.value)
  }

  ghost predicate FoundClean(r: Res<seq<(Value, Value)>>) {
    r.Ok? ==> EntriesClean(r.value)
  }

  ghost predicate OptClean(r: Res<Option<Value>>) {
    r.Ok? && r.value.Some? ==> r.value.value.Known?
  }

  /** Nothing in the state is pending. */
  ghost predicate StateClean(st: State) {
    CellsClean(st.cells) && ChannelsClean(st) && st.clockKnown && TxnClean(st.txn)
  }

  ghost predicate CtxClean(c: Ctx) {
    c.spec == 0 && EnvClean(c.env) && !AnyPending(c.loopKeys)
  }

  /** A step that waited on nothing led from `a` to `b`. */
  ghost predicate Clear(a: State, b: State) {
    StateClean(b) && b.lost == a.lost && b.carried == a.carried
  }

  ghost predicate Ready(c: Ctx, st: State, after: State, F: map<string, Data>) {
    CtxClean(c) && StateClean(st) && after.waited == {} && FinalsBelow(c.finals, F)
  }

  function Given(c: Ctx, F: map<string, Data>): Ctx {
    c.(finals := F)
  }

  // ----- Scopes and steps -----

  lemma {:induction false} LookupClean(env: Env, x: string)
    requires EnvClean(env)
    ensures Lookup(env, x).Some? ==> SlotClean(Lookup(env, x).value)
  {
    if env.Bound? && env.name != x { LookupClean(env.rest, x); }
  }

  lemma {:induction false} CaptureClean(env: Env, cells: seq<Cell>)
    requires EnvClean(env) && CellsClean(cells)
    ensures EnvClean(Capture(env, cells))
  {
    if env.Bound? { CaptureClean(env.rest, cells); }
  }

  lemma {:induction false} BindAllClean(env: Env, binds: seq<(string, Value)>)
    requires EnvClean(env) && forall i | 0 <= i < |binds| :: binds[i].1.Known?
    ensures EnvClean(BindAll(env, binds))
    decreases |binds|
  {
    if |binds| > 0 { BindAllClean(Bound(binds[0].0, Val(binds[0].1), env), binds[1..]); }
  }

  lemma {:induction false} BindPositionsClean(bs: seq<Option<string>>, i: nat, v: Data)
    requires i <= |bs| && BindPositions(bs, i, v).Ok?
    ensures forall j | 0 <= j < |BindPositions(bs, i, v).value| :: BindPositions(bs, i, v).value[j].1.Known?
    decreases |bs| - i
  {
    if i < |bs| { BindPositionsClean(bs, i + 1, v); }
  }

  lemma {:induction false} MatchClean(p: Pattern, v: Data)
    requires MatchPattern(p, v).Ok? && MatchPattern(p, v).value.Some?
    ensures forall j | 0 <= j < |MatchPattern(p, v).value.value| :: MatchPattern(p, v).value.value[j].1.Known?
  {
    match (p, v)
    case (CtorPattern(_, _, bs), Nominal(_, _, arg)) =>
      if |bs| > 1 { BindPositionsClean(bs, 0, arg); }
    case _ =>
  }

  lemma {:induction false} ChannelsStay(a: State, b: State)
    requires ChannelsClean(a) && b.chans == a.chans
    ensures ChannelsClean(b)
  {
    forall k ensures !Undecided(ChannelOf(b, k)) { assert ChannelOf(b, k) == ChannelOf(a, k); }
  }

  lemma {:induction false} OneChannelClean(a: State, b: State, key: string)
    requires ChannelsClean(a) && b.chans == a.chans[key := ChannelOf(b, key)] && !Undecided(ChannelOf(b, key))
    ensures ChannelsClean(b)
  {
    forall k ensures !Undecided(ChannelOf(b, k)) { if k != key { assert ChannelOf(b, k) == ChannelOf(a, k); } }
  }

  lemma {:induction false} WriteClean(c: Ctx, st: State, loc: nat, v: Value)
    requires c.spec == 0 && StateClean(st) && v.Known?
    ensures Clear(st, Write(c, st, loc, v).st)
  {
    ChannelsStay(st, Write(c, st, loc, v).st);
  }

  lemma {:induction false} ContributeClean(st: State, key: string, x: Contribution)
    requires StateClean(st) && !PendingContribution(x)
    ensures Clear(st, Contribute(st, key, x))
  {
    OneChannelClean(st, Contribute(st, key, x), key);
  }

  lemma {:induction false} FeedClean(key: string, site: Site, v: Value, c: Ctx, st: State)
    requires CtxClean(c) && StateClean(st) && v.Known?
    ensures Clear(st, FeedInto(key, site, v, c, st))
  {
    var joined := JoinSite(st, key, site);
    OneChannelClean(st, joined, key);
    match st.txn
    case None => ContributeClean(joined, key, Contribution(site, TupleKey(c.loopKeys), v));
    case Some(_) => ChannelsStay(joined, FeedInto(key, site, v, c, st));
  }

  lemma {:induction false} DefineClean(x: string, v: Value, c: Ctx, st: State)
    requires CtxClean(c) && StateClean(st) && v.Known?
    ensures Clear(st, DefineAs(x, v, c, st).st) && EnvClean(DefineAs(x, v, c, st).env)
  {
    match Lookup(c.env, x)
    case Some(Chan(key)) =>
      assert !Undecided(ChannelOf(st, key));
      if DefineAs(x, v, c, st).r.Ok? { OneChannelClean(st, DefineAs(x, v, c, st).st, key); }
    case _ =>
  }

  lemma {:induction false} PushClean(st: State, replies: seq<Reply>, at: Value)
    requires StateClean(st) && at.Known? && forall i | 0 <= i < |replies| :: ReplyClean(replies[i])
    ensures Clear(st, PushReplies(st, replies, at, false))
    decreases |replies|
  {
    if |replies| > 0 {
      assert ReplyClean(replies[0]);
      var x := Contribution(replies[0].site, at, replies[0].value);
      ContributeClean(st, replies[0].chan, x);
      PushClean(Contribute(st, replies[0].chan, x), replies[1..], at);
    }
  }

  lemma {:induction false} CommitClean(frame: TxnFrame, st: State)
    requires StateClean(st) && TxnClean(Some(frame))
    ensures Clear(st, Commit(frame, st))
  {
    if frame.wrote || |frame.replies| > 0 {
      var st1 := st.(commitTime := st.commitTime + 1, watches := MarkCommitted(st.watches));
      ChannelsStay(st, st1);
      PushClean(st1, frame.replies, Known(CommitTime(st1.commitTime)));
    }
  }

  // ----- Expressions -----

  lemma {:induction false} EvalClean(e: Expr, c: Ctx, st: State, F: map<string, Data>, fuel: nat)
    requires Ready(c, st, Eval(e, c, st, fuel).st, F)
    ensures var o := Eval(e, c, st, fuel);
            && Clear(st, o.st) && ValueClean(o.r) && Eval(e, Given(c, F), st, fuel) == o
    decreases fuel, e, 2
  {
    hide EvalRaw;
    EvalRawClean(e, c, st, F, fuel);
  }

  lemma {:induction false} EvalRawClean(e: Expr, c: Ctx, st: State, F: map<string, Data>, fuel: nat)
    requires Ready(c, st, EvalRaw(e, c, st, fuel).st, F)
    ensures var o := EvalRaw(e, c, st, fuel);
            && Clear(st, o.st) && ValueClean(o.r) && EvalRaw(e, Given(c, F), st, fuel) == o
    decreases fuel, e, 1
  {
    hide Eval, EvalAll, EvalChain, EvalBool, EvalCall, Comprehend, RunBranches, RunMatch, ReadName;
    match e
    case Literal(_) =>
    case Name(x) => ReadNameClean(x, c, st, F);
    case Strict(op, args) =>
      EvalAllClean(args, c, st, F, fuel);
    case Compare(first, rest) =>
      EvalClean(first, c, st, F, fuel);
      var o := Eval(first, c, st, fuel);
      if o.r.Ok? { EvalChainClean(o.r.value, rest, c, o.st, F, fuel); }
    case BoolOp(conj, operands) => EvalBoolClean(conj, operands, c, st, F, fuel);
    case IfExp(cond, thn, els) =>
      EvalClean(cond, c, st, F, fuel);
      var o := Eval(cond, c, st, fuel);
      if o.r.Ok? {
        if o.r.value.d == Bool(true) { EvalClean(thn, c, o.st, F, fuel); }
        if o.r.value.d == Bool(false) { EvalClean(els, c, o.st, F, fuel); }
      }
    case Block(s) =>
      if s.If? { RunBranchesClean(s.branches, Denote(false), c, st, F, fuel); }
      if s.Match? { RunMatchClean(s, Denote(false), c, st, F, fuel); }
    case Call(_, _, at) => EvalCallClean(e, c.(calls := c.calls + [at]), st, F, fuel);
    case ListComp(comp) => ComprehendClean(comp, [], c, st, F, fuel);
    case Lambda(_, _) =>
    case AwaitFinal(_) =>
  }

  lemma {:induction false} ReadNameClean(x: string, c: Ctx, st: State, F: map<string, Data>)
    requires Ready(c, st, ReadName(x, c, st).st, F)
    ensures var o := ReadName(x, c, st);
            && Clear(st, o.st) && ValueClean(o.r) && ReadName(x, Given(c, F), st) == o
  {
    LookupClean(c.env, x);
    match Lookup(c.env, x)
    case Some(Chan(key)) => assert key !in c.finals ==> key in ReadName(x, c, st).st.waited;
    case _ =>
  }

  lemma {:induction false} EvalAllClean(es: Exprs, c: Ctx, st: State, F: map<string, Data>, fuel: nat)
    requires Ready(c, st, EvalAll(es, c, st, fuel).st, F)
    ensures var o := EvalAll(es, c, st, fuel);
            && Clear(st, o.st) && ValuesClean(o.r) && EvalAll(es, Given(c, F), st, fuel) == o
    decreases fuel, es, 0
  {
    hide EvalRaw;
    if es.MoreExprs? {
      EvalClean(es.head, c, st, F, fuel);
      var o := Eval(es.head, c, st, fuel);
      if o.r.Ok? { EvalAllClean(es.tail, c, o.st, F, fuel); }
    }
  }

  lemma {:induction false} EvalChainClean(prev: Value, rest: Comparisons, c: Ctx, st: State, F: map<string, Data>,
          fuel: nat)
    requires prev.Known? && Ready(c, st, EvalChain(prev, rest, c, st, fuel).st, F)
    ensures var o := EvalChain(prev, rest, c, st, fuel);
            && Clear(st, o.st) && ValueClean(o.r) && EvalChain(prev, rest, Given(c, F), st, fuel) == o
    decreases fuel, rest, 0
  {
    hide StateClean, EvalRaw;
    if rest.MoreCmp? {
      ChainHead(prev, rest, c, st, fuel);
      EvalClean(rest.right, c, st, F, fuel);
      var o := Eval(rest.right, c, st, fuel);
      if o.r.Ok? && Comparison(rest.op, prev.d, o.r.value.d) == Ok(true) {
        EvalChainClean(o.r.value, rest.tail, c, o.st, F, fuel);
      }
    }
  }

  /** A chain waits on whatever its first comparand waits on. */
  lemma {:induction false} ChainHead(prev: Value, rest: Comparisons, c: Ctx, st: State, fuel: nat)
    requires rest.MoreCmp?
    ensures Eval(rest.right, c, st, fuel).st.waited <= EvalChain(prev, rest, c, st, fuel).st.waited
  {
    hide EvalRaw;
  }

  lemma {:induction false} EvalBoolClean(conj: bool, es: Exprs, c: Ctx, st: State, F: map<string, Data>, fuel: nat)
    requires Ready(c, st, EvalBool(conj, es, c, st, fuel).st, F)
    ensures var o := EvalBool(conj, es, c, st, fuel);
            && Clear(st, o.st) && ValueClean(o.r) && EvalBool(conj, es, Given(c, F), st, fuel) == o
    decreases fuel, es, 0
  {
    hide StateClean, EvalRaw;
    if es.MoreExprs? {
      var o := Eval(es.head, c, st, fuel);
      assert o.st.waited == {};
      EvalClean(es.head, c, st, F, fuel);
      if o.r.Ok? && o.r.value.d == Bool(conj) { EvalBoolClean(conj, es.tail, c, o.st, F, fuel); }
    }
  }

  lemma {:induction false} EvalCallClean(e: Expr, c: Ctx, st: State, F: map<string, Data>, fuel: nat)
    requires e.Call? && Ready(c, st, EvalCall(e, c, st, fuel).st, F)
    ensures var o := EvalCall(e, c, st, fuel);
            && Clear(st, o.st) && ValueClean(o.r) && EvalCall(e, Given(c, F), st, fuel) == o
    decreases fuel, e, 0
  {
    hide EnvClean, EvalRaw, ExecRaw, BlockValue;
    LookupClean(c.env, e.f);
    match Lookup(c.env, e.f)
    case Some(Fn(f)) =>
      if |f.params| == Length(e.args) {
        var o := BindArgs(f.params, e.args, f.env, c, st, fuel);
        assert o.st.waited == {};
        BindArgsClean(f.params, e.args, f.env, c, st, F, fuel);
        if o.r.Ok? && fuel > 0 {
          var d := c.In(o.r.value).(specAtCall := c.spec);
          var p := BlockValue(f.body, true, d, o.st, fuel - 1);
          BlockValueClean(f.body, true, d, o.st, F, fuel - 1);
          ChannelsStay(p.st, Pop(p.st, |st.cells|));
        }
      }
    case _ =>
  }

  lemma {:induction false} BindArgsClean(params: seq<Param>, args: Exprs, env: Env, c: Ctx, st: State,
          F: map<string, Data>, fuel: nat)
    requires |params| == Length(args) && EnvClean(env) && Ready(c, st, BindArgs(params, args, env, c, st, fuel).st, F)
    ensures var o := BindArgs(params, args, env, c, st, fuel);
            && Clear(st, o.st) && ScopeClean(o.r) && BindArgs(params, args, env, Given(c, F), st, fuel) == o
    decreases fuel, args, 0
  {
    hide StateClean, EvalRaw;
    if args.MoreExprs? {
      var e := args.head;
      if params[0].byRef {
        match (if e.Name? then Lookup(c.env, e.x) else None)
        case Some(Mut(loc)) =>
          BindArgsClean(params[1..], args.tail, Bound(params[0].name, Mut(loc), env), c, st, F, fuel);
        case _ =>
      } else {
        var o := BindingOf(e, c, st, fuel);
        assert o.st.waited == {};
        BindingOfClean(e, c, st, F, fuel);
        if o.r.Ok? {
          BindArgsClean(params[1..], args.tail, Bound(params[0].name, o.r.value, env), c, o.st, F, fuel);
        }
      }
    }
  }

  lemma {:induction false} BindingOfClean(e: Expr, c: Ctx, st: State, F: map<string, Data>, fuel: nat)
    requires Ready(c, st, BindingOf(e, c, st, fuel).st, F)
    ensures var o := BindingOf(e, c, st, fuel);
            && Clear(st, o.st) && BindingClean(o.r) && BindingOf(e, Given(c, F), st, fuel) == o
    decreases fuel, e, 3
  {
    hide Sticky, EnvClean, EvalRaw;
    if e.Lambda? {
      CaptureClean(c.env, st.cells);
    } else {
      if e.Name? { LookupClean(c.env, e.x); }
      match (if e.Name? then Lookup(c.env, e.x) else None)
      case Some(Fn(_)) =>
      case Some(Chan(_)) =>
      case _ => EvalClean(e, c, st, F, fuel);
    }
  }

  // ----- Comprehensions -----

  lemma {:induction false} ComprehendClean(cp: Comp, keys: seq<Value>, c: Ctx, st: State, F: map<string, Data>,
          fuel: nat)
    requires !AnyPending(keys) && Ready(c, st, Comprehend(cp, keys, c, st, fuel).st, F)
    ensures var o := Comprehend(cp, keys, c, st, fuel);
            && Clear(st, o.st) && FoundClean(o.r) && Comprehend(cp, keys, Given(c, F), st, fuel) == o
    decreases fuel, cp, 1
  {
    hide StateClean, EvalRaw;
    match cp
    case Element(e) => EvalClean(e, c, st, F, fuel);
    case Guard(cond, rest) =>
      var o := Eval(cond, c, st, fuel);
      assert o.st.waited == {};
      EvalClean(cond, c, st, F, fuel);
      if o.r.Ok? && o.r.value.d == Bool(true) { ComprehendClean(rest, keys, c, o.st, F, fuel); }
    case Generator(x, iter, rest) =>
      var o := Eval(iter, c, st, fuel);
      assert o.st.waited == {};
      EvalClean(iter, c, st, F, fuel);
      if o.r.Ok? && o.r.value.d.Coll? {
        assert CompOver(o.r.value, cp, keys, c, o.st, fuel)
            == CompLoop(x, o.r.value.d.entries, rest, keys, c, o.st, fuel);
        CompLoopClean(x, o.r.value.d.entries, rest, keys, c, o.st, F, fuel);
      }
  }

  lemma {:induction false} CompLoopClean(x: string, entries: seq<(Data, Data)>, rest: Comp, keys: seq<Value>, c: Ctx,
          st: State, F: map<string, Data>, fuel: nat)
    requires !AnyPending(keys) && Ready(c, st, CompLoop(x, entries, rest, keys, c, st, fuel).st, F)
    ensures var o := CompLoop(x, entries, rest, keys, c, st, fuel);
            && Clear(st, o.st) && FoundClean(o.r) && CompLoop(x, entries, rest, keys, Given(c, F), st, fuel) == o
    decreases fuel, rest, 2 + |entries|
  {
    hide EvalRaw;
    if |entries| > 0 {
      var d := c.In(BindVar(c.env, x, Known(entries[0].1)));
      var keys' := keys + [Known(entries[0].0)];
      var o := Comprehend(rest, keys', d, st, fuel);
      assert o.st.waited == {};
      assert EnvClean(d.env);
      assert !AnyPending(keys');
      ComprehendClean(rest, keys', d, st, F, fuel);
      if o.r.Ok? { CompLoopClean(x, entries[1..], rest, keys, c, o.st, F, fuel); }
    }
  }

  // ----- Blocks, branches and arms -----

  lemma {:induction false} RunBodyClean(body: Stmts, m: Mode, c: Ctx, st: State, F: map<string, Data>, fuel: nat)
    requires Ready(c, st, RunBody(body, m, c, st, fuel).st, F)
    ensures var o := RunBody(body, m, c, st, fuel);
            Clear(st, o.st) && OptClean(o.r) && RunBody(body, m, Given(c, F), st, fuel) == o
    decreases fuel, body, 1
  {
    hide EnvClean, EvalRaw, ExecRaw, BlockValue;
    match m
    case Run =>
      var d := ExecStmts(body, c, st, fuel);
      ExecStmtsClean(body, c, st, F, fuel);
      ChannelsStay(d.st, Pop(d.st, |st.cells|));
    case Denote(unit) =>
      var o := BlockValue(body, unit, c, st, fuel);
      BlockValueClean(body, unit, c, st, F, fuel);
      ChannelsStay(o.st, Pop(o.st, |st.cells|));
  }

  lemma {:induction false} BlockValueClean(body: Stmts, unit: bool, c: Ctx, st: State, F: map<string, Data>, fuel: nat)
    requires Ready(c, st, BlockValue(body, unit, c, st, fuel).st, F)
    ensures var o := BlockValue(body, unit, c, st, fuel);
            && Clear(st, o.st) && ValueClean(o.r) && BlockValue(body, unit, Given(c, F), st, fuel) == o
    decreases fuel, body, 0
  {
    hide StateClean;
    if body.MoreStmts? {
      if body.tail.NoStmts? {
        LastValueClean(body.head, unit, c, st, F, fuel);
      } else {
        var d := Exec(body.head, c, st, fuel);
        assert d.st.waited == {};
        ExecClean(body.head, c, st, F, fuel);
        if d.r == Ok(None) { BlockValueClean(body.tail, unit, c.In(d.env), d.st, F, fuel); }
      }
    }
  }

  lemma {:induction false} LastValueClean(s: Stmt, unit: bool, c: Ctx, st: State, F: map<string, Data>, fuel: nat)
    requires Ready(c, st, LastValue(s, unit, c, st, fuel).st, F)
    ensures var o := LastValue(s, unit, c, st, fuel);
            && Clear(st, o.st) && ValueClean(o.r) && LastValue(s, unit, Given(c, F), st, fuel) == o
    decreases fuel, s, 3
  {
    hide Sticky, EvalRaw, ExecRaw, RunMatch;
    if s.ExprStmt? || s.Return? {
      EvalClean(s.e, c, st, F, fuel);
    } else if s.Match? {
      RunMatchClean(s, Denote(unit), c, st, F, fuel);
    } else if s.If? && HasElse(s.branches) {
      RunBranchesClean(s.branches, Denote(unit), c, st, F, fuel);
    } else if unit {
      ExecClean(s, c, st, F, fuel);
    }
  }

  lemma {:induction false} RunBranchesClean(bs: Branches, m: Mode, c: Ctx, st: State, F: map<string, Data>, fuel: nat)
    requires Ready(c, st, RunBranches(bs, m, c, st, fuel).st, F)
    ensures var o := RunBranches(bs, m, c, st, fuel);
            Clear(st, o.st) && OptClean(o.r) && RunBranches(bs, m, Given(c, F), st, fuel) == o
    decreases fuel, bs, 1
  {
    hide StateClean, EvalRaw, ExecRaw, BlockValue;
    match bs
    case NoElse =>
    case Else(body) => RunBodyClean(body, m, c, st, F, fuel);
    case Branch(cond, body, rest) =>
      var o := Eval(cond, c, st, fuel);
      assert o.st.waited == {};
      EvalClean(cond, c, st, F, fuel);
      if o.r.Ok? {
        if o.r.value.d == Bool(true) { RunBodyClean(body, m, c, o.st, F, fuel); }
        if o.r.value.d == Bool(false) { RunBranchesClean(rest, m, c, o.st, F, fuel); }
      }
  }

  lemma {:induction false} RunMatchClean(s: Stmt, m: Mode, c: Ctx, st: State, F: map<string, Data>, fuel: nat)
    requires s.Match? && Ready(c, st, RunMatch(s, m, c, st, fuel).st, F)
    ensures var o := RunMatch(s, m, c, st, fuel);
            Clear(st, o.st) && OptClean(o.r) && RunMatch(s, m, Given(c, F), st, fuel) == o
    decreases fuel, s, 0
  {
    hide StateClean, EvalRaw, ExecRaw;
    var o := Eval(s.scrutinee, c, st, fuel);
    assert o.st.waited == {};
    EvalClean(s.scrutinee, c, st, F, fuel);
    if o.r.Ok? && (o.r.value.d.Variant? || o.r.value.d.Nominal?) {
      RunArmsClean(s.arms, o.r.value.d, m, c, o.st, F, fuel);
    }
  }

  lemma {:induction false} RunArmsClean(arms: Arms, v: Data, m: Mode, c: Ctx, st: State, F: map<string, Data>,
          fuel: nat)
    requires Ready(c, st, RunArms(arms, v, m, c, st, fuel).st, F)
    ensures var o := RunArms(arms, v, m, c, st, fuel);
            Clear(st, o.st) && OptClean(o.r) && RunArms(arms, v, m, Given(c, F), st, fuel) == o
    decreases fuel, arms, 0
  {
    hide Sticky, EvalRaw, ExecRaw;
    if arms.Arm? {
      var b := MatchPattern(arms.pattern, v);
      if b.Ok? {
        if b.value.None? {
          RunArmsClean(arms.rest, v, m, c, st, F, fuel);
        } else {
          MatchClean(arms.pattern, v);
          BindAllClean(c.env, b.value.value);
          RunBodyClean(arms.body, m, c.In(BindAll(c.env, b.value.value)), st, F, fuel);
        }
      }
    }
  }

  // ----- Statements -----

  lemma {:induction false} ExecStmtsClean(ss: Stmts, c: Ctx, st: State, F: map<string, Data>, fuel: nat)
    requires Ready(c, st, ExecStmts(ss, c, st, fuel).st, F)
    ensures var d := ExecStmts(ss, c, st, fuel);
            Clear(st, d.st) && OptClean(d.r) && EnvClean(d.env) && ExecStmts(ss, Given(c, F), st, fuel) == d
    decreases fuel, ss, 0
  {
    hide EvalRaw, ExecRaw;
    if ss.MoreStmts? {
      var d := Exec(ss.head, c, st, fuel);
      assert d.st.waited == {};
      ExecClean(ss.head, c, st, F, fuel);
      if d.r == Ok(None) { ExecStmtsClean(ss.tail, c.In(d.env), d.st, F, fuel); }
    }
  }

  lemma {:induction false} ExecClean(s: Stmt, c: Ctx, st: State, F: map<string, Data>, fuel: nat)
    requires Ready(c, st, Exec(s, c, st, fuel).st, F)
    ensures var d := Exec(s, c, st, fuel);
            Clear(st, d.st) && OptClean(d.r) && EnvClean(d.env) && Exec(s, Given(c, F), st, fuel) == d
    decreases fuel, s, 2
  {
    hide EvalRaw, ExecRaw;
    ExecRawClean(s, c, st, F, fuel);
  }

  lemma {:induction false} ExecRawClean(s: Stmt, c: Ctx, st: State, F: map<string, Data>, fuel: nat)
    requires Ready(c, st, ExecRaw(s, c, st, fuel).st, F)
    ensures var d := ExecRaw(s, c, st, fuel);
            Clear(st, d.st) && OptClean(d.r) && EnvClean(d.env) && ExecRaw(s, Given(c, F), st, fuel) == d
    decreases fuel, s, 1
  {
    hide Sticky, Eval, EvalRaw, RunBranches, RunMatch, ExecFor, ExecWith, BindingOf, AssignMut, AssignKey, Write,
        DefineAs, FeedInto;
    match s
    case Assign(_, e) => BindingOfClean(e, c, st, F, fuel);
    case MutAssign(_, _, _) => MutAssignClean(s, c, st, F, fuel);
    case KeyedAssign(_, _, _) => KeyedAssignClean(s, c, st, F, fuel);
    case AugAssign(_, _, _) => AugAssignClean(s, c, st, F, fuel);
    case Define(_, _) => DefineStmtClean(s, c, st, F, fuel);
    case Feed(_, _, _) => FeedStmtClean(s, c, st, F, fuel);
    case If(bs) => RunBranchesClean(bs, Run, c, st, F, fuel);
    case Match(_, _) => RunMatchClean(s, Run, c, st, F, fuel);
    case For(_, _, _) => ExecForClean(s, c, st, F, fuel);
    case With(body, site) => ExecWithClean(body, site, c, st, F, fuel);
    case FunctionDef(_, _, _) => CaptureClean(c.env, st.cells);
    case Return(e) => EvalClean(e, c, st, F, fuel);
    case ReturnUnit =>
    case ExprStmt(e) => EvalClean(e, c, st, F, fuel);
    case Pass =>
  }

  lemma {:induction false} DefineStmtClean(s: Stmt, c: Ctx, st: State, F: map<string, Data>, fuel: nat)
    requires s.Define? && Ready(c, st, ExecRaw(s, c, st, fuel).st, F)
    ensures var d := ExecRaw(s, c, st, fuel);
            Clear(st, d.st) && OptClean(d.r) && EnvClean(d.env) && ExecRaw(s, Given(c, F), st, fuel) == d
    decreases fuel, s, 0
  {
    hide EvalRaw, RunBranches, RunMatch, ExecFor, ExecWith, BindingOf;
    EvalClean(s.e, c, st, F, fuel);
    var o := Eval(s.e, c, st, fuel);
    if o.r.Ok? { DefineClean(s.x, o.r.value, c, o.st); }
  }

  lemma {:induction false} FeedStmtClean(s: Stmt, c: Ctx, st: State, F: map<string, Data>, fuel: nat)
    requires s.Feed? && Ready(c, st, ExecRaw(s, c, st, fuel).st, F)
    ensures var d := ExecRaw(s, c, st, fuel);
            Clear(st, d.st) && OptClean(d.r) && EnvClean(d.env) && ExecRaw(s, Given(c, F), st, fuel) == d
    decreases fuel, s, 0
  {
    hide EvalRaw, RunBranches, RunMatch, ExecFor, ExecWith, BindingOf;
    match Lookup(c.env, s.x)
    case Some(Chan(key)) =>
      EvalClean(s.e, c, st, F, fuel);
      var o := Eval(s.e, c, st, fuel);
      if o.r.Ok? { FeedClean(key, c.calls + [s.at], o.r.value, c, o.st); }
    case _ =>
  }

  lemma {:induction false} MutAssignClean(s: Stmt, c: Ctx, st: State, F: map<string, Data>, fuel: nat)
    requires s.MutAssign? && Ready(c, st, ExecRaw(s, c, st, fuel).st, F)
    ensures var d := ExecRaw(s, c, st, fuel);
            Clear(st, d.st) && OptClean(d.r) && EnvClean(d.env) && ExecRaw(s, Given(c, F), st, fuel) == d
    decreases fuel, s, 0
  {
    hide EvalRaw, RunBranches, RunMatch, ExecFor, ExecWith, BindingOf, DefineAs, FeedInto, AssignKey;
    EvalClean(s.e, c, st, F, fuel);
    var o := Eval(s.e, c, st, fuel);
    if o.r.Ok? {
      match Lookup(c.env, s.x)
      case Some(Mut(loc)) => WriteClean(c, o.st, loc, o.r.value);
      case _ => ChannelsStay(o.st, AssignMut(s.x, s.txn, o.r.value, c, o.st).st);
    }
  }

  lemma {:induction false} AssignKeyClean(x: string, key: Value, v: Value, c: Ctx, st: State, F: map<string, Data>)
    requires CtxClean(c) && StateClean(st) && key.Known? && v.Known?
    ensures var o := AssignKey(x, key, v, c, st); Clear(st, o.st) && AssignKey(x, key, v, Given(c, F), st) == o
  {
    hide EnvClean;
    match Lookup(c.env, x)
    case Some(Mut(loc)) =>
      if loc < |st.cells| {
        var w := KeyWritten(st.cells[loc].value, key, v);
        if w.Ok? { WriteClean(c, st, loc, w.value); }
      }
    case _ =>
  }

  lemma {:induction false} KeyedAssignClean(s: Stmt, c: Ctx, st: State, F: map<string, Data>, fuel: nat)
    requires s.KeyedAssign? && Ready(c, st, ExecRaw(s, c, st, fuel).st, F)
    ensures var d := ExecRaw(s, c, st, fuel);
            Clear(st, d.st) && OptClean(d.r) && EnvClean(d.env) && ExecRaw(s, Given(c, F), st, fuel) == d
    decreases fuel, s, 0
  {
    hide EnvClean, EvalRaw, RunBranches, RunMatch, ExecFor, ExecWith, BindingOf, AssignKey, StateClean;
    EvalClean(s.e, c, st, F, fuel);
    var o := Eval(s.e, c, st, fuel);
    if o.r.Ok? {
      var k := Eval(s.index, c, o.st, fuel);
      assert k.st.waited == {};
      EvalClean(s.index, c, o.st, F, fuel);
      if k.r.Ok? { AssignKeyClean(s.x, k.r.value, o.r.value, c, k.st, F); }
    }
  }

  lemma {:induction false} AugAssignClean(s: Stmt, c: Ctx, st: State, F: map<string, Data>, fuel: nat)
    requires s.AugAssign? && Ready(c, st, ExecRaw(s, c, st, fuel).st, F)
    ensures var d := ExecRaw(s, c, st, fuel);
            Clear(st, d.st) && OptClean(d.r) && EnvClean(d.env) && ExecRaw(s, Given(c, F), st, fuel) == d
    decreases fuel, s, 0
  {
    hide Sticky, EvalRaw;
    match Lookup(c.env, s.x)
    case Some(Mut(loc)) =>
      var cur := ReadMut(st, s.x, loc);
      if cur.Ok? {
        var o := Eval(s.e, c, st, fuel);
        assert o.st.waited == {};
        EvalClean(s.e, c, st, F, fuel);
        if o.r.Ok? {
          var v := Apply(Binary(s.op), [cur.value, o.r.value]);
          assert !AnyPending([cur.value, o.r.value]);
          if v.Ok? { WriteClean(c, o.st, loc, v.value); }
        }
      }
    case _ =>
  }

  lemma {:induction false} ExecForClean(s: Stmt, c: Ctx, st: State, F: map<string, Data>, fuel: nat)
    requires s.For? && Ready(c, st, ExecFor(s, c, st, fuel).st, F)
    ensures var o := ExecFor(s, c, st, fuel);
            Clear(st, o.st) && OptClean(o.r) && ExecFor(s, Given(c, F), st, fuel) == o
    decreases fuel, s, 0
  {
    hide EnvClean, EvalRaw, ExecRaw, BlockValue;
    EvalClean(s.iter, c, st, F, fuel);
    var o := Eval(s.iter, c, st, fuel);
    if o.r.Ok? && o.r.value.d.Coll? {
      var entries := o.r.value.d.entries;
      assert LoopOver(o.r.value, s, c, o.st, fuel).st.waited == {};
      if Positional(entries) {
        ForLoopClean(s.x, SortEntries(entries), s.body, c, o.st, F, fuel);
      } else {
        ChannelsStay(o.st, Watched(o.st));
        var l := ForLoop(s.x, entries, s.body, c, Watched(o.st), fuel);
        ForLoopClean(s.x, entries, s.body, c, Watched(o.st), F, fuel);
        ChannelsStay(l.st, Unwatched(l, |o.st.watches|, |entries| > 1).st);
      }
    }
  }

  lemma {:induction false} ForLoopClean(x: string, entries: seq<(Data, Data)>, body: Stmts, c: Ctx, st: State,
          F: map<string, Data>, fuel: nat)
    requires Ready(c, st, ForLoop(x, entries, body, c, st, fuel).st, F)
    ensures var o := ForLoop(x, entries, body, c, st, fuel);
            Clear(st, o.st) && OptClean(o.r) && ForLoop(x, entries, body, Given(c, F), st, fuel) == o
    decreases fuel, body, 2 + |entries|
  {
    hide EvalRaw, ExecRaw;
    if |entries| > 0 {
      var d := c.AtKey(Known(entries[0].0)).In(BindVar(c.env, x, Known(entries[0].1)));
      var o := RunBody(body, Run, d, st, fuel);
      assert o.st.waited == {};
      assert EnvClean(d.env);
      assert !AnyPending(d.loopKeys);
      RunBodyClean(body, Run, d, st, F, fuel);
      if o.r == Ok(None) { ForLoopClean(x, entries[1..], body, c, o.st, F, fuel); }
    }
  }

  lemma {:induction false} ExecWithClean(body: Stmts, site: nat, c: Ctx, st: State, F: map<string, Data>, fuel: nat)
    requires Ready(c, st, ExecWith(body, site, c, st, fuel).st, F)
    ensures var o := ExecWith(body, site, c, st, fuel);
            Clear(st, o.st) && OptClean(o.r) && ExecWith(body, site, Given(c, F), st, fuel) == o
    decreases fuel, body, 3
  {
    hide EvalRaw, ExecRaw, BlockValue;
    if st.txn.None? {
      var frame := TxnFrame(site, false, WrittenIn(body), [], false);
      var st0 := st.(txn := Some(frame));
      ChannelsStay(st, st0);
      var o := RunBody(body, Run, c, st0, fuel);
      assert o.st.waited == {};
      RunBodyClean(body, Run, c, st0, F, fuel);
      ChannelsStay(o.st, o.st.(txn := None));
      if o.r.Ok? { CommitClean(o.st.txn.value, o.st.(txn := None)); }
    }
  }
}
