/** How a pass with nothing pending stands for a plain run, and the steps that keep it so. */
module PlainRelation {
  import opened Options
  import opened InterpSyntax
  import opened InterpValues
  import opened InterpEval
  import opened InterpClean
  import Operators = OperatorMeaning
  import P = PlainMeaning

  // ----- Scopes -----

  function FlatSlot(s: Slot): P.Slot {
    match s
    case Val(v) => P.Val(if v.Known? then v.d else Unit)
    case Mut(loc) => P.Var(loc)
    case Fn(f) => P.Fn(f.params, f.body, Flat(f.env))
    case Chan(key) => P.Chan(key)
  }

  function Flat(env: Env): P.Scope {
    match env
    case Empty => map[]
    case Bound(x, s, rest) => Flat(rest)[x := FlatSlot(s)]
  }

  ghost predicate ScopeMeans(env: Env, scope: P.Scope) {
    EnvClean(env) && Flat(env) == scope
  }

  ghost predicate SlotMeans(s: Slot, t: P.Slot) {
    SlotClean(s) && FlatSlot(s) == t
  }

  lemma {:induction false} LookupMeans(env: Env, scope: P.Scope, x: string)
    requires ScopeMeans(env, scope)
    ensures match Lookup(env, x) case None => x !in scope case Some(s) => x in scope && SlotMeans(s, scope[x])
  {
    LookupClean(env, x);
    LookupFlat(env, x);
  }

  lemma {:induction false} LookupFlat(env: Env, x: string)
    ensures match Lookup(env, x)
            case None => x !in Flat(env)
            case Some(s) => x in Flat(env) && Flat(env)[x] == FlatSlot(s)
  {
    if env.Bound? && env.name != x { LookupFlat(env.rest, x); }
  }

  lemma {:induction false} CaptureFlat(env: Env, cells: seq<Cell>, vars: seq<P.Variable>)
    requires CellsMean(cells, vars)
    ensures Flat(Capture(env, cells)) == P.Kept(Flat(env), vars)
  {
    if env.Bound? { CaptureFlat(env.rest, cells, vars); }
  }

  lemma {:induction false} CaptureMeans(env: Env, scope: P.Scope, cells: seq<Cell>, vars: seq<P.Variable>)
    requires ScopeMeans(env, scope) && CellsMean(cells, vars)
    ensures ScopeMeans(Capture(env, cells), P.Kept(scope, vars))
  {
    CaptureFlat(env, cells, vars);
    CaptureClean(env, cells);
  }

  lemma {:induction false} BindVarMeans(env: Env, scope: P.Scope, x: string, v: Data)
    requires ScopeMeans(env, scope)
    ensures ScopeMeans(BindVar(env, x, Known(v)), P.Bound(scope, x, v))
  {}

  // ----- States -----

  ghost predicate CellsMean(cells: seq<Cell>, vars: seq<P.Variable>) {
    && |cells| == |vars|
    && forall i | 0 <= i < |cells| ::
         cells[i].value == Known(vars[i].value) && cells[i].txn == vars[i].txn && cells[i].writer == vars[i].writer
  }

  ghost predicate FedMeans(c: Contribution, f: P.Fed) {
    c.site == f.site && c.key == Known(f.key) && c.value == Known(f.value)
  }

  ghost predicate ChannelMeans(ch: Channel, o: P.Outlet) {
    && |ch.fed| == |o.fed| && (forall i | 0 <= i < |ch.fed| :: FedMeans(ch.fed[i], o.fed[i]))
    && ch.defined == (match o.defined case Some(v) => Some(Known(v)) case None => None)
    && ch.sites == o.sites
  }

  ghost predicate ChannelsMean(st: State, w: P.World) {
    forall k :: ChannelMeans(ChannelOf(st, k), w.OutletOf(k))
  }

  ghost predicate ReplyMeans(r: Reply, s: P.Reply) {
    r.chan == s.chan && r.site == s.site && r.value == Known(s.value)
  }

  ghost predicate FrameMeans(f: TxnFrame, b: P.Block) {
    && f.site == b.site && f.wrote == b.wrote && f.writes == b.writes && !f.uncertain
    && |f.replies| == |b.replies| && forall i | 0 <= i < |f.replies| :: ReplyMeans(f.replies[i], b.replies[i])
  }

  ghost predicate TxnMeans(txn: Option<TxnFrame>, b: Option<P.Block>) {
    txn.Some? == b.Some? && (txn.Some? ==> FrameMeans(txn.value, b.value))
  }

  /** Where a watched loop began: in the log, and among the variables. */
  type Mark = (nat, nat)

  ghost predicate WatchMeans(x: Watch, log: seq<P.Event>, m: Mark) {
    m.0 <= |log| && x.cellsBefore == m.1 && x.moved == P.Outlives(log[m.0..], m.1)
  }

  ghost predicate WatchesMean(ws: seq<Watch>, log: seq<P.Event>, ms: seq<Mark>) {
    |ws| == |ms| && forall i | 0 <= i < |ws| :: WatchMeans(ws[i], log, ms[i])
  }

  /** A state with nothing pending, of a pass that has waited on nothing. */
  ghost predicate Means(st: State, w: P.World, ms: seq<Mark>) {
    && st.waited == {} && CellsMean(st.cells, w.vars) && ChannelsMean(st, w)
    && st.commitTime == w.clock && st.clockKnown && TxnMeans(st.txn, w.block) && WatchesMean(st.watches, w.log, ms)
  }

  ghost predicate KeysMean(ks: seq<Value>, ds: seq<Data>) {
    |ks| == |ds| && forall i | 0 <= i < |ks| :: ks[i] == Known(ds[i])
  }

  ghost predicate At(c: Ctx, at: P.Place) {
    && c.spec == 0 && ScopeMeans(c.env, at.scope) && c.finals == at.given && c.fed == at.textFed
    && KeysMean(c.loopKeys, at.keys) && c.calls == at.calls
  }

  // ----- Results -----

  ghost predicate Agrees(o: Out<Value>, r: P.Run<(Data, P.World)>, ms: seq<Mark>) {
    match r
    case Got((v, w)) => o.r == Ok(Known(v)) && Means(o.st, w, ms)
    case Fails(e) => o.r == Err(e) && o.st.waited == {}
    case Unanswered => o.st.waited != {}
  }

  ghost predicate AgreesAll(o: Out<seq<Value>>, r: P.Run<(seq<Data>, P.World)>, ms: seq<Mark>) {
    match r
    case Got((vs, w)) => o.r.Ok? && KeysMean(o.r.value, vs) && Means(o.st, w, ms)
    case Fails(e) => o.r == Err(e) && o.st.waited == {}
    case Unanswered => o.st.waited != {}
  }

  ghost predicate AgreesSlot(o: Out<Slot>, r: P.Run<(P.Slot, P.World)>, ms: seq<Mark>) {
    match r
    case Got((s, w)) => o.r.Ok? && SlotMeans(o.r.value, s) && !o.r.value.Mut? && Means(o.st, w, ms)
    case Fails(e) => o.r == Err(e) && o.st.waited == {}
    case Unanswered => o.st.waited != {}
  }

  ghost predicate AgreesScope(o: Out<Env>, r: P.Run<(P.Scope, P.World)>, ms: seq<Mark>) {
    match r
    case Got((s, w)) => o.r.Ok? && ScopeMeans(o.r.value, s) && Means(o.st, w, ms)
    case Fails(e) => o.r == Err(e) && o.st.waited == {}
    case Unanswered => o.st.waited != {}
  }

  ghost predicate EntriesMean(out: seq<(Value, Value)>, es: Operators.Entries) {
    |out| == |es| && forall i | 0 <= i < |out| :: out[i] == (Known(es[i].0), Known(es[i].1))
  }

  ghost predicate AgreesEntries(o: Out<seq<(Value, Value)>>, r: P.Run<(Operators.Entries, P.World)>, ms: seq<Mark>) {
    match r
    case Got((es, w)) => o.r.Ok? && EntriesMean(o.r.value, es) && Means(o.st, w, ms)
    case Fails(e) => o.r == Err(e) && o.st.waited == {}
    case Unanswered => o.st.waited != {}
  }

  ghost predicate ReturnMeans(a: Option<Value>, b: Option<Data>) {
    a == match b case Some(v) => Some(Known(v)) case None => None
  }

  ghost predicate AgreesReturn(o: Out<Option<Value>>, r: P.Run<(Option<Data>, P.World)>, ms: seq<Mark>) {
    match r
    case Got((v, w)) => o.r.Ok? && ReturnMeans(o.r.value, v) && Means(o.st, w, ms)
    case Fails(e) => o.r == Err(e) && o.st.waited == {}
    case Unanswered => o.st.waited != {}
  }

  ghost predicate AgreesFlow(d: Done, r: P.Run<(P.Flow, P.World)>, ms: seq<Mark>) {
    match r
    case Got((On(scope), w)) => d.r == Ok(None) && ScopeMeans(d.env, scope) && Means(d.st, w, ms)
    case Got((Back(v), w)) => d.r == Ok(Some(Known(v))) && Means(d.st, w, ms)
    case Fails(e) => d.r == Err(e) && d.st.waited == {}
    case Unanswered => d.st.waited != {}
  }

  // ----- Variables -----

  lemma {:induction false} MarkedMean(ws: seq<Watch>, log: seq<P.Event>, ms: seq<Mark>, loc: nat)
    requires WatchesMean(ws, log, ms)
    ensures WatchesMean(MarkWritten(ws, loc), log + [P.Wrote(loc)], ms)
  {
    var log' := log + [P.Wrote(loc)];
    forall i | 0 <= i < |ws| ensures WatchMeans(MarkWritten(ws, loc)[i], log', ms[i]) {
      assert WatchMeans(ws[i], log, ms[i]);
      OutlivesOne(log[ms[i].0..], P.Wrote(loc), ms[i].1);
      assert log'[ms[i].0..] == log[ms[i].0..] + [P.Wrote(loc)];
    }
  }

  lemma {:induction false} CommittedMean(ws: seq<Watch>, log: seq<P.Event>, ms: seq<Mark>)
    requires WatchesMean(ws, log, ms)
    ensures WatchesMean(MarkCommitted(ws), log + [P.Committed], ms)
  {
    var log' := log + [P.Committed];
    forall i | 0 <= i < |ws| ensures WatchMeans(MarkCommitted(ws)[i], log', ms[i]) {
      assert WatchMeans(ws[i], log, ms[i]);
      OutlivesOne(log[ms[i].0..], P.Committed, ms[i].1);
      assert log'[ms[i].0..] == log[ms[i].0..] + [P.Committed];
    }
  }

  lemma {:induction false} OutlivesOne(log: seq<P.Event>, e: P.Event, n: nat)
    ensures P.Outlives(log + [e], n) <==> P.Outlives(log, n) || e.Committed? || e.loc < n
  {
    var more := log + [e];
    assert more[|log|] == e && forall i | 0 <= i < |log| :: more[i] == log[i];
    if P.Outlives(log, n) {
      var i :| 0 <= i < |log| && (log[i].Committed? || log[i].loc < n);
      assert more[i] == log[i];
    }
  }

  lemma {:induction false} ChannelsStayMean(st: State, st': State, w: P.World, w': P.World)
    requires ChannelsMean(st, w) && st'.chans == st.chans && w'.outlets == w.outlets
    ensures ChannelsMean(st', w')
  {
    forall k ensures ChannelMeans(ChannelOf(st', k), w'.OutletOf(k)) {
      assert ChannelMeans(ChannelOf(st, k), w.OutletOf(k));
    }
  }

  lemma {:induction false} WriteMeans(c: Ctx, st: State, w: P.World, ms: seq<Mark>, loc: nat, v: Data)
    requires c.spec == 0 && Means(st, w, ms)
    ensures var o, r := Write(c, st, loc, Known(v)), P.WriteVar(w, loc, v);
            match r
            case Got(w') => o.r == Ok(()) && Means(o.st, w', ms)
            case Fails(e) => o.r == Err(e) && o.st.waited == {}
            case Unanswered => false
  {
    hide ChannelsMean, WatchesMean;
    MarkedMean(st.watches, w.log, ms, loc);
    var r := P.WriteVar(w, loc, v);
    if r.Got? { ChannelsStayMean(st, Write(c, st, loc, Known(v)).st, w, r.value); }
  }

  lemma {:induction false} ReadMutMeans(x: string, loc: nat, st: State, w: P.World, ms: seq<Mark>)
    requires Means(st, w, ms)
    ensures match P.ReadVar(x, loc, w)
            case Got(v) => ReadMut(st, x, loc) == Ok(Known(v))
            case Fails(e) => ReadMut(st, x, loc) == Err(e)
            case Unanswered => false
  {}

  lemma {:induction false} MadeMeans(st: State, w: P.World, ms: seq<Mark>, x: string, txn: bool, v: Data)
    requires Means(st, w, ms)
    ensures Means(st.(cells := st.cells + [Cell(x, Known(v), txn, None)]),
            w.(vars := w.vars + [P.Variable(v, txn, None)]), ms)
  {
    ChannelsStayMean(st, st.(cells := st.cells + [Cell(x, Known(v), txn, None)]), w,
      w.(vars := w.vars + [P.Variable(v, txn, None)]));
  }

  lemma {:induction false} PopMeans(st: State, w: P.World, ms: seq<Mark>, n: nat)
    requires Means(st, w, ms) && n <= |st.cells|
    ensures Means(Pop(st, n), w.Leaving(n), ms)
  {
    ChannelsStayMean(st, Pop(st, n), w, w.Leaving(n));
  }

  lemma {:induction false} ReadNameMeans(x: string, c: Ctx, st: State, at: P.Place, w: P.World, ms: seq<Mark>)
    requires At(c, at) && Means(st, w, ms)
    ensures var o := ReadName(x, c, st);
            match P.ReadName(x, at, w)
            case Got(v) => o.r == Ok(Known(v)) && o.st == st
            case Fails(e) => o.r == Err(e) && o.st == st
            case Unanswered => o.st.waited != {}
  {
    hide ChannelsMean, WatchesMean, ScopeMeans;
    LookupMeans(c.env, at.scope, x);
    match Lookup(c.env, x)
    case Some(Mut(loc)) => ReadMutMeans(x, loc, st, w, ms);
    case _ =>
  }

  // ----- Program order -----

  ghost predicate DiffersAt(a: Site, b: Site, k: nat) {
    k <= |a| && k < |b| && a[..k] == b[..k] && (k == |a| || a[k] < b[k])
  }

  lemma DiffersLater(a: Site, b: Site, k: nat)
    requires a != [] && b != []
    ensures DiffersAt(a, b, k + 1) <==> a[0] == b[0] && DiffersAt(a[1..], b[1..], k)
  {
    if k + 1 <= |a| && k + 1 <= |b| {
      assert a[..k + 1] == [a[0]] + a[1..][..k] && b[..k + 1] == [b[0]] + b[1..][..k];
      if a[..k + 1] == b[..k + 1] { assert a[..k + 1][0] == a[0] && a[..k + 1][1..] == b[..k + 1][1..]; }
    }
  }

  lemma DiffersFirst(a: Site, b: Site)
    ensures DiffersAt(a, b, 0) <==> b != [] && (a == [] || a[0] < b[0])
  {
    if b != [] { assert a[..0] == b[..0]; }
  }

  lemma {:induction false} SiteDiffers(a: Site, b: Site)
    ensures SiteBefore(a, b) <==> exists k: nat :: DiffersAt(a, b, k)
  {
    DiffersFirst(a, b);
    if a != [] && b != [] {
      hide DiffersAt;
      SiteDiffers(a[1..], b[1..]);
      if k: nat :| DiffersAt(a, b, k) && k > 0 { DiffersLater(a, b, k - 1); }
      if k: nat :| DiffersAt(a[1..], b[1..], k) { DiffersLater(a, b, k); }
    }
  }

  lemma SiteOrder(a: Site, b: Site)
    ensures SiteBefore(a, b) <==> P.SiteFirst(a, b)
  {
    hide SiteBefore;
    SiteDiffers(a, b);
    if k: nat :| DiffersAt(a, b, k) { assert P.SiteFirst(a, b); }
    if P.SiteFirst(a, b) {
      var k :| 0 <= k <= |a| && k < |b| && a[..k] == b[..k] && (k == |a| || a[k] < b[k]);
      assert DiffersAt(a, b, k);
    }
  }

  lemma {:induction false} SiteConnected(a: Site, b: Site)
    ensures SiteBefore(a, b) || SiteBefore(b, a) || a == b
    ensures !(SiteBefore(a, b) && SiteBefore(b, a)) && !SiteBefore(a, a)
  {
    if a != [] && b != [] && a[0] == b[0] {
      SiteConnected(a[1..], b[1..]);
      assert a == [a[0]] + a[1..] && b == [b[0]] + b[1..];
    }
    if a != [] { SiteConnected(a[1..], a[1..]); }
  }

  lemma {:induction false} SiteTransits(a: Site, b: Site, c: Site)
    requires !SiteBefore(b, a) && !SiteBefore(c, b)
    ensures !SiteBefore(c, a)
  {
    if a != [] && b != [] && c != [] && a[0] == b[0] == c[0] { SiteTransits(a[1..], b[1..], c[1..]); }
  }

  ghost predicate SitesAscend(sites: seq<Site>) {
    forall i, j | 0 <= i < j < |sites| :: !SiteBefore(sites[j], sites[i])
  }

  lemma {:induction false} PrependAscends(s: Site, sorted: seq<Site>)
    requires SitesAscend(sorted) && forall i | 0 <= i < |sorted| :: !SiteBefore(sorted[i], s)
    ensures SitesAscend([s] + sorted)
  {
    hide SiteBefore;
    var r := [s] + sorted;
    forall i, j | 0 <= i < j < |r| ensures !SiteBefore(r[j], r[i]) {
      assert r[j] == sorted[j - 1];
      if i > 0 { assert r[i] == sorted[i - 1]; }
    }
  }

  lemma {:induction false} InsertedSites(s: Site, sorted: seq<Site>)
    ensures multiset(InsertSite(s, sorted)) == multiset([s]) + multiset(sorted)
  {
    hide SiteBefore;
    if |sorted| > 0 && !SiteBefore(s, sorted[0]) {
      InsertedSites(s, sorted[1..]);
      assert sorted == [sorted[0]] + sorted[1..];
    }
  }

  lemma {:induction false} InsertAscends(s: Site, sorted: seq<Site>)
    requires SitesAscend(sorted)
    ensures SitesAscend(InsertSite(s, sorted))
  {
    hide SiteBefore;
    if |sorted| > 0 {
      if SiteBefore(s, sorted[0]) {
        SiteConnected(s, sorted[0]);
        forall i | 0 <= i < |sorted| ensures !SiteBefore(sorted[i], s) {
          if i > 0 { SiteTransits(s, sorted[0], sorted[i]); }
        }
        PrependAscends(s, sorted);
      } else {
        var tail := sorted[1..];
        var rest := InsertSite(s, tail);
        InsertAscends(s, tail);
        InsertedSites(s, tail);
        forall i | 0 <= i < |rest| ensures !SiteBefore(rest[i], sorted[0]) {
          assert rest[i] in multiset([s]) + multiset(tail);
          if rest[i] != s {
            var k :| 0 <= k < |tail| && tail[k] == rest[i];
            assert sorted[k + 1] == tail[k];
          }
        }
        PrependAscends(sorted[0], rest);
      }
    }
  }

  lemma {:induction false} SortAscends(sites: seq<Site>)
    ensures SitesAscend(SortSites(sites)) && multiset(SortSites(sites)) == multiset(sites)
  {
    if |sites| > 0 {
      SortAscends(sites[1..]);
      InsertAscends(sites[0], SortSites(sites[1..]));
      InsertedSites(sites[0], SortSites(sites[1..]));
      assert sites == [sites[0]] + sites[1..];
    }
  }

  /** There is one way to put sites in program order. */
  lemma {:induction false} OneOrder(a: seq<Site>, b: seq<Site>)
    requires SitesAscend(a) && SitesAscend(b) && multiset(a) == multiset(b)
    ensures a == b
    decreases |a|
  {
    hide SiteBefore;
    assert |multiset(a)| == |a| && |multiset(b)| == |b|;
    if a != [] {
      FirstSame(a, b);
      assert a == [a[0]] + a[1..] && b == [b[0]] + b[1..];
      assert multiset(a[1..]) == multiset(a) - multiset([a[0]]);
      assert multiset(b[1..]) == multiset(b) - multiset([b[0]]);
      OneOrder(a[1..], b[1..]);
    }
  }

  lemma {:induction false} FirstSame(a: seq<Site>, b: seq<Site>)
    requires SitesAscend(a) && SitesAscend(b) && multiset(a) == multiset(b) && a != [] && b != []
    ensures a[0] == b[0]
  {
    hide SiteBefore;
    assert a[0] in multiset(b) && b[0] in multiset(a);
    var i :| 0 <= i < |b| && b[i] == a[0];
    var j :| 0 <= j < |a| && a[j] == b[0];
    SiteConnected(a[0], b[0]);
  }

  lemma {:induction false} OrderedAscends(sites: seq<Site>, sorted: seq<Site>)
    ensures P.InProgramOrder(sites, sorted) <==> multiset(sorted) == multiset(sites) && SitesAscend(sorted)
  {
    forall i, j | 0 <= i < j < |sorted| ensures SiteBefore(sorted[j], sorted[i]) <==>
        P.SiteFirst(sorted[j], sorted[i]) {
      SiteOrder(sorted[j], sorted[i]);
    }
  }

  lemma {:induction false} JoiningMeans(sites: seq<Site>, s: Site)
    ensures P.Joining(sites, s) == AddSite(sites, s)
  {
    hide SortSites, P.InProgramOrder;
    if s !in sites {
      var r := SortSites(sites + [s]);
      SortAscends(sites + [s]);
      OrderedAscends(sites + [s], r);
      forall sorted | P.InProgramOrder(sites + [s], sorted) ensures sorted == r {
        OrderedAscends(sites + [s], sorted);
        OneOrder(sorted, r);
      }
    }
  }

  // ----- Channels -----

  lemma {:induction false} PutMeans(st: State, w: P.World, ms: seq<Mark>, key: string, ch: Channel, o: P.Outlet)
    requires Means(st, w, ms) && ChannelMeans(ch, o)
    ensures Means(st.(chans := st.chans[key := ch]), w.(outlets := w.outlets[key := o]), ms)
  {
    hide ChannelMeans, CellsMean, WatchesMean, TxnMeans;
    var st', w' := st.(chans := st.chans[key := ch]), w.(outlets := w.outlets[key := o]);
    forall k ensures ChannelMeans(ChannelOf(st', k), w'.OutletOf(k)) {
      assert ChannelMeans(ChannelOf(st, k), w.OutletOf(k));
    }
  }

  lemma {:induction false} ChannelAt(st: State, w: P.World, ms: seq<Mark>, key: string)
    requires Means(st, w, ms)
    ensures ChannelMeans(ChannelOf(st, key), w.OutletOf(key))
  {}

  lemma {:induction false} ContributeMeans(st: State, w: P.World, ms: seq<Mark>, key: string, x: Contribution, f: P.Fed)
    requires Means(st, w, ms) && FedMeans(x, f)
    ensures Means(Contribute(st, key, x), P.Contributed(w, key, f), ms)
  {
    hide Means;
    ChannelAt(st, w, ms, key);
    var ch, o := ChannelOf(st, key), w.OutletOf(key);
    PutMeans(st, w, ms, key, ch.(fed := ch.fed + [x]), o.(fed := o.fed + [f]));
  }

  lemma {:induction false} KeyMeans(ks: seq<Value>, ds: seq<Data>)
    requires KeysMean(ks, ds)
    ensures TupleKey(ks) == Known(P.KeyOf(ds))
  {
    assert Decided(ks) == ds;
    Operators.TupleIs(ds, TupleOf(ds));
    forall d | Operators.Tupled(ds, d) ensures d == TupleOf(ds) { Operators.TupleIs(ds, d); }
  }

  lemma {:induction false} FeedMeans(key: string, site: Site, v: Data, c: Ctx, st: State, at: P.Place, w: P.World,
          ms: seq<Mark>)
    requires At(c, at) && Means(st, w, ms)
    ensures Means(FeedInto(key, site, Known(v), c, st), P.Feeding(key, site, v, at, w), ms)
  {
    assert st.txn.Some? == w.block.Some?;
    KeyMeans(c.loopKeys, at.keys);
    hide At, Means, AddSite, P.Joining, TupleKey, P.KeyOf;
    ChannelAt(st, w, ms, key);
    JoiningMeans(ChannelOf(st, key).sites, site);
    var ch, o := ChannelOf(st, key), w.OutletOf(key);
    PutMeans(st, w, ms, key, ch.(sites := AddSite(ch.sites, site)), o.(sites := P.Joining(o.sites, site)));
    var st1, w1 := JoinSite(st, key, site), w.(outlets := w.outlets[key := o.(sites := P.Joining(o.sites, site))]);
    if st.txn.None? {
      ContributeMeans(st1, w1, ms, key, Contribution(site, TupleKey(c.loopKeys), Known(v)),
          P.Fed(site, P.KeyOf(at.keys), v));
    } else {
      ReplyAdded(st1, w1, ms, Reply(key, site, Known(v)), P.Reply(key, site, v));
    }
  }

  lemma {:induction false} ReplyAdded(st: State, w: P.World, ms: seq<Mark>, x: Reply, y: P.Reply)
    requires Means(st, w, ms) && ReplyMeans(x, y) && st.txn.Some?
    ensures w.block.Some?
    ensures var f, b := st.txn.value, w.block.value;
            Means(st.(txn := Some(f.(replies := f.replies + [x], uncertain := f.uncertain || false))),
                  w.(block := Some(b.(replies := b.replies + [y]))), ms)
  {
    hide CellsMean, WatchesMean, ChannelsMean;
    var f, b := st.txn.value, w.block.value;
    ChannelsStayMean(st, st.(txn := Some(f.(replies := f.replies + [x]))), w,
        w.(block := Some(b.(replies := b.replies + [y]))));
  }

  lemma {:induction false} DefineMeans(key: string, x: string, v: Data, c: Ctx, st: State, at: P.Place, w: P.World,
          ms: seq<Mark>)
    requires At(c, at) && Means(st, w, ms) && Lookup(c.env, x) == Some(Chan(key))
    ensures var d := DefineAs(x, Known(v), c, st);
            match P.Defining(key, v, at, w)
            case Got(w') => d.r == Ok(None) && d.env == c.env && Means(d.st, w', ms)
            case Fails(e) => d.r == Err(e) && d.st.waited == {}
            case Unanswered => false
  {
    assert c.spec == 0 && c.fed == at.textFed && st.waited == {};
    hide At, Means;
    ChannelAt(st, w, ms, key);
    var ch, o := ChannelOf(st, key), w.OutletOf(key);
    if ch.defined.None? { PutMeans(st, w, ms, key, ch.(defined := Some(Known(v))), o.(defined := Some(v))); }
  }

  // ----- Commits -----

  lemma {:induction false} PushOne(st: State, replies: seq<Reply>, at: Value)
    requires |replies| > 0
    ensures var n := |replies| - 1;
            PushReplies(st, replies, at, false)
            == Contribute(PushReplies(st, replies[..n], at, false), replies[n].chan,
                Contribution(replies[n].site, at, replies[n].value))
    decreases |replies|
  {
    var n := |replies| - 1;
    if n > 0 {
      var st1 := Contribute(st, replies[0].chan, Contribution(replies[0].site, at, replies[0].value));
      PushOne(st1, replies[1..], at);
      assert replies[1..][..n - 1] == replies[..n][1..] && replies[1..][n - 1] == replies[n];
    } else {
      assert replies[..0] == [] && replies[1..] == [];
    }
  }

  lemma {:induction false} PushMeans(st: State, w: P.World, ms: seq<Mark>, rs: seq<Reply>, qs: seq<P.Reply>, at: Data)
    requires Means(st, w, ms) && |rs| == |qs| && forall i | 0 <= i < |rs| :: ReplyMeans(rs[i], qs[i])
    ensures Means(PushReplies(st, rs, Known(at), false), P.Answered(w, qs, at), ms)
    decreases |rs|
  {
    hide Means;
    if |rs| > 0 {
      var n := |rs| - 1;
      PushOne(st, rs, Known(at));
      PushMeans(st, w, ms, rs[..n], qs[..n], at);
      ContributeMeans(PushReplies(st, rs[..n], Known(at), false), P.Answered(w, qs[..n], at), ms, rs[n].chan,
        Contribution(rs[n].site, Known(at), rs[n].value), P.Fed(qs[n].site, at, qs[n].value));
    }
  }

  lemma {:induction false} CommitMeans(st: State, w: P.World, ms: seq<Mark>)
    requires Means(st, w, ms) && st.txn.Some?
    ensures Means(Commit(st.txn.value, st.(txn := None)), P.Committing(w), ms)
  {
    hide CellsMean, WatchesMean, ChannelsMean;
    var f, b, st0, w0 := st.txn.value, w.block.value, st.(txn := None), w.(block := None);
    ChannelsStayMean(st, st0, w, w0);
    if f.wrote || |f.replies| > 0 {
      var st1 := st0.(commitTime := st.commitTime + 1, watches := MarkCommitted(st.watches));
      var w1 := w0.(clock := w.clock + 1, log := w.log + [P.Committed]);
      CommittedMean(st.watches, w.log, ms);
      ChannelsStayMean(st, st1, w, w1);
      PushMeans(st1, w1, ms, f.replies, b.replies, CommitTime(w.clock + 1));
    }
  }
}
