/** The steps that change a state, taken by an earlier and by a later pass at the same point: each
    keeps the earlier pass's state below the later one's. */
module InterpSteps {
  import opened Options
  import opened InterpSyntax
  import opened InterpValues
  import opened InterpEval
  import opened InterpWeaken
  import opened InterpBelow

  /** The earlier pass's failures a later pass need not share: one that left a speculative
      construct, and the refusal of a `<<=` because of a feed that may not run. */
  ghost predicate Provisional<T>(r: Res<T>) {
    r.Err? && r.error != Refused
  }

  ghost predicate Pre(c1: Ctx, c2: Ctx, s1: State, s2: State, n: nat) {
    && CtxBelow(c1, c2) && StateBelow(s1, s2, n)
    && (c1.spec == 0 ==> n == |s1.watches| && n == |s2.watches|)
  }

  /** The earlier pass followed every effect of the code it ran. */
  ghost predicate Followed(s: State) {
    !s.lost && !s.carried
  }

  /** The later pass ran the code to its end. */
  ghost predicate Ran<T>(o: Out<T>) {
    o.r.Ok? && !o.st.lost
  }

  ghost predicate Agree(o1: Out<Value>, o2: Out<Value>, n: nat) {
    Provisional(o1.r) || (o1.r.Ok? && o2.r.Ok? && Below(o1.r.value, o2.r.value) && StateBelow(o1.st, o2.st, n))
  }

  ghost predicate AgreeAll(o1: Out<seq<Value>>, o2: Out<seq<Value>>, n: nat) {
    Provisional(o1.r) || (o1.r.Ok? && o2.r.Ok? && ValuesBelow(o1.r.value, o2.r.value) && StateBelow(o1.st, o2.st, n))
  }

  ghost predicate AgreeOpt(o1: Out<Option<Value>>, o2: Out<Option<Value>>, n: nat) {
    Provisional(o1.r) || (o1.r.Ok? && o2.r.Ok? && OptBelow(o1.r.value, o2.r.value) && StateBelow(o1.st, o2.st, n))
  }

  ghost predicate AgreeUnit(o1: Out<()>, o2: Out<()>, n: nat) {
    Provisional(o1.r) || (o1.r.Ok? && o2.r.Ok? && StateBelow(o1.st, o2.st, n))
  }

  ghost predicate AgreeSlot(o1: Out<Slot>, o2: Out<Slot>, n: nat) {
    Provisional(o1.r) || (o1.r.Ok? && o2.r.Ok? && SlotBelow(o1.r.value, o2.r.value) && StateBelow(o1.st, o2.st, n))
  }

  ghost predicate AgreeEnv(o1: Out<Env>, o2: Out<Env>, n: nat) {
    Provisional(o1.r) || (o1.r.Ok? && o2.r.Ok? && EnvBelow(o1.r.value, o2.r.value) && StateBelow(o1.st, o2.st, n))
  }

  ghost predicate HasPending(out: seq<(Value, Value)>) {
    exists i | 0 <= i < |out| :: out[i].0.Pending? || out[i].1.Pending?
  }

  ghost predicate AgreeEntries(o1: Out<seq<(Value, Value)>>, o2: Out<seq<(Value, Value)>>, n: nat) {
    || Provisional(o1.r)
    || (&& o1.r.Ok? && o2.r.Ok? && (HasPending(o1.r.value) || o1.r.value == o2.r.value)
        && StateBelow(o1.st, o2.st, n))
  }

  ghost predicate AgreeDone(d1: Done, d2: Done, n: nat) {
    || Provisional(d1.r)
    || (&& d1.r.Ok? && d2.r.Ok? && OptBelow(d1.r.value, d2.r.value)
        && EnvBelow(d1.env, d2.env) && StateBelow(d1.st, d2.st, n))
  }

  // ----- The steps that change a state -----

  lemma {:induction false} ApplyBelow(op: Op, a: seq<Value>, b: seq<Value>)
    requires ValuesBelow(a, b) && Apply(op, b).Ok?
    ensures Apply(op, a).Ok? && Below(Apply(op, a).value, Apply(op, b).value)
  {
    if !AnyPending(a) {
      assert a == b;
    }
  }

  lemma {:induction false} TupleKeyBelow(a: seq<Value>, b: seq<Value>)
    requires ValuesBelow(a, b)
    ensures Below(TupleKey(a), TupleKey(b))
  {
    if !AnyPending(a) { assert a == b; }
  }

  lemma {:induction false} ReadNameBelow(x: string, c1: Ctx, c2: Ctx, s1: State, s2: State, n: nat)
    requires Pre(c1, c2, s1, s2, n) && Ran(ReadName(x, c2, s2))
    ensures Agree(ReadName(x, c1, s1), ReadName(x, c2, s2), n)
  {
    LookupBelow(c1.env, c2.env, x);
    BelowNotes(s1, ReadName(x, c1, s1).st, s2, ReadName(x, c2, s2).st, n);
    match Lookup(c1.env, x)
    case Some(Mut(loc)) => if loc < |s1.cells| { assert CellBelow(s1.cells[loc], s2.cells[loc]); }
    case _ =>
  }

  lemma {:induction false} ChannelsKept(a: State, a': State, b: State, b': State)
    requires ChannelsBelow(a, b) && a'.chans == a.chans && b'.chans == b.chans
    ensures ChannelsBelow(a', b')
  {
    forall k ensures ChannelBelow(ChannelOf(a', k), ChannelOf(b', k)) {
      assert ChannelBelow(ChannelOf(a, k), ChannelOf(b, k));
    }
  }

  lemma {:induction false} SitesKept(a: State, a': State, b: State, b': State)
    requires forall k :: SitesBelow(a, b, k)
    requires a'.chans == a.chans && b'.chans == b.chans
    requires a.txn.Some? ==> a'.txn.Some? && PendingReplies(a.txn.value.replies) <= PendingReplies(a'.txn.value.replies)
    ensures forall k :: SitesBelow(a', b', k)
  {
    forall k ensures SitesBelow(a', b', k) {
      assert SitesBelow(a, b, k);
      assert ChannelOf(a', k) == ChannelOf(a, k) && ChannelOf(b', k) == ChannelOf(b, k);
    }
  }

  lemma {:induction false} CellsUpdated(a: seq<Cell>, b: seq<Cell>, loc: nat, x: Cell, y: Cell)
    requires CellsBelow(a, b) && loc < |a| && CellBelow(x, y)
    ensures CellsBelow(a[loc := x], b[loc := y])
  {
  }

  lemma {:induction false} Assembled(a: State, a': State, b: State, b': State, n: nat)
    requires StateBelow(a, b, n)
    requires a' == a.(cells := a'.cells, txn := a'.txn, watches := a'.watches)
    requires b' == b.(cells := b'.cells, txn := b'.txn, watches := b'.watches)
    requires CellsBelow(a'.cells, b'.cells) && TxnBelow(a'.txn, b'.txn) && WatchesBelow(a'.watches, b'.watches, n)
    requires a.txn.Some? ==> a'.txn.Some? && a.txn.value.replies == a'.txn.value.replies
    ensures StateBelow(a', b', n)
  {
    ChannelsKept(a, a', b, b');
    SitesKept(a, a', b, b');
  }

  /** The cell a write leaves. */
  function Written(c: Ctx, st: State, x: Cell, v: Value): Cell {
    if c.spec > 0 then x.(value := Pending)
    else Cell(x.name, v, x.txn, if x.txn && st.txn.Some? then Some(st.txn.value.site) else x.writer)
  }

  lemma {:induction false} WrittenBelow(c1: Ctx, c2: Ctx, s1: State, s2: State, x1: Cell, x2: Cell, v1: Value,
          v2: Value)
    requires (c2.spec > 0 ==> c1.spec > 0) && TxnBelow(s1.txn, s2.txn) && CellBelow(x1, x2) && Below(v1, v2)
    requires c2.spec == 0 && x2.txn && s2.txn.Some? && x2.writer.Some? ==> x2.writer.value == s2.txn.value.site
    ensures CellBelow(Written(c1, s1, x1, v1), Written(c2, s2, x2, v2))
  {
  }

  lemma {:induction false} MarkedBelow(a: seq<Watch>, b: seq<Watch>, n: nat, loc: nat)
    requires WatchesBelow(a, b, n)
    ensures WatchesBelow(a, MarkWritten(b, loc), n)
    ensures n == |a| ==> WatchesBelow(MarkWritten(a, loc), MarkWritten(b, loc), n)
  {
  }

  lemma {:induction false} WriteBelow(c1: Ctx, c2: Ctx, s1: State, s2: State, n: nat, loc: nat, v1: Value, v2: Value)
    requires Pre(c1, c2, s1, s2, n) && Below(v1, v2) && Ran(Write(c2, s2, loc, v2))
    ensures AgreeUnit(Write(c1, s1, loc, v1), Write(c2, s2, loc, v2), n)
  {
    hide EvalRaw;
    WriteShape(c2, s2, loc, v2);
    assert CellBelow(s1.cells[loc], s2.cells[loc]);
    WriteShape(c1, s1, loc, v1);
    WrittenBelow(c1, c2, s1, s2, s1.cells[loc], s2.cells[loc], v1, v2);
    MarkedBelow(s1.watches, s2.watches, n, loc);
    var y1, y2 := Written(c1, s1, s1.cells[loc], v1), Written(c2, s2, s2.cells[loc], v2);
    CellsUpdated(s1.cells, s2.cells, loc, y1, y2);
    Assembled(s1, Write(c1, s1, loc, v1).st, s2, Write(c2, s2, loc, v2).st, n);
  }

  /** A write that is not refused. */
  lemma {:induction false} WriteShape(c: Ctx, st: State, loc: nat, v: Value)
    ensures var o := Write(c, st, loc, v);
            && (o.r.Ok? <==> loc < |st.cells| && (c.spec > 0 || !Conflict(st, st.cells[loc])))
            && (o.r.Ok? ==> o.st == st.(
                  cells := st.cells[loc := Written(c, st, st.cells[loc], v)],
                  txn := o.st.txn,
                  watches := if c.spec > 0 then st.watches else MarkWritten(st.watches, loc)))
            && (o.r.Ok? ==> o.st.txn == Noted(c, st.txn))
            && (o.r.Err? ==> o.r.error == Refused)
  {
  }

  /** The block in progress after a write. */
  function Noted(c: Ctx, txn: Option<TxnFrame>): Option<TxnFrame> {
    match txn
    case None => None
    case Some(f) => Some(if c.spec > 0 then f.(uncertain := true) else f.(wrote := true))
  }

  /** Whether another block has written this `Txn` cell. */
  predicate Conflict(st: State, x: Cell) {
    x.txn && st.txn.Some? && x.writer.Some? && x.writer.value != st.txn.value.site
  }

  /** A step on one channel, both passes taking it or only the later. */
  lemma {:induction false} OneChannelBelow(a: State, a': State, b: State, b': State, n: nat, key: string)
    requires StateBelow(a, b, n)
    requires a' == a.(chans := a.chans[key := ChannelOf(a', key)])
    requires b' == b.(chans := b.chans[key := ChannelOf(b', key)])
    requires ChannelBelow(ChannelOf(a', key), ChannelOf(b', key)) && SitesBelow(a', b', key)
    ensures StateBelow(a', b', n)
  {
    forall k ensures ChannelBelow(ChannelOf(a', k), ChannelOf(b', k)) && SitesBelow(a', b', k) {
      if k != key {
        assert ChannelBelow(ChannelOf(a, k), ChannelOf(b, k)) && SitesBelow(a, b, k);
        assert ChannelOf(a', k) == ChannelOf(a, k) && ChannelOf(b', k) == ChannelOf(b, k);
      }
    }
  }

  lemma {:induction false} AtChannel(s1: State, s2: State, n: nat, key: string)
    requires StateBelow(s1, s2, n)
    ensures ChannelBelow(ChannelOf(s1, key), ChannelOf(s2, key)) && SitesBelow(s1, s2, key)
  {
  }

  lemma {:induction false} PutBelow(s1: State, s2: State, n: nat, key: string, x: Channel, y: Channel)
    requires StateBelow(s1, s2, n) && ChannelBelow(x, y)
    requires Undecided(x) || (x.sites == ChannelOf(s1, key).sites && y.sites == ChannelOf(s2, key).sites
             && !Undecided(ChannelOf(s1, key)))
    ensures StateBelow(s1.(chans := s1.chans[key := x]), s2.(chans := s2.chans[key := y]), n)
  {
    AtChannel(s1, s2, n, key);
    var t1, t2 := s1.(chans := s1.chans[key := x]), s2.(chans := s2.chans[key := y]);
    assert ChannelOf(t1, key) == x && ChannelOf(t2, key) == y;
    hide StateBelow, Cover, Undecided;
    OneChannelBelow(s1, t1, s2, t2, n, key);
  }

  lemma {:induction false} DefineChannelBelow(x: string, key: string, v1: Value, v2: Value, c1: Ctx, c2: Ctx,
          s1: State, s2: State, n: nat)
    requires Pre(c1, c2, s1, s2, n) && Below(v1, v2)
    requires Lookup(c1.env, x) == Lookup(c2.env, x) == Some(Chan(key))
    requires DefineAs(x, v1, c1, s1).r.Ok? && DefineAs(x, v2, c2, s2).r.Ok?
    ensures StateBelow(DefineAs(x, v1, c1, s1).st, DefineAs(x, v2, c2, s2).st, n)
  {
    hide StateBelow, EnvBelow, Cover, Lookup, FinalsBelow;
    AtChannel(s1, s2, n, key);
    var ch1, ch2 := ChannelOf(s1, key), ChannelOf(s2, key);
    var d1 := if c1.spec > 0 || ch1.defined == Some(Pending) then Pending else v1;
    var d2 := if c2.spec > 0 || ch2.defined == Some(Pending) then Pending else v2;
    assert DefineAs(x, v1, c1, s1).st == s1.(chans := s1.chans[key := ch1.(defined := Some(d1))]);
    assert DefineAs(x, v2, c2, s2).st == s2.(chans := s2.chans[key := ch2.(defined := Some(d2))]);
    PutBelow(s1, s2, n, key, ch1.(defined := Some(d1)), ch2.(defined := Some(d2)));
  }

  lemma {:induction false} DefineBelow(x: string, v1: Value, v2: Value, c1: Ctx, c2: Ctx, s1: State, s2: State, n: nat)
    requires Pre(c1, c2, s1, s2, n) && Below(v1, v2)
    requires DefineAs(x, v2, c2, s2).r.Ok?
    ensures AgreeDone(DefineAs(x, v1, c1, s1), DefineAs(x, v2, c2, s2), n)
  {
    LookupBelow(c1.env, c2.env, x);
    match Lookup(c1.env, x)
    case Some(Chan(key)) =>
      AtChannel(s1, s2, n, key);
      if DefineAs(x, v1, c1, s1).r.Ok? { DefineChannelBelow(x, key, v1, v2, c1, c2, s1, s2, n); }
    case _ =>
  }

  lemma {:induction false} FeedBelow(key: string, site: Site, v1: Value, v2: Value, c1: Ctx, c2: Ctx, s1: State,
          s2: State, n: nat)
    requires Pre(c1, c2, s1, s2, n) && Below(v1, v2)
    ensures StateBelow(FeedInto(key, site, v1, c1, s1), FeedInto(key, site, v2, c2, s2), n)
  {
    var a, b := FeedInto(key, site, v1, c1, s1), FeedInto(key, site, v2, c2, s2);
    var ch1, ch2 := ChannelOf(s1, key), ChannelOf(s2, key);
    assert ChannelBelow(ch1, ch2) && SitesBelow(s1, s2, key);
    if s1.txn.None? {
      FeedContributes(key, site, v1, v2, c1, c2, s1, s2, n);
    } else {
      FeedReplies(key, site, v1, v2, c1, c2, s1, s2, n);
    }
  }

  /** A feed outside a block: one contribution, under a site that has joined. */
  lemma {:induction false} FeedShape(key: string, site: Site, v: Value, c: Ctx, st: State)
    requires st.txn.None?
    ensures var x := Contribution(site, TupleKey(c.loopKeys), if c.spec > 0 then Pending else v);
            var ch := ChannelOf(st, key);
            FeedInto(key, site, v, c, st)
            == st.(chans := st.chans[key := ch.(fed := ch.fed + [x], sites := AddSite(ch.sites, site))])
  {
    var x := Contribution(site, TupleKey(c.loopKeys), if c.spec > 0 then Pending else v);
    var ch := ChannelOf(st, key);
    assert FeedInto(key, site, v, c, st).chans
        == st.chans[key := ch.(fed := ch.fed + [x], sites := AddSite(ch.sites, site))];
  }

  lemma {:induction false} FeedContributes(key: string, site: Site, v1: Value, v2: Value, c1: Ctx, c2: Ctx, s1: State,
          s2: State, n: nat)
    requires Pre(c1, c2, s1, s2, n) && Below(v1, v2) && s1.txn.None?
    ensures StateBelow(FeedInto(key, site, v1, c1, s1), FeedInto(key, site, v2, c2, s2), n)
  {
    FeedShape(key, site, v1, c1, s1);
    FeedShape(key, site, v2, c2, s2);
    TupleKeyBelow(c1.loopKeys, c2.loopKeys);
    var x1 := Contribution(site, TupleKey(c1.loopKeys), if c1.spec > 0 then Pending else v1);
    var x2 := Contribution(site, TupleKey(c2.loopKeys), if c2.spec > 0 then Pending else v2);
    ContributionBelow(s1, s2, n, key, site, x1, x2);
  }

  /** A contribution both passes make, under a site both add. */
  lemma {:induction false} ContributionBelow(s1: State, s2: State, n: nat, key: string, site: Site, x1: Contribution,
          x2: Contribution)
    requires StateBelow(s1, s2, n) && s1.txn.None? && (PendingContribution(x1) || x1 == x2)
    ensures var ch1, ch2 := ChannelOf(s1, key), ChannelOf(s2, key);
            StateBelow(
              s1.(chans := s1.chans[key := ch1.(fed := ch1.fed + [x1], sites := AddSite(ch1.sites, site))]),
              s2.(chans := s2.chans[key := ch2.(fed := ch2.fed + [x2], sites := AddSite(ch2.sites, site))]), n)
  {
    var ch1, ch2 := ChannelOf(s1, key), ChannelOf(s2, key);
    assert ChannelBelow(ch1, ch2) && SitesBelow(s1, s2, key);
    var a := s1.(chans := s1.chans[key := ch1.(fed := ch1.fed + [x1], sites := AddSite(ch1.sites, site))]);
    var b := s2.(chans := s2.chans[key := ch2.(fed := ch2.fed + [x2], sites := AddSite(ch2.sites, site))]);
    var f1 := ch1.fed + [x1];
    if PendingContribution(x1) {
      CoverPending(ch1.fed, ch2.fed, x1, [x2]);
      assert PendingContribution(f1[|f1| - 1]);
    } else {
      CoverDecided(ch1.fed, ch2.fed, x1);
    }
    if i :| 0 <= i < |ch1.fed| && PendingContribution(ch1.fed[i]) { assert PendingContribution(f1[i]); }
    assert SitesBelow(a, b, key);
    OneChannelBelow(s1, a, s2, b, n, key);
  }

  lemma {:induction false} FeedReplies(key: string, site: Site, v1: Value, v2: Value, c1: Ctx, c2: Ctx, s1: State,
          s2: State, n: nat)
    requires Pre(c1, c2, s1, s2, n) && Below(v1, v2) && s1.txn.Some?
    ensures StateBelow(FeedInto(key, site, v1, c1, s1), FeedInto(key, site, v2, c2, s2), n)
  {
    var a, b := FeedInto(key, site, v1, c1, s1), FeedInto(key, site, v2, c2, s2);
    var f, g := s1.txn.value, s2.txn.value;
    var r1 := Reply(key, site, if c1.spec > 0 then Pending else v1);
    var r2 := Reply(key, site, if c2.spec > 0 then Pending else v2);
    assert a.txn.value.replies == f.replies + [r1] && b.txn.value.replies == g.replies + [r2];
    RepliedToGrows(f.replies, f.replies + [r1]);
    ReplyAdded(f.replies, r1);
    ReplyAdded(g.replies, r2);
    forall k ensures ChannelBelow(ChannelOf(a, k), ChannelOf(b, k)) && SitesBelow(a, b, k) {
      assert ChannelBelow(ChannelOf(s1, k), ChannelOf(s2, k)) && SitesBelow(s1, s2, k);
      assert ChannelOf(a, k).fed == ChannelOf(s1, k).fed && ChannelOf(b, k).fed == ChannelOf(s2, k).fed;
      if k != key { assert ChannelOf(a, k) == ChannelOf(s1, k) && ChannelOf(b, k) == ChannelOf(s2, k); }
    }
  }

  lemma {:induction false} ReplyAdded(rs: seq<Reply>, r: Reply)
    ensures RepliedTo(rs + [r]) == RepliedTo(rs) + {r.chan}
    ensures r.value.Pending? ==> r.chan in PendingReplies(rs + [r])
  {
    var rs' := rs + [r];
    assert rs'[|rs|] == r;
    forall k ensures k in RepliedTo(rs') <==> k in RepliedTo(rs) + {r.chan} {
      if k in RepliedTo(rs) { var i :| 0 <= i < |rs| && rs[i].chan == k; assert rs'[i].chan == k; }
      if k in RepliedTo(rs') { var i :| 0 <= i < |rs'| && rs'[i].chan == k; if i < |rs| { assert rs[i].chan == k; } }
    }
  }

  // ----- Commits -----

  /** A channel after more contributions. */
  ghost predicate Extends(n: Channel, o: Channel) {
    n.sites == o.sites && n.defined == o.defined && o.fed <= n.fed
  }

  lemma {:induction false} PushExtends(st: State, replies: seq<Reply>, at: Value, pending: bool, k: string)
    ensures Extends(ChannelOf(PushReplies(st, replies, at, pending), k), ChannelOf(st, k))
    decreases |replies|
  {
    if |replies| > 0 {
      var r := replies[0];
      var st1 := Contribute(st, r.chan, Contribution(r.site, at, if pending then Pending else r.value));
      assert Extends(ChannelOf(st1, k), ChannelOf(st, k));
      PushExtends(st1, replies[1..], at, pending, k);
    }
  }

  /** A pending reply leaves its channel undecided. */
  lemma {:induction false} PushUndecides(st: State, replies: seq<Reply>, at: Value, pending: bool, i: nat)
    requires i < |replies| && (pending || replies[i].value.Pending?)
    ensures Undecided(ChannelOf(PushReplies(st, replies, at, pending), replies[i].chan))
    decreases |replies|
  {
    var r := replies[0];
    var c := Contribution(r.site, at, if pending then Pending else r.value);
    var st1 := Contribute(st, r.chan, c);
    var n := PushReplies(st1, replies[1..], at, pending);
    if i == 0 {
      PushExtends(st1, replies[1..], at, pending, r.chan);
      var m := |ChannelOf(st, r.chan).fed|;
      assert ChannelOf(st1, r.chan).fed[m] == c;
      assert PendingContribution(ChannelOf(n, r.chan).fed[m]);
    } else {
      PushUndecides(st1, replies[1..], at, pending, i - 1);
    }
  }

  lemma {:induction false} ContributeBelow(a: State, b: State, n: nat, k: string, x: Contribution, y: Contribution)
    requires CoreBelow(a, b, n) && (PendingContribution(x) || x == y)
    ensures CoreBelow(Contribute(a, k, x), Contribute(b, k, y), n)
  {
    var a', b' := Contribute(a, k, x), Contribute(b, k, y);
    forall j ensures ChannelBelow(ChannelOf(a', j), ChannelOf(b', j)) {
      assert ChannelBelow(ChannelOf(a, j), ChannelOf(b, j));
      if j == k {
        if PendingContribution(x) {
          CoverPending(ChannelOf(a, k).fed, ChannelOf(b, k).fed, x, [y]);
        } else {
          CoverDecided(ChannelOf(a, k).fed, ChannelOf(b, k).fed, x);
        }
      } else {
        assert ChannelOf(a', j) == ChannelOf(a, j) && ChannelOf(b', j) == ChannelOf(b, j);
      }
    }
  }

  lemma {:induction false} PushBelow(a: State, b: State, n: nat, r1: seq<Reply>, r2: seq<Reply>, at1: Value, at2: Value)
    requires CoreBelow(a, b, n) && RepliesBelow(r1, r2) && Below(at1, at2)
    ensures CoreBelow(PushReplies(a, r1, at1, false), PushReplies(b, r2, at2, false), n)
    decreases |r1|
  {
    if |r1| > 0 {
      var x, y := Contribution(r1[0].site, at1, r1[0].value), Contribution(r2[0].site, at2, r2[0].value);
      ContributeBelow(a, b, n, r1[0].chan, x, y);
      PushBelow(Contribute(a, r1[0].chan, x), Contribute(b, r2[0].chan, y), n, r1[1..], r2[1..], at1, at2);
    }
  }

  /** What the later pass replies is covered where the earlier one's channels end pending. */
  lemma {:induction false} PushCovered(a: State, b: State, n: nat, r2: seq<Reply>, at: Value, pending: bool)
    requires CoreBelow(a, b, n)
    requires forall k | k in RepliedTo(r2) :: EndsPending(ChannelOf(a, k).fed)
    ensures CoreBelow(a, PushReplies(b, r2, at, pending), n)
    decreases |r2|
  {
    hide EvalRaw;
    if |r2| > 0 {
      var k := r2[0].chan;
      assert k in RepliedTo(r2);
      var y := Contribution(r2[0].site, at, if pending then Pending else r2[0].value);
      var b' := Contribute(b, k, y);
      forall j ensures ChannelBelow(ChannelOf(a, j), ChannelOf(b', j)) {
        assert ChannelBelow(ChannelOf(a, j), ChannelOf(b, j));
        if j == k { CoverEnds(ChannelOf(a, k).fed, ChannelOf(b, k).fed, [y]); }
        else { assert ChannelOf(b', j) == ChannelOf(b, j); }
      }
      forall j | j in RepliedTo(r2[1..]) ensures EndsPending(ChannelOf(a, j).fed) {
        var i :| 0 <= i < |r2[1..]| && r2[1..][i].chan == j;
        assert r2[i + 1].chan == j;
      }
      PushCovered(a, b', n, r2[1..], at, pending);
    }
  }

  /** A block the earlier pass ran speculatively is undecided or denied. */
  ghost predicate Committable(s: State, n: nat) {
    s.txn.Some? && (n == |s.watches| || s.txn.value.uncertain || (!s.txn.value.wrote && |s.txn.value.replies| == 0))
  }

  lemma {:induction false} CommitBelow(s1: State, s2: State, n: nat)
    requires StateBelow(s1, s2, n) && s1.txn.Some? && Committable(s1, n)
    ensures StateBelow(Commit(s1.txn.value, s1.(txn := None)), Commit(s2.txn.value, s2.(txn := None)), n)
  {
    hide EvalRaw;
    var f, g := s1.txn.value, s2.txn.value;
    var a, b := s1.(txn := None), s2.(txn := None);
    ChannelsKept(s1, a, s2, b);
    assert CoreBelow(a, b, n);
    if f.uncertain { CommitUncertain(s1, s2, n); } else { CommitCertain(s1, s2, n); }
    var a', b' := Commit(f, a), Commit(g, b);
    forall k ensures SitesBelow(a', b', k) {
      assert SitesBelow(s1, s2, k);
      CommitKeepsSites(f, a, k);
      CommitKeepsSites(g, b, k);
      if k in PendingReplies(f.replies) {
        var i :| 0 <= i < |f.replies| && f.replies[i].value.Pending? && f.replies[i].chan == k;
        CommitUndecides(f, a, i);
      }
    }
  }

  lemma {:induction false} CommitKeepsSites(f: TxnFrame, st: State, k: string)
    ensures ChannelOf(Commit(f, st), k).sites == ChannelOf(st, k).sites
    ensures Undecided(ChannelOf(st, k)) ==> Undecided(ChannelOf(Commit(f, st), k))
  {
    var st1 := st.(commitTime := st.commitTime + 1, watches := MarkCommitted(st.watches));
    var at := if st.clockKnown then Known(CommitTime(st1.commitTime)) else Pending;
    PushExtends(st.(clockKnown := false), f.replies, Pending, true, k);
    PushExtends(st1, f.replies, at, false, k);
    assert ChannelOf(st.(clockKnown := false), k) == ChannelOf(st, k) && ChannelOf(st1, k) == ChannelOf(st, k);
    var n := ChannelOf(Commit(f, st), k);
    if i :| 0 <= i < |ChannelOf(st, k).fed| && PendingContribution(ChannelOf(st, k).fed[i]) {
      assert n.fed[i] == ChannelOf(st, k).fed[i];
    }
  }

  lemma {:induction false} CommitUndecides(f: TxnFrame, st: State, i: nat)
    requires i < |f.replies| && f.replies[i].value.Pending?
    ensures Undecided(ChannelOf(Commit(f, st), f.replies[i].chan))
  {
    var st1 := st.(commitTime := st.commitTime + 1, watches := MarkCommitted(st.watches));
    var at := if st.clockKnown then Known(CommitTime(st1.commitTime)) else Pending;
    if f.uncertain {
      PushUndecides(st.(clockKnown := false), f.replies, Pending, true, i);
    } else {
      PushUndecides(st1, f.replies, at, false, i);
    }
  }

  lemma {:induction false} CommitUncertain(s1: State, s2: State, n: nat)
    requires StateBelow(s1, s2, n) && s1.txn.Some? && s1.txn.value.uncertain
    ensures CoreBelow(Commit(s1.txn.value, s1.(txn := None)), Commit(s2.txn.value, s2.(txn := None)), n)
  {
    hide Cover;
    var f, g := s1.txn.value, s2.txn.value;
    var a := s1.(txn := None, clockKnown := false);
    PushWeakens(a, f.replies);
    var a' := PushReplies(a, f.replies, Pending, true);
    var b0 := s2.(txn := None);
    var b1 := b0.(clockKnown := false);
    var b2 := b0.(commitTime := b0.commitTime + 1, watches := MarkCommitted(b0.watches));
    ChannelsKept(s1, a, s2, b0);
    assert CoreBelow(a, b0, n);
    CoreWeaker(a, a', b0, n);
    forall k | k in RepliedTo(g.replies) ensures EndsPending(ChannelOf(a', k).fed) {
      assert k in RepliedTo(f.replies);
      assert ChannelWeaker(ChannelOf(a', k), ChannelOf(a, k));
    }
    ChannelsKept(a', a', b0, b1);
    ChannelsKept(a', a', b0, b2);
    if g.uncertain {
      PushCovered(a', b1, n, g.replies, Pending, true);
    } else if g.wrote || |g.replies| > 0 {
      var at := if b0.clockKnown then Known(CommitTime(b2.commitTime)) else Pending;
      PushCovered(a', b2, n, g.replies, at, false);
    }
  }

  lemma {:induction false} CoreWeaker(a: State, a': State, b: State, n: nat)
    requires CoreBelow(a, b, n) && Weaker(a', a) && a'.cells == a.cells && a'.txn == a.txn
    ensures CoreBelow(a', b, n)
  {
    forall k ensures ChannelBelow(ChannelOf(a', k), ChannelOf(b, k)) {
      assert ChannelBelow(ChannelOf(a, k), ChannelOf(b, k)) && ChannelWeaker(ChannelOf(a', k), ChannelOf(a, k));
      CoverGrows(ChannelOf(a, k).fed, ChannelOf(a', k).fed, ChannelOf(b, k).fed);
    }
  }

  lemma {:induction false} CommitCertain(s1: State, s2: State, n: nat)
    requires StateBelow(s1, s2, n) && Committable(s1, n) && !s1.txn.value.uncertain
    ensures CoreBelow(Commit(s1.txn.value, s1.(txn := None)), Commit(s2.txn.value, s2.(txn := None)), n)
  {
    var f, g := s1.txn.value, s2.txn.value;
    var a, b := s1.(txn := None), s2.(txn := None);
    ChannelsKept(s1, a, s2, b);
    if f.wrote || |f.replies| > 0 {
      var a1 := a.(commitTime := a.commitTime + 1, watches := MarkCommitted(a.watches));
      var b1 := b.(commitTime := b.commitTime + 1, watches := MarkCommitted(b.watches));
      ChannelsKept(a, a1, b, b1);
      var at1 := if a.clockKnown then Known(CommitTime(a1.commitTime)) else Pending;
      var at2 := if b.clockKnown then Known(CommitTime(b1.commitTime)) else Pending;
      PushBelow(a1, b1, n, f.replies, g.replies, at1, at2);
    }
  }
}
