/** How an earlier pass relates to a later one at the same point of the program: everything the
    earlier one decided, the later one decided the same. */
module InterpBelow {
  import opened Options
  import opened InterpSyntax
  import opened InterpValues
  import opened InterpEval
  import opened InterpWeaken

  ghost predicate Below(a: Value, b: Value) {
    a.Pending? || a == b
  }

  ghost predicate ValuesBelow(a: seq<Value>, b: seq<Value>) {
    |a| == |b| && forall i | 0 <= i < |a| :: Below(a[i], b[i])
  }

  ghost predicate OptBelow(a: Option<Value>, b: Option<Value>) {
    match (a, b)
    case (None, None) => true
    case (Some(v), Some(w)) => Below(v, w)
    case _ => false
  }

  ghost predicate SlotBelow(a: Slot, b: Slot) {
    match (a, b)
    case (Val(v), Val(w)) => Below(v, w)
    case (Fn(f), Fn(g)) => f.params == g.params && f.body == g.body && EnvBelow(f.env, g.env)
    case (Mut(_), _) => a == b
    case (Chan(_), _) => a == b
    case _ => false
  }

  ghost predicate EnvBelow(a: Env, b: Env) {
    match (a, b)
    case (Empty, Empty) => true
    case (Bound(x, s, r), Bound(y, t, q)) => x == y && SlotBelow(s, t) && EnvBelow(r, q)
    case _ => false
  }

  ghost predicate CellBelow(a: Cell, b: Cell) {
    a.txn == b.txn && Below(a.value, b.value) && (a.writer.None? || a.writer == b.writer)
  }

  ghost predicate CellsBelow(a: seq<Cell>, b: seq<Cell>) {
    |a| == |b| && forall i | 0 <= i < |a| :: CellBelow(a[i], b[i])
  }

  /** `b` is `a` with each pending contribution replaced by some contributions, none included. */
  ghost predicate Cover(a: seq<Contribution>, b: seq<Contribution>)
    decreases |a| + |b|
  {
    if |a| == 0 then |b| == 0
    else if PendingContribution(a[|a| - 1]) then Cover(a[..|a| - 1], b) || (|b| > 0 && Cover(a, b[..|b| - 1]))
    else |b| > 0 && b[|b| - 1] == a[|a| - 1] && Cover(a[..|a| - 1], b[..|b| - 1])
  }

  ghost predicate ChannelBelow(a: Channel, b: Channel) {
    Cover(a.fed, b.fed) && (a.defined == Some(Pending) || a.defined == b.defined)
  }

  ghost predicate ChannelsBelow(a: State, b: State) {
    forall k :: ChannelBelow(ChannelOf(a, k), ChannelOf(b, k))
  }

  /** A channel's sites differ only where the earlier pass left it undecided, or is about to. */
  ghost predicate SitesBelow(a: State, b: State, k: string) {
    || Undecided(ChannelOf(a, k))
    || (a.txn.Some? && k in PendingReplies(a.txn.value.replies))
    || ChannelOf(a, k).sites == ChannelOf(b, k).sites
  }

  ghost predicate RepliesBelow(a: seq<Reply>, b: seq<Reply>) {
    && |a| == |b|
    && forall i | 0 <= i < |a| :: a[i].chan == b[i].chan && a[i].site == b[i].site && Below(a[i].value, b[i].value)
  }

  ghost predicate FrameBelow(a: TxnFrame, b: TxnFrame) {
    && a.site == b.site && a.writes == b.writes
    && RepliedTo(b.replies) <= RepliedTo(a.replies)
    && (a.uncertain || (!b.uncertain && a.wrote == b.wrote && RepliesBelow(a.replies, b.replies)))
  }

  ghost predicate TxnBelow(a: Option<TxnFrame>, b: Option<TxnFrame>) {
    match (a, b)
    case (None, None) => true
    case (Some(f), Some(g)) => FrameBelow(f, g)
    case _ => false
  }

  /** The first `n` loops watched are the same in both; the earlier pass moved no other. */
  ghost predicate WatchesBelow(a: seq<Watch>, b: seq<Watch>, n: nat) {
    && n <= |a| && n <= |b|
    && (forall i | 0 <= i < n :: a[i].cellsBefore == b[i].cellsBefore && (a[i].moved ==> b[i].moved))
    && (forall i | n <= i < |a| :: !a[i].moved)
  }

  ghost predicate CoreBelow(a: State, b: State, n: nat) {
    && CellsBelow(a.cells, b.cells)
    && ChannelsBelow(a, b)
    && (a.clockKnown ==> b.clockKnown && a.commitTime == b.commitTime)
    && TxnBelow(a.txn, b.txn)
    && WatchesBelow(a.watches, b.watches, n)
  }

  /** State `a` of an earlier pass is below state `b` of a later one. */
  ghost predicate StateBelow(a: State, b: State, n: nat) {
    CoreBelow(a, b, n) && forall k :: SitesBelow(a, b, k)
  }

  ghost predicate FinalsBelow(a: map<string, Data>, b: map<string, Data>) {
    forall k | k in a :: k in b && a[k] == b[k]
  }

  ghost predicate CtxBelow(a: Ctx, b: Ctx) {
    && EnvBelow(a.env, b.env)
    && FinalsBelow(a.finals, b.finals) && a.fed == b.fed
    && (b.spec > 0 ==> a.spec > 0)
    && (b.spec > b.specAtCall ==> a.spec > a.specAtCall)
    && a.specAtCall <= a.spec
    && ValuesBelow(a.loopKeys, b.loopKeys)
    && a.calls == b.calls
  }

  // ----- Scopes -----

  lemma {:induction false} LookupBelow(a: Env, b: Env, x: string)
    requires EnvBelow(a, b)
    ensures match (Lookup(a, x), Lookup(b, x))
            case (None, None) => true
            case (Some(s), Some(t)) => SlotBelow(s, t)
            case _ => false
  {
    if a.Bound? && a.name != x { LookupBelow(a.rest, b.rest, x); }
  }

  lemma {:induction false} CaptureBelow(a: Env, b: Env, ca: seq<Cell>, cb: seq<Cell>)
    requires EnvBelow(a, b) && CellsBelow(ca, cb)
    ensures EnvBelow(Capture(a, ca), Capture(b, cb))
  {
    if a.Bound? {
      CaptureBelow(a.rest, b.rest, ca, cb);
      if a.slot.Mut? && a.slot.loc < |ca| { assert CellBelow(ca[a.slot.loc], cb[a.slot.loc]); }
    }
  }

  lemma {:induction false} BindAllBelow(a: Env, b: Env, binds: seq<(string, Value)>, binds': seq<(string, Value)>)
    requires EnvBelow(a, b) && |binds| == |binds'|
    requires forall i | 0 <= i < |binds| :: binds[i].0 == binds'[i].0 && Below(binds[i].1, binds'[i].1)
    ensures EnvBelow(BindAll(a, binds), BindAll(b, binds'))
    decreases |binds|
  {
    if |binds| > 0 {
      BindAllBelow(Bound(binds[0].0, Val(binds[0].1), a), Bound(binds[0].0, Val(binds'[0].1), b), binds[1..],
          binds'[1..]);
    }
  }

  // ----- Contributions -----

  lemma {:induction false} CoverDecided(a: seq<Contribution>, b: seq<Contribution>, x: Contribution)
    requires Cover(a, b) && !PendingContribution(x)
    ensures Cover(a + [x], b + [x])
  {
    assert (a + [x])[..|a + [x]| - 1] == a && (b + [x])[..|b + [x]| - 1] == b;
  }

  lemma {:induction false} CoverPending(a: seq<Contribution>, b: seq<Contribution>, p: Contribution,
          xs: seq<Contribution>)
    requires Cover(a, b) && PendingContribution(p)
    ensures Cover(a + [p], b + xs)
  {
    assert (a + [p])[..|a + [p]| - 1] == a;
    assert b + [] == b;
    assert Cover(a + [p], b);
    CoverEnds(a + [p], b, xs);
  }

  /** A log that ends pending covers whatever is added. */
  lemma {:induction false} CoverEnds(a: seq<Contribution>, b: seq<Contribution>, xs: seq<Contribution>)
    requires Cover(a, b) && EndsPending(a)
    ensures Cover(a, b + xs)
    decreases |xs|
  {
    if |xs| == 0 {
      assert b + xs == b;
    } else {
      CoverEnds(a, b, xs[..|xs| - 1]);
      assert (b + xs)[..|b + xs| - 1] == b + xs[..|xs| - 1];
    }
  }

  /** Pending contributions added to a covering log leave it covering. */
  lemma {:induction false} CoverGrows(a: seq<Contribution>, a': seq<Contribution>, b: seq<Contribution>)
    requires Cover(a, b) && a <= a' && forall i | |a| <= i < |a'| :: PendingContribution(a'[i])
    ensures Cover(a', b)
    decreases |a'|
  {
    if |a'| > |a| {
      CoverGrows(a, a'[..|a'| - 1], b);
    } else {
      assert a == a';
    }
  }

  /** A log that ends pending covers all that the same log covers with more pending ones. */
  lemma {:induction false} CoverShrinks(a: seq<Contribution>, a': seq<Contribution>, b: seq<Contribution>)
    requires Cover(a', b) && a <= a' && EndsPending(a) && forall i | |a| <= i < |a'| :: PendingContribution(a'[i])
    ensures Cover(a, b)
    decreases |a'| + |b|
  {
    if |a'| == |a| {
      assert a == a';
    } else if Cover(a'[..|a'| - 1], b) {
      CoverShrinks(a, a'[..|a'| - 1], b);
    } else {
      CoverShrinks(a, a', b[..|b| - 1]);
    }
  }

  /** With nothing pending, covering is equality. */
  lemma {:induction false} CoverEqual(a: seq<Contribution>, b: seq<Contribution>)
    requires Cover(a, b) && forall i | 0 <= i < |a| :: !PendingContribution(a[i])
    ensures a == b
    decreases |a|
  {
    if |a| > 0 {
      CoverEqual(a[..|a| - 1], b[..|b| - 1]);
      assert a == a[..|a| - 1] + [a[|a| - 1]] && b == b[..|b| - 1] + [b[|b| - 1]];
    }
  }

  lemma {:induction false} CoverRefl(a: seq<Contribution>)
    ensures Cover(a, a)
    decreases |a|
  {
    if |a| > 0 {
      CoverRefl(a[..|a| - 1]);
      assert PendingContribution(a[|a| - 1]) ==> Cover(a, a[..|a| - 1]);
    }
  }

  /** A channel the earlier pass completed holds the same in the later one. */
  lemma {:induction false} CompleteBelow(a: State, b: State, n: nat, k: string)
    requires StateBelow(a, b, n) && a.txn.None? && !Undecided(ChannelOf(a, k))
    ensures ChannelOf(a, k) == ChannelOf(b, k)
    ensures Complete(ChannelOf(b, k)) == Complete(ChannelOf(a, k))
  {
    var ca, cb := ChannelOf(a, k), ChannelOf(b, k);
    assert ChannelBelow(ca, cb) && SitesBelow(a, b, k);
    CoverEqual(ca.fed, cb.fed);
  }

  // ----- Code only the earlier pass ran -----

  lemma {:induction false} BelowWeaker(a: State, a': State, b: State, n: nat)
    requires StateBelow(a, b, n) && Weaker(a', a) && |a'.cells| == |a.cells|
    ensures StateBelow(a', b, n)
  {
    forall i | 0 <= i < |a.cells| ensures CellBelow(a'.cells[i], b.cells[i]) {
      assert CellBelow(a.cells[i], b.cells[i]) && CellWeaker(a'.cells[i], a.cells[i]);
    }
    forall k ensures ChannelBelow(ChannelOf(a', k), ChannelOf(b, k)) {
      assert ChannelBelow(ChannelOf(a, k), ChannelOf(b, k)) && ChannelWeaker(ChannelOf(a', k), ChannelOf(a, k));
      CoverGrows(ChannelOf(a, k).fed, ChannelOf(a', k).fed, ChannelOf(b, k).fed);
    }
    forall k ensures SitesBelow(a', b, k) {
      SitesAfterWeaker(a, a', b, k);
    }
    assert TxnBelow(a'.txn, b.txn) by {
      if a.txn.Some? && a'.txn != a.txn { RepliedToGrows(a.txn.value.replies, a'.txn.value.replies); }
    }
  }

  lemma {:induction false} RepliedToGrows(r: seq<Reply>, r': seq<Reply>)
    requires r <= r'
    ensures RepliedTo(r) <= RepliedTo(r')
    ensures PendingReplies(r) <= PendingReplies(r')
  {
    forall k | k in RepliedTo(r) ensures k in RepliedTo(r') {
      var i :| 0 <= i < |r| && r[i].chan == k;
      assert r'[i].chan == k;
    }
    forall k | k in PendingReplies(r) ensures k in PendingReplies(r') {
      var i :| 0 <= i < |r| && r[i].value.Pending? && r[i].chan == k;
      assert r'[i].value.Pending? && r'[i].chan == k;
    }
  }

  lemma {:induction false} UndecidedStays(n: Channel, o: Channel)
    requires ChannelWeaker(n, o)
    ensures Undecided(o) || |n.fed| > |o.fed| ==> Undecided(n)
  {
    if |n.fed| > |o.fed| { assert PendingContribution(n.fed[|o.fed|]); }
    if i :| 0 <= i < |o.fed| && PendingContribution(o.fed[i]) { assert n.fed[i] == o.fed[i]; }
  }

  lemma {:induction false} SitesAfterWeaker(a: State, a': State, b: State, k: string)
    requires SitesBelow(a, b, k) && Weaker(a', a)
    ensures SitesBelow(a', b, k)
  {
    assert ChannelWeaker(ChannelOf(a', k), ChannelOf(a, k)) && SitesWeaker(a', a, k);
    UndecidedStays(ChannelOf(a', k), ChannelOf(a, k));
    if a.txn.Some? && k in PendingReplies(a.txn.value.replies) { RepliesGrow(a'.txn, a.txn, k); }
  }

  lemma {:induction false} BelowPop(a: State, b: State, n: nat, live: nat)
    requires StateBelow(a, b, n) && live <= |a.cells|
    ensures StateBelow(Pop(a, live), Pop(b, live), n)
  {
    var a', b' := Pop(a, live), Pop(b, live);
    forall k ensures ChannelBelow(ChannelOf(a', k), ChannelOf(b', k)) && SitesBelow(a', b', k) {
      assert ChannelBelow(ChannelOf(a, k), ChannelOf(b, k)) && SitesBelow(a, b, k);
    }
  }

  /** What only the passes' notes tell apart is equally below. */
  lemma {:induction false} BelowNotes(a: State, a': State, b: State, b': State, n: nat)
    requires StateBelow(a, b, n)
    requires a' == a.(lost := a'.lost, carried := a'.carried, waited := a'.waited)
    requires b' == b.(lost := b'.lost, carried := b'.carried, waited := b'.waited)
    ensures StateBelow(a', b', n)
  {
    forall k ensures ChannelBelow(ChannelOf(a', k), ChannelOf(b', k)) && SitesBelow(a', b', k) {
      assert ChannelBelow(ChannelOf(a, k), ChannelOf(b, k)) && SitesBelow(a, b, k);
    }
  }

  /** A second speculative run that found nothing new covers no more than the first. */
  lemma {:induction false} BelowSettled(a: State, a': State, b: State, n: nat)
    requires Weaker(a', a) && Settled(a, a') && StateBelow(a', b, n)
    ensures StateBelow(a, b, n)
  {
    forall k ensures ChannelBelow(ChannelOf(a, k), ChannelOf(b, k)) && SitesBelow(a, b, k) {
      var ca, ca', cb := ChannelOf(a, k), ChannelOf(a', k), ChannelOf(b, k);
      assert ChannelBelow(ca', cb) && SitesBelow(a', b, k) && ChannelWeaker(ca', ca);
      assert ChannelSettled(ca, ca');
      if ca != ca' {
        CoverShrinks(ca.fed, ca'.fed, cb.fed);
        assert PendingContribution(ca.fed[|ca.fed| - 1]);
      }
    }
    assert TxnBelow(a.txn, b.txn);
  }
}
