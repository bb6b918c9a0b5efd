/** The steps of two speculative runs that keep the same rule. */
module InterpTwinSteps {
  import opened Options
  import opened InterpSyntax
  import opened InterpValues
  import opened InterpEval
  import opened InterpBelow
  import opened InterpSteps
  import opened InterpCalm
  import opened InterpTwins

  /** Where two runs are compared: the rule, the cells there were when they began, and the parts of
      the program. */
  datatype Zone = Zone(rule: Rule, base: nat, parts: set<Part>)

  ghost predicate ZoneOk(z: Zone) {
    && z.rule.txns == TxnNames(z.parts) && (z.rule.calls ==> FunctionsSteady(z.parts, z.rule))
    && forall p | p in z.parts && p.FunctionBody? :: AllByValue(p.params)
  }

  function Floor(z: Zone, fn: bool): Option<nat> {
    Some(if fn then z.base else 0)
  }

  /** The scope and state of both runs, inside a function that they called or not. */
  ghost predicate Joint(ea: Env, eb: Env, a: State, b: State, z: Zone, fn: bool) {
    && ZoneOk(z) && EnvTwin(ea, eb, z.rule.written) && Placed(ea, a.cells, Floor(z, fn), z.parts)
    && TxnsDeclared(a.cells, z.parts) && z.base <= |a.cells| && Twin(a, b, z.rule.written)
  }

  ghost predicate Firm(a0: State, b0: State, a: State, b: State, z: Zone) {
    Linked(a0, b0, a, b, z.rule.written, z.base)
  }

  /** Both runs did the same, unless the first lost something. */
  ghost predicate Same(a0: State, b0: State, a: State, b: State, z: Zone) {
    a.lost || Firm(a0, b0, a, b, z)
  }

  lemma {:induction false} FirmTrans(a0: State, b0: State, a1: State, b1: State, a2: State, b2: State, z: Zone)
    requires Firm(a0, b0, a1, b1, z) && Firm(a1, b1, a2, b2, z)
    ensures Firm(a0, b0, a2, b2, z)
  {
    hide Linked;
    LinkedTrans(a0, b0, a1, b1, a2, b2, z.rule.written, z.base);
  }

  lemma {:induction false} SameTrans(a0: State, b0: State, a1: State, b1: State, a2: State, b2: State, z: Zone)
    requires Same(a0, b0, a1, b1, z) && Same(a1, b1, a2, b2, z) && Sticky(a1, a2)
    ensures Same(a0, b0, a2, b2, z)
  {
    hide Linked;
    if !a2.lost { LinkedTrans(a0, b0, a1, b1, a2, b2, z.rule.written, z.base); }
  }

  lemma {:induction false} SameRefl(ea: Env, eb: Env, a: State, b: State, z: Zone, fn: bool)
    requires Joint(ea, eb, a, b, z, fn)
    ensures Firm(a, b, a, b, z)
  {
    LinkedRefl(a, b, z.rule.written, z.base);
  }

  /** On after a step that left no cell of its own behind. */
  lemma {:induction false} Onward(ea: Env, eb: Env, a: State, b: State, a': State, b': State, z: Zone, fn: bool)
    requires Joint(ea, eb, a, b, z, fn) && Firm(a, b, a', b', z) && Kept(a, a')
    ensures Joint(ea, eb, a', b', z, fn)
  {
    PlacedStays(ea, a.cells, a'.cells, Floor(z, fn), z.parts);
  }

  // ----- Reads -----

  lemma {:induction false} ReadNameSame(x: string, ca: Ctx, cb: Ctx, a: State, b: State, z: Zone, fn: bool)
    requires cb == ca.In(cb.env) && Joint(ca.env, cb.env, a, b, z, fn)
    ensures var oa, ob := ReadName(x, ca, a), ReadName(x, cb, b);
            && Firm(a, b, oa.st, ob.st, z)
            && (x !in z.rule.written ==> ob.r == oa.r)
            && (oa.r.Ok? ==> ob.r.Ok? && Below(ob.r.value, oa.r.value))
  {
    hide Placed, EnvTwin, ZoneOk, Linked;
    LookupTwin(ca.env, cb.env, x, z.rule.written);
    LookupPlaced(ca.env, x, a.cells, Floor(z, fn), z.parts);
    LinkedRefl(a, b, z.rule.written, z.base);
    LinkedNotes(a, b, a, b, ReadName(x, ca, a).st, ReadName(x, cb, b).st, z.rule.written, z.base);
  }

  lemma {:induction false} AwaitSame(x: string, ca: Ctx, cb: Ctx, a: State, b: State, z: Zone, fn: bool, fuel: nat)
    requires cb == ca.In(cb.env) && Joint(ca.env, cb.env, a, b, z, fn) && x !in z.rule.written
    ensures var oa, ob := EvalRaw(AwaitFinal(x), ca, a, fuel), EvalRaw(AwaitFinal(x), cb, b, fuel);
            oa.st == a && ob.st == b && ob.r == oa.r
  {
    hide Placed, Eval, EvalAll, EvalChain, EvalBool, EvalCall, Comprehend, RunBranches, RunMatch;
    LookupTwin(ca.env, cb.env, x, z.rule.written);
    LookupPlaced(ca.env, x, a.cells, Floor(z, fn), z.parts);
  }

  // ----- Writes -----

  lemma {:induction false} WriteSame(ca: Ctx, cb: Ctx, a: State, b: State, loc: nat, va: Value, vb: Value, ea: Env,
          eb: Env, z: Zone, fn: bool)
    requires ca.spec > 0 && cb.spec > 0 && Joint(ea, eb, a, b, z, fn)
    requires loc < |a.cells| && (a.cells[loc].name in z.rule.written || loc >= z.base)
    ensures var oa, ob := Write(ca, a, loc, va), Write(cb, b, loc, vb);
            oa.r == ob.r == Ok(()) && Firm(a, b, oa.st, ob.st, z)
  {
    hide Placed, EnvTwin, ZoneOk;
    LinkedRefl(a, b, z.rule.written, z.base);
    ChannelsSame(a, b, a, b, Write(ca, a, loc, va).st, Write(cb, b, loc, vb).st);
  }

  /** A variable that may be written is one of the rule, or above the base. */
  lemma {:induction false} WritableAt(x: string, ea: Env, eb: Env, a: State, b: State, z: Zone, fn: bool)
    requires Joint(ea, eb, a, b, z, fn) && MayWrite(x, z.rule, fn)
    requires Lookup(ea, x).Some? && Lookup(ea, x).value.Mut?
    ensures var loc := Lookup(ea, x).value.loc;
            && loc < |a.cells| && a.cells[loc].name == x && Lookup(eb, x) == Lookup(ea, x)
            && (a.cells[loc].name in z.rule.written || loc >= z.base)
  {
    hide Placed;
    LookupTwin(ea, eb, x, z.rule.written);
    LookupPlaced(ea, x, a.cells, Floor(z, fn), z.parts);
    var loc := Lookup(ea, x).value.loc;
    if a.cells[loc].txn { assert TxnVariable(x) in z.parts; assert x in TxnNames(z.parts); }
  }

  lemma {:induction false} AssignMutSame(x: string, txn: bool, va: Value, vb: Value, ca: Ctx, cb: Ctx, a: State,
          b: State, z: Zone, fn: bool)
    requires ca.spec > 0 && cb == ca.In(cb.env) && Joint(ca.env, cb.env, a, b, z, fn) && MayWrite(x, z.rule, fn)
    requires (txn ==> TxnVariable(x) in z.parts) && (vb == va || (x in z.rule.written && vb.Pending?))
    ensures var da, db := AssignMut(x, txn, va, ca, a), AssignMut(x, txn, vb, cb, b);
            da.r == db.r == Ok(None) && Firm(a, b, da.st, db.st, z) && Joint(da.env, db.env, da.st, db.st, z, fn)
  {
    hide Placed, EnvTwin, ZoneOk;
    LookupTwin(ca.env, cb.env, x, z.rule.written);
    match Lookup(ca.env, x)
    case Some(Mut(loc)) =>
      WritableAt(x, ca.env, cb.env, a, b, z, fn);
      WriteSame(ca, cb, a, b, loc, va, vb, ca.env, cb.env, z, fn);
      Onward(ca.env, cb.env, a, b, Write(ca, a, loc, va).st, Write(cb, b, loc, vb).st, z, fn);
    case _ => MadeSame(x, txn, va, vb, ca.env, cb.env, a, b, z, fn);
  }

  lemma {:induction false} MadeSame(x: string, txn: bool, va: Value, vb: Value, ea: Env, eb: Env, a: State, b: State,
          z: Zone, fn: bool)
    requires Joint(ea, eb, a, b, z, fn)
    requires (txn ==> TxnVariable(x) in z.parts) && (vb == va || (x in z.rule.written && vb.Pending?))
    ensures var a', b' := a.(cells := a.cells + [Cell(x, va, txn, None)]),
            b.(cells := b.cells + [Cell(x, vb, txn, None)]);
            Firm(a, b, a', b', z) && Joint(Bound(x, Mut(|a.cells|), ea), Bound(x, Mut(|b.cells|), eb), a', b', z, fn)
  {
    var a', b' := a.(cells := a.cells + [Cell(x, va, txn, None)]), b.(cells := b.cells + [Cell(x, vb, txn, None)]);
    PlacedStays(ea, a.cells, a'.cells, Floor(z, fn), z.parts);
    LinkedRefl(a, b, z.rule.written, z.base);
    ChannelsSame(a, b, a, b, a', b');
  }

  lemma {:induction false} BindSame(x: string, s: Slot, t: Slot, ea: Env, eb: Env, a: State, b: State, z: Zone,
          fn: bool)
    requires Joint(ea, eb, a, b, z, fn) && SlotTwin(x, s, t, z.rule.written)
             && SlotPlaced(x, s, a.cells, Floor(z, fn), z.parts)
    ensures Joint(Bound(x, s, ea), Bound(x, t, eb), a, b, z, fn)
  {}

  // ----- Channels -----

  lemma {:induction false} OneChannelTied(a: State, b: State, key: string, x: Channel, y: Channel)
    requires ChannelTied(ChannelOf(a, key), ChannelOf(b, key), x, y)
    ensures ChannelsTied(a, b, a.(chans := a.chans[key := x]), b.(chans := b.chans[key := y]))
  {
    var a', b' := a.(chans := a.chans[key := x]), b.(chans := b.chans[key := y]);
    forall k ensures ChannelTied(ChannelOf(a, k), ChannelOf(b, k), ChannelOf(a', k), ChannelOf(b', k)) {
      if k != key { assert ChannelOf(a', k) == ChannelOf(a, k) && ChannelOf(b', k) == ChannelOf(b, k); }
    }
  }

  lemma {:induction false} PutSame(ea: Env, eb: Env, a: State, b: State, key: string, x: Channel, y: Channel, z: Zone,
          fn: bool)
    requires Joint(ea, eb, a, b, z, fn) && ChannelTied(ChannelOf(a, key), ChannelOf(b, key), x, y)
    ensures var a', b' := a.(chans := a.chans[key := x]), b.(chans := b.chans[key := y]);
            Firm(a, b, a', b', z) && Joint(ea, eb, a', b', z, fn)
  {
    hide ChannelTied, Placed, EnvTwin, ZoneOk;
    OneChannelTied(a, b, key, x, y);
    LinkedRefl(a, b, z.rule.written, z.base);
  }

  lemma {:induction false} DefineSame(x: string, v: Value, ca: Ctx, cb: Ctx, a: State, b: State, z: Zone, fn: bool)
    requires ca.spec > 0 && cb == ca.In(cb.env) && Joint(ca.env, cb.env, a, b, z, fn)
    ensures var da, db := DefineAs(x, v, ca, a), DefineAs(x, v, cb, b);
            da.r == db.r == Ok(None) && Firm(a, b, da.st, db.st, z) && Joint(da.env, db.env, da.st, db.st, z, fn)
  {
    hide Linked, Twin, Placed, ZoneOk;
    LookupTwin(ca.env, cb.env, x, z.rule.written);
    match Lookup(ca.env, x)
    case Some(Chan(key)) =>
      var ch, ch' := ChannelOf(a, key), ChannelOf(b, key);
      PutSame(ca.env, cb.env, a, b, key, ch.(defined := Some(Pending)), ch'.(defined := Some(Pending)), z, fn);
    case _ =>
      SameRefl(ca.env, cb.env, a, b, z, fn);
      BindSame(x, Val(v), Val(v), ca.env, cb.env, a, b, z, fn);
  }

  lemma {:induction false} InsertedSite(s: Site, sorted: seq<Site>)
    ensures forall t :: t in InsertSite(s, sorted) <==> t == s || t in sorted
  {
    if |sorted| > 0 && !SiteBefore(s, sorted[0]) { InsertedSite(s, sorted[1..]); }
  }

  lemma {:induction false} SortedSites(sites: seq<Site>)
    ensures forall t :: t in SortSites(sites) <==> t in sites
  {
    if |sites| > 0 {
      SortedSites(sites[1..]);
      InsertedSite(sites[0], SortSites(sites[1..]));
    }
  }

  lemma {:induction false} SiteAdded(sites: seq<Site>, s: Site)
    ensures forall t :: t in AddSite(sites, s) <==> t == s || t in sites
  {
    SortedSites(sites + [s]);
  }

  lemma {:induction false} JoinTied(a: Channel, b: Channel, s: Site, x: Contribution)
    requires PendingContribution(x)
    ensures ChannelTied(a, b, a.(sites := AddSite(a.sites, s)), b.(sites := AddSite(b.sites, s)))
    ensures ChannelTied(a, b, a.(sites := AddSite(a.sites, s), fed := a.fed + [x]),
            b.(sites := AddSite(b.sites, s), fed := b.fed + [x]))
  {
    SiteAdded(a.sites, s);
    if s !in b.sites { assert s in AddSite(a.sites, s); }
  }

  lemma {:induction false} FeedSame(key: string, site: Site, va: Value, vb: Value, ca: Ctx, cb: Ctx, a: State,
          b: State, z: Zone, fn: bool)
    requires ca.spec > 0 && cb == ca.In(cb.env) && Joint(ca.env, cb.env, a, b, z, fn)
    ensures var a', b' := FeedInto(key, site, va, ca, a), FeedInto(key, site, vb, cb, b);
            Firm(a, b, a', b', z) && Joint(ca.env, cb.env, a', b', z, fn)
  {
    hide ChannelTied, Joint, Firm, AddSite;
    assert a.txn.Some? == b.txn.Some? by { JointTxn(ca.env, cb.env, a, b, z, fn); }
    var ch, ch' := ChannelOf(a, key), ChannelOf(b, key);
    var x := Contribution(site, TupleKey(ca.loopKeys), Pending);
    JoinTied(ch, ch', site, x);
    if a.txn.None? {
      var y, y' := ch.(sites := AddSite(ch.sites, site), fed := ch.fed + [x]),
          ch'.(sites := AddSite(ch'.sites, site), fed := ch'.fed + [x]);
      PutSame(ca.env, cb.env, a, b, key, y, y', z, fn);
      FedOutside(key, site, va, ca, a);
      FedOutside(key, site, vb, cb, b);
    } else {
      var a1, b1 := JoinSite(a, key, site), JoinSite(b, key, site);
      var r := Reply(key, site, Pending);
      PutSame(ca.env, cb.env, a, b, key, ch.(sites := AddSite(ch.sites, site)),
          ch'.(sites := AddSite(ch'.sites, site)), z, fn);
      ReplySame(a1, b1, r, ca.env, cb.env, z, fn);
      FirmTrans(a, b, a1, b1, Replied(a1, r), Replied(b1, r), z);
    }
  }

  lemma {:induction false} JointTxn(ea: Env, eb: Env, a: State, b: State, z: Zone, fn: bool)
    requires Joint(ea, eb, a, b, z, fn)
    ensures a.txn.Some? == b.txn.Some? && |a.cells| == |b.cells| && a.watches == b.watches
  {}

  lemma {:induction false} FedOutside(key: string, site: Site, v: Value, c: Ctx, st: State)
    requires c.spec > 0 && st.txn.None?
    ensures var ch := ChannelOf(st, key);
            var x := Contribution(site, TupleKey(c.loopKeys), Pending);
            FeedInto(key, site, v, c, st) == st.(chans :=
                st.chans[key := ch.(sites := AddSite(ch.sites, site), fed := ch.fed + [x])])
  {
    var ch := ChannelOf(st, key);
    var x := Contribution(site, TupleKey(c.loopKeys), Pending);
    assert st.chans[key := ch.(sites := AddSite(ch.sites, site))][key :=
        ch.(sites := AddSite(ch.sites, site), fed := ch.fed + [x])]
        == st.chans[key := ch.(sites := AddSite(ch.sites, site), fed := ch.fed + [x])];
  }

  function Replied(st: State, r: Reply): State
    requires st.txn.Some?
  {
    st.(txn := Some(st.txn.value.(replies := st.txn.value.replies + [r], uncertain := true)))
  }

  lemma {:induction false} PendingReplyAdded(rs: seq<Reply>, r: Reply)
    requires r.value.Pending?
    ensures PendingReplies(rs + [r]) == PendingReplies(rs) + {r.chan}
  {
    var rs' := rs + [r];
    assert rs'[|rs|] == r;
    forall k ensures k in PendingReplies(rs') <==> k in PendingReplies(rs) + {r.chan} {
      if k in PendingReplies(rs) {
        var i :| 0 <= i < |rs| && rs[i].value.Pending? && rs[i].chan == k;
        assert rs'[i].chan == k;
      }
      if k in PendingReplies(rs') {
        var i :| 0 <= i < |rs'| && rs'[i].value.Pending? && rs'[i].chan == k;
        if i < |rs| { assert rs[i].chan == k; }
      }
    }
  }

  lemma {:induction false} ReplySame(a: State, b: State, r: Reply, ea: Env, eb: Env, z: Zone, fn: bool)
    requires a.txn.Some? && b.txn.Some? && r.value.Pending? && Joint(ea, eb, a, b, z, fn)
    ensures Firm(a, b, Replied(a, r), Replied(b, r), z) && Joint(ea, eb, Replied(a, r), Replied(b, r), z, fn)
  {
    hide Placed, EnvTwin, ZoneOk;
    LinkedRefl(a, b, z.rule.written, z.base);
    ChannelsSame(a, b, a, b, Replied(a, r), Replied(b, r));
    ReplyAdded(a.txn.value.replies, r);
    ReplyAdded(b.txn.value.replies, r);
    PendingReplyAdded(a.txn.value.replies, r);
    PendingReplyAdded(b.txn.value.replies, r);
  }

  // ----- Blocks of writes -----

  lemma {:induction false} Begun(ea: Env, eb: Env, a: State, b: State, frame: TxnFrame, z: Zone, fn: bool)
    requires Joint(ea, eb, a, b, z, fn)
    ensures Joint(ea, eb, a.(txn := Some(frame)), b.(txn := Some(frame)), z, fn)
  {
    hide Placed, EnvTwin, ZoneOk;
  }

  lemma {:induction false} PushedChannel(st: State, replies: seq<Reply>, k: string)
    ensures var ch, ch' := ChannelOf(st, k), ChannelOf(PushReplies(st, replies, Pending, true), k);
            && ch' == ch.(fed := ch'.fed)
            && (if k in RepliedTo(replies) then EndsPending(ch'.fed) else ch' == ch)
    decreases |replies|
  {
    if |replies| > 0 {
      var r := replies[0];
      var st1 := Contribute(st, r.chan, Contribution(r.site, Pending, Pending));
      PushedChannel(st1, replies[1..], k);
      RepliedRest(replies, k);
      assert k != r.chan ==> ChannelOf(st1, k) == ChannelOf(st, k);
      assert k == r.chan ==> EndsPending(ChannelOf(st1, k).fed);
    }
  }

  lemma {:induction false} RepliedRest(replies: seq<Reply>, k: string)
    requires |replies| > 0
    ensures k in RepliedTo(replies) <==> k == replies[0].chan || k in RepliedTo(replies[1..])
  {
    if k in RepliedTo(replies[1..]) {
      var i :| 0 <= i < |replies[1..]| && replies[1..][i].chan == k;
      assert replies[i + 1].chan == k;
    }
    if k in RepliedTo(replies) && k != replies[0].chan {
      var i :| 0 <= i < |replies| && replies[i].chan == k;
      assert replies[1..][i - 1].chan == k;
    }
  }

  lemma {:induction false} ChannelPushed(a0: Channel, b0: Channel, a: Channel, b: Channel, a': Channel, b': Channel)
    requires ChannelTied(a0, b0, a, b) && a' == a.(fed := a'.fed) && b' == b.(fed := b'.fed)
    requires EndsPending(a'.fed) || (a' == a && b' == b)
    ensures ChannelTied(a0, b0, a', b')
  {}

  lemma {:induction false} NoReplies()
    ensures RepliedTo([]) == {}
  {}

  /** A block both runs began either wrote nothing in both, or is undecided in both. */
  lemma {:induction false} CommitSame(a: State, b: State, frame: TxnFrame, ra: State, rb: State, z: Zone)
    requires a.txn.None? && b.txn.None? && !frame.wrote && frame.replies == [] && !frame.uncertain
    requires Firm(a.(txn := Some(frame)), b.(txn := Some(frame)), ra, rb, z)
    ensures ra.txn.Some? && rb.txn.Some?
    ensures Firm(a, b, Commit(ra.txn.value, ra.(txn := None)), Commit(rb.txn.value, rb.(txn := None)), z)
  {
    hide CellsTwin, CellsTied;
    var a', b' := Commit(ra.txn.value, ra.(txn := None)), Commit(rb.txn.value, rb.(txn := None));
    forall k ensures ChannelTied(ChannelOf(a, k), ChannelOf(b, k), ChannelOf(a', k), ChannelOf(b', k)) {
      assert ChannelOf(a.(txn := Some(frame)), k) == ChannelOf(a, k)
          && ChannelOf(b.(txn := Some(frame)), k) == ChannelOf(b, k);
      CommittedChannel(ChannelOf(a, k), ChannelOf(b, k), frame, ra, rb, k);
    }
    if !ra.txn.value.uncertain { assert ra.txn.value == frame && rb.txn.value == frame; }
  }

  lemma {:induction false} CommittedChannel(a0: Channel, b0: Channel, frame: TxnFrame, ra: State, rb: State, k: string)
    requires ra.txn.Some? && rb.txn.Some? && !frame.wrote && frame.replies == [] && !frame.uncertain
    requires FrameTied(frame, frame, ra.txn.value, rb.txn.value)
             && ChannelTied(a0, b0, ChannelOf(ra, k), ChannelOf(rb, k))
    ensures var a', b' := Commit(ra.txn.value, ra.(txn := None)), Commit(rb.txn.value, rb.(txn := None));
            ChannelTied(a0, b0, ChannelOf(a', k), ChannelOf(b', k))
  {
    hide ChannelTied, PushReplies, Sticky, RepliedTo, PendingReplies;
    var fa, fb := ra.txn.value, rb.txn.value;
    assert RepliedTo([]) == {} by { NoReplies(); }
    if fa.uncertain {
      PushedChannel(ra.(txn := None, clockKnown := false), fa.replies, k);
      PushedChannel(rb.(txn := None, clockKnown := false), fb.replies, k);
      ChannelPushed(a0, b0, ChannelOf(ra, k), ChannelOf(rb, k),
        ChannelOf(Commit(fa, ra.(txn := None)), k), ChannelOf(Commit(fb, rb.(txn := None)), k));
    }
  }

  // ----- Scopes -----

  /** What a binding may hold: no variable, and the same in both runs. */
  ghost predicate Passed(s: Slot, t: Slot, cells: seq<Cell>, z: Zone) {
    match s
    case Val(_) => t == s
    case Chan(_) => t == s
    case Fn(f) =>
      && FunctionBody(f.params, f.body) in z.parts && PartsIn(f.body) <= z.parts && Placed(f.env, cells, None, z.parts)
      && t.Fn? && f.params == t.f.params && f.body == t.f.body && EnvTwin(f.env, t.f.env, z.rule.written)
    case Mut(_) => false
  }

  lemma {:induction false} PassedBound(x: string, s: Slot, t: Slot, ea: Env, eb: Env, a: State, b: State, z: Zone,
          fn: bool)
    requires Joint(ea, eb, a, b, z, fn) && Passed(s, t, a.cells, z)
    ensures Joint(Bound(x, s, ea), Bound(x, t, eb), a, b, z, fn)
  {}

  lemma {:induction false} VarBound(x: string, v: Value, ea: Env, eb: Env, a: State, b: State, z: Zone, fn: bool)
    requires Joint(ea, eb, a, b, z, fn)
    ensures Joint(BindVar(ea, x, v), BindVar(eb, x, v), a, b, z, fn)
  {
    hide Joint;
    PassedBound(x, Val(v), Val(v), ea, eb, a, b, z, fn);
  }

  lemma {:induction false} AllBound(binds: seq<(string, Value)>, ea: Env, eb: Env, a: State, b: State, z: Zone,
          fn: bool)
    requires Joint(ea, eb, a, b, z, fn)
    ensures Joint(BindAll(ea, binds), BindAll(eb, binds), a, b, z, fn)
  {
    BindAllPlaced(ea, binds, a.cells, Floor(z, fn), z.parts);
    BindAllTwin(ea, eb, binds, z.rule.written);
  }

  /** A function of the text, closing over the scopes both runs are in. */
  lemma {:induction false} Closed(params: seq<Param>, body: Stmts, ea: Env, eb: Env, a: State, b: State, z: Zone,
          fn: bool)
    requires Joint(ea, eb, a, b, z, fn) && FunctionBody(params, body) in z.parts && PartsIn(body) <= z.parts
    ensures Passed(Fn(Function(params, body, Capture(ea, a.cells))), Fn(Function(params, body, Capture(eb, b.cells))),
            a.cells, z)
  {
    CapturePlaced(ea, a.cells, Floor(z, fn), z.parts);
    CaptureTwin(ea, eb, a.cells, b.cells, z.rule.written, Floor(z, fn), z.parts);
  }

  /** The function or channel a name is bound to, in both runs. */
  lemma {:induction false} NamedSame(x: string, ea: Env, eb: Env, a: State, b: State, z: Zone, fn: bool)
    requires Joint(ea, eb, a, b, z, fn)
    ensures var s, t := Lookup(ea, x), Lookup(eb, x);
            && s.Some? == t.Some?
            && (s.Some? ==> && s.value.Val? == t.value.Val? && s.value.Mut? == t.value.Mut?
                            && (s.value.Fn? || s.value.Chan? ==> Passed(s.value, t.value, a.cells, z)))
  {
    LookupTwin(ea, eb, x, z.rule.written);
    LookupPlaced(ea, x, a.cells, Floor(z, fn), z.parts);
  }

  /** The scope a function of both runs closes over, once it is called. */
  lemma {:induction false} Entered(f: Function, g: Function, ea: Env, eb: Env, a: State, b: State, z: Zone, fn: bool)
    requires Joint(ea, eb, a, b, z, fn) && Passed(Fn(f), Fn(g), a.cells, z)
    ensures Joint(f.env, g.env, a, b, z, true) && AllByValue(f.params) && PartsIn(f.body) <= z.parts
    ensures z.rule.calls ==> SteadyStmts(f.body, z.rule, true)
  {
    PlacedAnywhere(f.env, a.cells, Floor(z, true), z.parts);
    var p := FunctionBody(f.params, f.body);
    assert p in z.parts && p.FunctionBody?;
  }

  lemma {:induction false} ReadMutSame(x: string, ea: Env, eb: Env, a: State, b: State, z: Zone, fn: bool)
    requires Joint(ea, eb, a, b, z, fn) && Lookup(ea, x).Some? && Lookup(ea, x).value.Mut?
    ensures var loc := Lookup(ea, x).value.loc;
            var v, v' := ReadMut(a, x, loc), ReadMut(b, x, loc);
            && Lookup(eb, x) == Lookup(ea, x) && (v.Ok? ==> v'.Ok? && Below(v'.value, v.value))
            && (x !in z.rule.written ==> v' == v)
  {
    hide Placed;
    LookupTwin(ea, eb, x, z.rule.written);
    LookupPlaced(ea, x, a.cells, Floor(z, fn), z.parts);
  }

  lemma {:induction false} KeyWrittenBelow(cur: Value, key: Value, v: Value, cur': Value, key': Value, v': Value)
    requires Below(cur', cur) && Below(key', key) && Below(v', v)
    requires AnyPending([key, v, cur]) || KeyWritten(cur, key, v).Ok?
    ensures AnyPending([key', v', cur']) || KeyWritten(cur', key', v').Ok?
  {
    if !AnyPending([key', v', cur']) {
      assert [key', v', cur'][0].Known? && [key', v', cur'][1].Known? && [key', v', cur'][2].Known?;
      assert AnyPending([key, v, cur]) ==> false;
    }
  }

  lemma {:induction false} AssignKeySame(x: string, ka: Value, kb: Value, va: Value, vb: Value, ca: Ctx, cb: Ctx,
          a: State, b: State, z: Zone, fn: bool)
    requires ca.spec > 0 && cb == ca.In(cb.env) && Joint(ca.env, cb.env, a, b, z, fn) && MayWrite(x, z.rule, fn)
    requires Below(kb, ka) && Below(vb, va)
    ensures var wa, wb := AssignKey(x, ka, va, ca, a), AssignKey(x, kb, vb, cb, b);
            wa.r.Err? || (wb.r == wa.r && Firm(a, b, wa.st, wb.st, z))
  {
    hide Joint, Firm, KeyWritten, Lookup, Write, ReadMut;
    NamedSame(x, ca.env, cb.env, a, b, z, fn);
    match Lookup(ca.env, x)
    case Some(Mut(loc)) =>
      WritableAt(x, ca.env, cb.env, a, b, z, fn);
      CellBelowAt(ca.env, cb.env, a, b, loc, z, fn);
      var cur, cur' := a.cells[loc].value, b.cells[loc].value;
      if AnyPending([ka, va, cur]) || KeyWritten(cur, ka, va).Ok? {
        KeyWrittenBelow(cur, ka, va, cur', kb, vb);
        var u := if AnyPending([ka, va, cur]) then Pending else KeyWritten(cur, ka, va).value;
        var u' := if AnyPending([kb, vb, cur']) then Pending else KeyWritten(cur', kb, vb).value;
        WriteSame(ca, cb, a, b, loc, u, u', ca.env, cb.env, z, fn);
      }
    case _ =>
  }

  lemma {:induction false} CellBelowAt(ea: Env, eb: Env, a: State, b: State, loc: nat, z: Zone, fn: bool)
    requires Joint(ea, eb, a, b, z, fn) && loc < |a.cells|
    ensures loc < |b.cells| && Below(b.cells[loc].value, a.cells[loc].value)
  {}
}
