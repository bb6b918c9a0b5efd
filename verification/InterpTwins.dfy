/** Two speculative runs of the same text, side by side: `a` from some state, `b` from what a run has
    made of it. They may differ in the variables a rule lets them write, which `b` may hold pending
    where `a` holds them decided. */
module InterpTwins {
  import opened Options
  import opened InterpSyntax
  import opened InterpValues
  import opened InterpEval
  import opened InterpCalm

  // ----- Where the variables of a scope are -----

  /** A variable's name is its cell's, and a function closes over `Txn` variables alone. Above
      `floor` are the variables the function being run made. */
  ghost predicate SlotPlaced(x: string, s: Slot, cells: seq<Cell>, floor: Option<nat>, ps: set<Part>)
    decreases s
  {
    match s
    case Mut(loc) =>
      loc < |cells| && cells[loc].name == x && (cells[loc].txn || (floor.Some? && loc >= floor.value))
    case Fn(f) =>
      FunctionBody(f.params, f.body) in ps && PartsIn(f.body) <= ps && Placed(f.env, cells, None, ps)
    case _ => true
  }

  ghost predicate Placed(env: Env, cells: seq<Cell>, floor: Option<nat>, ps: set<Part>)
    decreases env
  {
    env.Bound? ==> SlotPlaced(env.name, env.slot, cells, floor, ps) && Placed(env.rest, cells, floor, ps)
  }

  ghost predicate TxnsDeclared(cells: seq<Cell>, ps: set<Part>) {
    forall i | 0 <= i < |cells| :: cells[i].txn ==> TxnVariable(cells[i].name) in ps
  }

  lemma {:induction false} PlacedStays(env: Env, cells: seq<Cell>, cells': seq<Cell>, floor: Option<nat>, ps: set<Part>)
    requires Placed(env, cells, floor, ps) && SameDeclared(cells, cells')
    ensures Placed(env, cells', floor, ps)
  {
    if env.Bound? {
      if env.slot.Fn? { PlacedStays(env.slot.f.env, cells, cells', None, ps); }
      PlacedStays(env.rest, cells, cells', floor, ps);
    }
  }

  lemma {:induction false} PlacedAnywhere(env: Env, cells: seq<Cell>, floor: Option<nat>, ps: set<Part>)
    requires Placed(env, cells, None, ps)
    ensures Placed(env, cells, floor, ps)
  {
    if env.Bound? { PlacedAnywhere(env.rest, cells, floor, ps); }
  }

  lemma {:induction false} LookupPlaced(env: Env, x: string, cells: seq<Cell>, floor: Option<nat>, ps: set<Part>)
    requires Placed(env, cells, floor, ps)
    ensures Lookup(env, x).Some? ==> SlotPlaced(x, Lookup(env, x).value, cells, floor, ps)
  {
    if env.Bound? && env.name != x { LookupPlaced(env.rest, x, cells, floor, ps); }
  }

  lemma {:induction false} CapturePlaced(env: Env, cells: seq<Cell>, floor: Option<nat>, ps: set<Part>)
    requires Placed(env, cells, floor, ps)
    ensures Placed(Capture(env, cells), cells, None, ps)
  {
    if env.Bound? { CapturePlaced(env.rest, cells, floor, ps); }
  }

  lemma {:induction false} BindAllPlaced(env: Env, binds: seq<(string, Value)>, cells: seq<Cell>, floor: Option<nat>,
          ps: set<Part>)
    requires Placed(env, cells, floor, ps)
    ensures Placed(BindAll(env, binds), cells, floor, ps)
    decreases |binds|
  {
    if |binds| > 0 { BindAllPlaced(Bound(binds[0].0, Val(binds[0].1), env), binds[1..], cells, floor, ps); }
  }

  // ----- Two scopes -----

  ghost predicate SlotTwin(x: string, a: Slot, b: Slot, w: set<string>)
    decreases a
  {
    match (a, b)
    case (Val(v), Val(u)) => u == v || (x in w && u.Pending?)
    case (Mut(i), Mut(j)) => i == j
    case (Chan(k), Chan(l)) => k == l
    case (Fn(f), Fn(g)) => f.params == g.params && f.body == g.body && EnvTwin(f.env, g.env, w)
    case _ => false
  }

  ghost predicate EnvTwin(a: Env, b: Env, w: set<string>)
    decreases a
  {
    match (a, b)
    case (Empty, Empty) => true
    case (Bound(x, s, rest), Bound(y, t, rest')) => x == y && SlotTwin(x, s, t, w) && EnvTwin(rest, rest', w)
    case _ => false
  }

  lemma {:induction false} EnvTwinRefl(a: Env, w: set<string>)
    ensures EnvTwin(a, a, w)
  {
    if a.Bound? {
      if a.slot.Fn? { EnvTwinRefl(a.slot.f.env, w); }
      EnvTwinRefl(a.rest, w);
    }
  }

  lemma {:induction false} LookupTwin(a: Env, b: Env, x: string, w: set<string>)
    requires EnvTwin(a, b, w)
    ensures Lookup(a, x).Some? == Lookup(b, x).Some?
    ensures Lookup(a, x).Some? ==> SlotTwin(x, Lookup(a, x).value, Lookup(b, x).value, w)
  {
    if a.Bound? && a.name != x { LookupTwin(a.rest, b.rest, x, w); }
  }

  lemma {:induction false} CaptureTwin(a: Env, b: Env, ca: seq<Cell>, cb: seq<Cell>, w: set<string>,
          floor: Option<nat>, ps: set<Part>)
    requires EnvTwin(a, b, w) && CellsTwin(ca, cb, w) && Placed(a, ca, floor, ps)
    ensures EnvTwin(Capture(a, ca), Capture(b, cb), w)
  {
    if a.Bound? { CaptureTwin(a.rest, b.rest, ca, cb, w, floor, ps); }
  }

  lemma {:induction false} BindAllTwin(a: Env, b: Env, binds: seq<(string, Value)>, w: set<string>)
    requires EnvTwin(a, b, w)
    ensures EnvTwin(BindAll(a, binds), BindAll(b, binds), w)
    decreases |binds|
  {
    if |binds| > 0 {
      BindAllTwin(Bound(binds[0].0, Val(binds[0].1), a), Bound(binds[0].0, Val(binds[0].1), b), binds[1..], w);
    }
  }

  // ----- Two states -----

  ghost predicate CellsTwin(a: seq<Cell>, b: seq<Cell>, w: set<string>) {
    && |a| == |b|
    && forall i | 0 <= i < |a| ::
         && b[i].name == a[i].name && b[i].txn == a[i].txn && b[i].writer == a[i].writer
         && (b[i].value == a[i].value || (a[i].name in w && b[i].value.Pending?))
  }

  ghost predicate TxnTwin(a: Option<TxnFrame>, b: Option<TxnFrame>) {
    a.Some? == b.Some? && (a.Some? ==> a.value.site == b.value.site && a.value.writes == b.value.writes)
  }

  ghost predicate Twin(a: State, b: State, w: set<string>) {
    && !b.lost && CellsTwin(a.cells, b.cells, w)
    && a.watches == b.watches && a.commitTime == b.commitTime && TxnTwin(a.txn, b.txn)
  }

  // ----- What two runs do -----

  /** A cell that neither run wrote, or that both did. */
  ghost predicate CellTied(a0: Cell, b0: Cell, a: Cell, b: Cell) {
    (a == a0 && b == b0) || (a == a0.(value := Pending) && b == b0.(value := Pending))
  }

  /** Below `base` only variables of the rule were written. */
  ghost predicate CellsTied(a0: seq<Cell>, b0: seq<Cell>, a: seq<Cell>, b: seq<Cell>, w: set<string>, base: nat) {
    && |a0| == |b0| && |a0| <= |a| && |b0| <= |b|
    && forall i | 0 <= i < |a0| ::
         CellTied(a0[i], b0[i], a[i], b[i]) && (i < base && a0[i].name !in w ==> a[i] == a0[i])
  }

  ghost predicate FedTied(a0: Channel, b0: Channel, a: Channel, b: Channel) {
    (a.fed == a0.fed && b.fed == b0.fed) || EndsPending(a.fed)
  }

  ghost predicate DefinedTied(a0: Channel, b0: Channel, a: Channel, b: Channel) {
    (a.defined == a0.defined && b.defined == b0.defined) || (a.defined == Some(Pending) && b.defined == Some(Pending))
  }

  /** `b` joined a site only where `a` did too. */
  ghost predicate SitesTied(a0: Channel, b0: Channel, a: Channel, b: Channel) {
    && (forall s | s in a0.sites :: s in a.sites)
    && (b.sites == b0.sites || exists s :: s in a.sites && s !in b0.sites)
  }

  ghost predicate ChannelTied(a0: Channel, b0: Channel, a: Channel, b: Channel) {
    FedTied(a0, b0, a, b) && DefinedTied(a0, b0, a, b) && SitesTied(a0, b0, a, b)
  }

  ghost predicate ChannelsTied(a0: State, b0: State, a: State, b: State) {
    forall k :: ChannelTied(ChannelOf(a0, k), ChannelOf(b0, k), ChannelOf(a, k), ChannelOf(b, k))
  }

  ghost predicate FrameTied(a0: TxnFrame, b0: TxnFrame, a: TxnFrame, b: TxnFrame) {
    && a.site == a0.site && a.writes == a0.writes
    && ((a == a0 && b == b0) || (a.uncertain && b.uncertain))
    && RepliedTo(a0.replies) <= RepliedTo(a.replies)
    && RepliedTo(b.replies) <= RepliedTo(b0.replies) + RepliedTo(a.replies)
    && PendingReplies(a0.replies) <= PendingReplies(a.replies)
    && PendingReplies(b.replies) <= PendingReplies(b0.replies) + PendingReplies(a.replies)
  }

  ghost predicate TxnTied(a0: Option<TxnFrame>, b0: Option<TxnFrame>, a: Option<TxnFrame>, b: Option<TxnFrame>) {
    && a.Some? == a0.Some? && b.Some? == b0.Some? && a.Some? == b.Some?
    && (a.Some? ==> FrameTied(a0.value, b0.value, a.value, b.value))
  }

  ghost predicate ClockTied(a0: State, b0: State, a: State, b: State) {
    && a.commitTime == a0.commitTime && a.watches == a0.watches
    && ((a.clockKnown == a0.clockKnown && b.clockKnown == b0.clockKnown) || (!a.clockKnown && !b.clockKnown))
  }

  /** Two runs, from `a0` to `a` and from `b0` to `b`, did the same. */
  ghost predicate Tied(a0: State, b0: State, a: State, b: State, w: set<string>, base: nat) {
    && CellsTied(a0.cells, b0.cells, a.cells, b.cells, w, base) && ChannelsTied(a0, b0, a, b)
    && ClockTied(a0, b0, a, b) && TxnTied(a0.txn, b0.txn, a.txn, b.txn)
  }

  ghost predicate Linked(a0: State, b0: State, a: State, b: State, w: set<string>, base: nat) {
    Twin(a, b, w) && Tied(a0, b0, a, b, w, base)
  }

  lemma {:induction false} LinkedRefl(a: State, b: State, w: set<string>, base: nat)
    requires Twin(a, b, w)
    ensures Linked(a, b, a, b, w, base)
  {}

  lemma {:induction false} ChannelsTrans(a0: State, b0: State, a1: State, b1: State, a2: State, b2: State)
    requires ChannelsTied(a0, b0, a1, b1) && ChannelsTied(a1, b1, a2, b2)
    ensures ChannelsTied(a0, b0, a2, b2)
  {
    forall k ensures ChannelTied(ChannelOf(a0, k), ChannelOf(b0, k), ChannelOf(a2, k), ChannelOf(b2, k)) {
      ChannelTrans(ChannelOf(a0, k), ChannelOf(b0, k), ChannelOf(a1, k), ChannelOf(b1, k), ChannelOf(a2, k),
          ChannelOf(b2, k));
    }
  }

  lemma {:induction false} ChannelTrans(a0: Channel, b0: Channel, a1: Channel, b1: Channel, a2: Channel, b2: Channel)
    requires ChannelTied(a0, b0, a1, b1) && ChannelTied(a1, b1, a2, b2)
    ensures ChannelTied(a0, b0, a2, b2)
  {
    if b1.sites != b0.sites {
      var s :| s in a1.sites && s !in b0.sites;
      assert s in a2.sites;
    }
  }

  lemma {:induction false} CellsTrans(a0: seq<Cell>, b0: seq<Cell>, a1: seq<Cell>, b1: seq<Cell>, a2: seq<Cell>,
          b2: seq<Cell>, w: set<string>, base: nat)
    requires CellsTied(a0, b0, a1, b1, w, base) && CellsTied(a1, b1, a2, b2, w, base)
    ensures CellsTied(a0, b0, a2, b2, w, base)
  {
    forall i | 0 <= i < |a0|
      ensures CellTied(a0[i], b0[i], a2[i], b2[i]) && (i < base && a0[i].name !in w ==> a2[i] == a0[i])
    {
      assert CellTied(a0[i], b0[i], a1[i], b1[i]);
      assert CellTied(a1[i], b1[i], a2[i], b2[i]);
    }
  }

  lemma {:induction false} LinkedTrans(a0: State, b0: State, a1: State, b1: State, a2: State, b2: State,
          w: set<string>, base: nat)
    requires Linked(a0, b0, a1, b1, w, base) && Linked(a1, b1, a2, b2, w, base)
    ensures Linked(a0, b0, a2, b2, w, base)
  {
    hide CellsTied, ChannelsTied;
    CellsTrans(a0.cells, b0.cells, a1.cells, b1.cells, a2.cells, b2.cells, w, base);
    ChannelsTrans(a0, b0, a1, b1, a2, b2);
  }

  /** Dropping the cells of a scope that both runs left. */
  lemma {:induction false} LinkedPop(a0: State, b0: State, a: State, b: State, w: set<string>, base: nat)
    requires Linked(a0, b0, a, b, w, base)
    ensures |a0.cells| <= |a.cells| && |b0.cells| <= |b.cells| && |a0.cells| == |b0.cells|
    ensures Linked(a0, b0, Pop(a, |a0.cells|), Pop(b, |b0.cells|), w, base)
  {
    var a', b' := Pop(a, |a0.cells|), Pop(b, |b0.cells|);
    ChannelsSame(a0, b0, a, b, a', b');
  }

  lemma {:induction false} ChannelsSame(a0: State, b0: State, a: State, b: State, a': State, b': State)
    requires ChannelsTied(a0, b0, a, b) && a'.chans == a.chans && b'.chans == b.chans
    ensures ChannelsTied(a0, b0, a', b')
  {
    forall k ensures ChannelTied(ChannelOf(a0, k), ChannelOf(b0, k), ChannelOf(a', k), ChannelOf(b', k)) {
      assert ChannelOf(a', k) == ChannelOf(a, k) && ChannelOf(b', k) == ChannelOf(b, k);
    }
  }

  /** What a run only notes makes no difference. */
  lemma {:induction false} LinkedNotes(a0: State, b0: State, a: State, b: State, a': State, b': State, w: set<string>,
          base: nat)
    requires Linked(a0, b0, a, b, w, base)
    requires a' == a.(waited := a'.waited, carried := a'.carried, lost := a'.lost)
    requires b' == b.(waited := b'.waited, carried := b'.carried)
    ensures Linked(a0, b0, a', b', w, base)
  {
    ChannelsSame(a0, b0, a, b, a', b');
  }

  /** Two runs that did the same, the second from where the first ended, leave nothing more. */
  lemma {:induction false} LinkedSettles(a0: State, a: State, b: State, w: set<string>, base: nat)
    requires Linked(a0, a, a, b, w, base) && !b.carried && |a.cells| == |b.cells| == |a0.cells|
    ensures Settled(a, b)
  {
    forall k ensures ChannelSettled(ChannelOf(a, k), ChannelOf(b, k)) {
      assert ChannelTied(ChannelOf(a0, k), ChannelOf(a, k), ChannelOf(a, k), ChannelOf(b, k));
    }
    forall i | 0 <= i < |a.cells| ensures a.cells[i] == b.cells[i] {
      assert CellTied(a0.cells[i], a.cells[i], a.cells[i], b.cells[i]);
    }
    assert a.cells == b.cells;
  }

  /** A state beside what a run has made of it. */
  lemma {:induction false} TwinOf(a0: State, a: State, w: set<string>)
    requires Linked(a0, a0, a, a, w, |a0.cells|) && |a.cells| == |a0.cells|
    ensures Twin(a0, a, w)
  {
    forall i | 0 <= i < |a.cells|
      ensures && a.cells[i].name == a0.cells[i].name && a.cells[i].txn == a0.cells[i].txn
              && a.cells[i].writer == a0.cells[i].writer
              && (a.cells[i].value == a0.cells[i].value || (a0.cells[i].name in w && a.cells[i].value.Pending?))
    {
      assert CellTied(a0.cells[i], a0.cells[i], a.cells[i], a.cells[i]);
    }
  }
}
