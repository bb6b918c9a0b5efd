/** What the driver's outcomes mean, said of the passes alone: which contents each pass reads, and
    which pass is the last. */
module InterpOutcomes {
  import opened Options
  import opened InterpSyntax
  import opened InterpValues
  import opened InterpEval
  import opened InterpBelow
  import opened InterpPasses
  import Waiting = InterpWaits

  /** The channels a pass that reads `f` was not given. */
  function Unread(p: Program, f: Contents): set<string> {
    ChannelSet(p) - f.Keys
  }

  /** A pass that succeeds without an answer: it waits, and nothing it did was lost or clashes. */
  ghost predicate Partial(p: Program, f: Contents, fuel: nat) {
    var d := RunPass(p, f, fuel);
    d.r.Ok? && d.st.waited != {} && !d.st.lost && !Clashes(d.st, Unread(p, f))
  }

  /** `g` is `f` with every channel that the pass reading `f` decided, as that pass built it. */
  ghost predicate ReadsOn(p: Program, f: Contents, g: Contents, fuel: nat) {
    var st := RunPass(p, f, fuel).st;
    && (forall k :: k in f ==> k in g && g[k] == f[k])
    && (forall k :: k in g && k !in f ==> k in Unread(p, f) && Complete(ChannelOf(st, k)) == Some(Ok(g[k])))
    && (forall k :: k in Unread(p, f) && !Undecided(ChannelOf(st, k)) ==> k in g)
  }

  /** The contents the driver's passes read, the first nothing and each next one more. */
  ghost predicate Passes(p: Program, fs: seq<Contents>, fuel: nat) {
    && fs != [] && fs[0] == map[]
    && forall i | 0 <= i < |fs| - 1 :: Partial(p, fs[i], fuel) && ReadsOn(p, fs[i], fs[i + 1],
        fuel) && fs[i + 1] != fs[i]
  }

  /** The pass that reads `f` is the last, and this is what it shows. */
  ghost predicate Ends(p: Program, f: Contents, fuel: nat, o: Outcome) {
    var d := RunPass(p, f, fuel);
    match o
    case Failed(e) =>
      || d.r == Err(e)
      || (e == Refused && d.r.Ok? && d.st.waited == {} && Clashes(d.st, ChannelSet(p) * p.sinks))
      || (e == Refused && d.r.Ok? && d.st.waited != {} && !d.st.lost && Clashes(d.st, Unread(p, f)))
    case Answer(sinks) =>
      && d.r.Ok? && d.st.waited == {} && !Clashes(d.st, ChannelSet(p) * p.sinks)
      && (forall k :: k in sinks <==> k in ChannelSet(p) * p.sinks && !Undecided(ChannelOf(d.st, k)))
      && (forall k :: k in sinks ==> Complete(ChannelOf(d.st, k)) == Some(Ok(sinks[k])))
    case Lost => d.r.Ok? && d.st.waited != {} && d.st.lost
    case Cycle => Partial(p, f, fuel) && forall k | k in Unread(p, f) :: Undecided(ChannelOf(d.st, k))
    case Again(_) => false
  }

  // ----- One pass -----

  lemma {:induction false} EndsJudged(p: Program, f: Contents, fuel: nat, o: Outcome)
    requires !o.Again?
    ensures Ends(p, f, fuel, o) <==> Judge(p, f, RunPass(p, f, fuel)) == o
  {
    hide RunPass, Complete;
    DecidedComplete();
    var d := RunPass(p, f, fuel);
    match o
    case Failed(_) =>
    case Lost =>
    case Answer(sinks) => if !Clashes(d.st, ChannelSet(p) * p.sinks) { AnswerJudged(p, d, sinks); }
    case Cycle => if !Clashes(d.st, Unread(p, f)) { CycleJudged(p, f, d); }
  }

  lemma {:induction false} DecidedComplete()
    ensures forall ch :: Complete(ch).Some? <==> !Undecided(ch)
  {}

  lemma {:induction false} AnswerJudged(p: Program, d: Done, sinks: Contents)
    requires !Clashes(d.st, ChannelSet(p) * p.sinks)
    ensures sinks == (map k | k in Built(p, d.st) && k in p.sinks :: Built(p, d.st)[k])
      <==> && (forall k :: k in sinks <==> k in ChannelSet(p) * p.sinks && !Undecided(ChannelOf(d.st, k)))
           && (forall k :: k in sinks ==> Complete(ChannelOf(d.st, k)) == Some(Ok(sinks[k])))
  {
    hide Complete;
    DecidedComplete();
    var built := map k | k in Built(p, d.st) && k in p.sinks :: Built(p, d.st)[k];
    forall k ensures k in built <==> k in ChannelSet(p) * p.sinks && !Undecided(ChannelOf(d.st, k)) {}
  }

  lemma {:induction false} CycleJudged(p: Program, f: Contents, d: Done)
    requires !Clashes(d.st, Unread(p, f))
    ensures Built(p, d.st) - f.Keys == map[] <==> forall k | k in Unread(p, f) :: Undecided(ChannelOf(d.st, k))
  {
    hide Complete;
    DecidedComplete();
    var completed := Built(p, d.st) - f.Keys;
    forall k ensures k in completed <==> k in Unread(p, f) && !Undecided(ChannelOf(d.st, k)) {}
    if forall k | k in Unread(p, f) :: Undecided(ChannelOf(d.st, k)) {
      assert completed.Keys == {};
    }
    if completed == map[] {
      forall k | k in Unread(p, f) ensures Undecided(ChannelOf(d.st, k)) { assert k !in completed; }
    }
  }

  lemma {:induction false} AgainJudged(p: Program, f: Contents, g: Contents, fuel: nat)
    ensures Judge(p, f, RunPass(p, f, fuel)) == Again(g) <==> Partial(p, f, fuel) && ReadsOn(p, f, g, fuel) && g != f
  {
    hide RunPass, Complete;
    DecidedComplete();
    var d := RunPass(p, f, fuel);
    if d.r.Ok? && !Clashes(d.st, Unread(p, f)) {
      var completed := Built(p, d.st) - f.Keys;
      assert ReadsOn(p, f, f + completed, fuel);
      if ReadsOn(p, f, g, fuel) {
        assert g.Keys == (f + completed).Keys;
        assert g == f + completed;
      }
      if completed == map[] { assert f + completed == f; }
      if completed != map[] {
        assert completed.Keys != {};
        var k :| k in completed.Keys;
        assert k in f + completed && k !in f;
      }
    }
  }

  // ----- Whole runs -----

  /** The driver's outcome is what the last of its passes shows: it ends where its passes end, and
      nowhere else. */
  lemma {:induction false} DriverEnds(p: Program, fuel: nat, o: Outcome)
    ensures RunFrom(p, map[], fuel) == o <==> exists fs :: Passes(p, fs, fuel) && Ends(p, fs[|fs| - 1], fuel, o)
  {
    hide RunPass, RunFrom, Ends, Partial, ReadsOn;
    var fs := RunReads(p, [map[]], fuel);
    if exists gs :: Passes(p, gs, fuel) && Ends(p, gs[|gs| - 1], fuel, o) {
      var gs :| Passes(p, gs, fuel) && Ends(p, gs[|gs| - 1], fuel, o);
      RunReached(p, gs, fuel);
      OutcomeEnds(p, gs[|gs| - 1], fuel, o);
    }
  }

  lemma {:induction false} OutcomeEnds(p: Program, f: Contents, fuel: nat, o: Outcome)
    requires f.Keys <= ChannelSet(p) && Ends(p, f, fuel, o)
    ensures RunFrom(p, f, fuel) == o
  {
    hide RunPass, Partial, ReadsOn;
    assert !o.Again?;
    EndsJudged(p, f, fuel, o);
  }

  /** From passes already made, the run makes the rest. */
  lemma {:induction false} RunReads(p: Program, fs: seq<Contents>, fuel: nat) returns (gs: seq<Contents>)
    requires Passes(p, fs, fuel)
    ensures fs[|fs| - 1].Keys <= ChannelSet(p)
    ensures Passes(p, gs, fuel) && Ends(p, gs[|gs| - 1], fuel, RunFrom(p, fs[|fs| - 1], fuel))
    decreases ChannelSet(p) - fs[|fs| - 1].Keys
  {
    hide RunPass, Ends, Partial, ReadsOn;
    var f := fs[|fs| - 1];
    PassesWithin(p, fs, fuel);
    var o := Judge(p, f, RunPass(p, f, fuel));
    if o.Again? {
      AgainGrows(p, f, RunPass(p, f, fuel));
      AgainJudged(p, f, o.finals, fuel);
      gs := RunReads(p, fs + [o.finals], fuel);
    } else {
      EndsJudged(p, f, fuel, o);
      gs := fs;
    }
  }

  lemma {:induction false} PassesWithin(p: Program, fs: seq<Contents>, fuel: nat)
    requires Passes(p, fs, fuel)
    ensures fs[|fs| - 1].Keys <= ChannelSet(p)
  {
    hide Partial, RunPass;
    if |fs| > 1 {
      var before := fs[..|fs| - 1];
      assert Passes(p, before, fuel);
      PassesWithin(p, before, fuel);
      assert ReadsOn(p, fs[|fs| - 2], fs[|fs| - 2 + 1], fuel);
    }
  }

  /** The driver reaches the end of every such sequence of passes. */
  lemma {:induction false} RunReached(p: Program, fs: seq<Contents>, fuel: nat)
    requires Passes(p, fs, fuel)
    ensures fs[|fs| - 1].Keys <= ChannelSet(p)
    ensures RunFrom(p, map[], fuel) == RunFrom(p, fs[|fs| - 1], fuel)
  {
    hide RunPass, Partial, ReadsOn;
    PassesWithin(p, fs, fuel);
    if |fs| > 1 {
      var n := |fs| - 2;
      var before := fs[..n + 1];
      assert Passes(p, before, fuel);
      RunReached(p, before, fuel);
      assert Partial(p, fs[n], fuel) && ReadsOn(p, fs[n], fs[n + 1], fuel) && fs[n + 1] != fs[n];
      AgainJudged(p, fs[n], fs[n + 1], fuel);
    }
  }

  // ----- Giving up -----

  lemma {:induction false} InitialWithin(channels: seq<string>, ks: set<string>)
    requires forall i | 0 <= i < |channels| :: channels[i] in ks
    ensures Waiting.Within(InitialEnv(channels), ks)
  {
    if |channels| > 0 { InitialWithin(channels[..|channels| - 1], ks); }
  }

  /** A pass waits only on channels of the program that it was not given. */
  lemma {:induction false} WaitsOnUnread(p: Program, f: Contents, fuel: nat)
    ensures RunPass(p, f, fuel).st.waited <= Unread(p, f)
  {
    hide EvalRaw, ExecRaw;
    InitialWithin(p.channels, ChannelSet(p));
    Waiting.ExecStmtsWaits(p.body, PassCtx(p, f), InitialState(p), ChannelSet(p), fuel);
  }

  /** Where the driver reports a cycle, its last pass succeeded and lost nothing; every channel that
      pass did not read is undecided after it; and it waited on one of them. */
  lemma {:induction false} CycleMeans(p: Program, fuel: nat)
    requires RunFrom(p, map[], fuel) == Cycle
    ensures exists fs :: && Passes(p, fs, fuel) && Partial(p, fs[|fs| - 1], fuel)
                         && var f, st := fs[|fs| - 1], RunPass(p, fs[|fs| - 1], fuel).st;
                         && (forall k | k in Unread(p, f) :: Undecided(ChannelOf(st, k)))
                         && (exists k | k in st.waited :: k in Unread(p, f) && Undecided(ChannelOf(st, k)))
  {
    hide EvalRaw, ExecRaw, RunFrom;
    DriverEnds(p, fuel, Cycle);
    var fs :| Passes(p, fs, fuel) && Ends(p, fs[|fs| - 1], fuel, Cycle);
    var f, st := fs[|fs| - 1], RunPass(p, fs[|fs| - 1], fuel).st;
    WaitsOnUnread(p, f, fuel);
    assert st.waited != {};
    var k :| k in st.waited;
    assert k in Unread(p, f);
  }
}
