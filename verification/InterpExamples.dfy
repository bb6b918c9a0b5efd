/** A program on which the pass driver answers wrongly: it decides a channel from one speculative
    run of a loop's body, and a later turn of the loop feeds that channel. */
module InterpExamples {
  import opened Options
  import opened InterpSyntax
  import opened InterpValues
  import opened InterpEval
  import opened InterpBelow
  import opened InterpSteps
  import opened InterpPasses
  import Calmness = InterpCalm
  import Failures = InterpFailures

  const LIST := Failures.LIST
  const LISTED := Failures.LISTED

  const SEEN := If(Branch(Name("seen"), MoreStmts(Feed("c", Literal(LitInt(1)), 10), NoStmts), NoElse))
  const BODY := MoreStmts(SEEN, MoreStmts(Failures.MARK, NoStmts))
  const LOOP := For("y", Name("d"), BODY)

  const TELL := Define("e", Name("c"))

  /** `d <<= [1, 2]; seen := false; for y in d: (if seen: c << 1); seen := true` and then `e <<= c`. */
  const FedOnTheSecondTurn := Program(["d", "c", "e"], map["c" := [[10]]], {"e"},
    MoreStmts(Define("d", Failures.LISTING),
    MoreStmts(MutAssign("seen", false, Literal(LitBool(false))), MoreStmts(LOOP, MoreStmts(TELL, NoStmts)))))

  const EnvDCE := Bound("e", Chan("e"), Bound("c", Chan("c"), Bound("d", Chan("d"), Empty)))
  const EnvSeen := Bound("seen", Mut(0), EnvDCE)

  function StateSeen(seen: Value, fed: seq<Contribution>, waited: set<string>): State {
    State([Cell("seen", seen, false, None)], map["d" := LISTED, "c" := Channel(fed, None, [[10]]), "e" := FRESH], 0,
        true, waited, false,
          None, [], false)
  }

  function CtxSeen(finals: Contents): Ctx {
    Ctx(EnvSeen, finals, {"c"}, 0, 0, [], [])
  }

  lemma {:induction false} StartDCE(finals: Contents)
    ensures var p := FedOnTheSecondTurn;
            && ChannelSet(p) == {"d", "c", "e"} && PassCtx(p, finals) == Ctx(EnvDCE, finals, {"c"}, 0, 0, [], [])
            && InitialState(p) == State([], map["d" := FRESH, "c" := Channel([], None, [[10]]), "e" := FRESH], 0, true,
                {}, false, None, [], false)
    ensures Lookup(EnvDCE, "d") == Some(Chan("d")) && Lookup(EnvDCE, "c") == Some(Chan("c"))
            && Lookup(EnvDCE, "seen") == None
    ensures Lookup(EnvSeen, "d") == Some(Chan("d")) && Lookup(EnvSeen, "c") == Some(Chan("c"))
            && Lookup(EnvSeen, "e") == Some(Chan("e"))
  {
    var p := FedOnTheSecondTurn;
    assert p.channels[0] == "d" && p.channels[1] == "c" && p.channels[2] == "e";
    assert ChannelSet(p) == {"d", "c", "e"};
    assert InitialState(p).chans == map["d" := FRESH, "c" := Channel([], None, [[10]]), "e" := FRESH];
    assert ["d", "c", "e"][..2] == ["d", "c"] && ["d", "c"][..1] == ["d"] && ["d"][..0] == [];
    assert InitialEnv(["d"]) == Bound("d", Chan("d"), InitialEnv([]));
    assert InitialEnv(["d", "c"]) == Bound("c", Chan("c"), InitialEnv(["d"]));
    assert InitialEnv(["d", "c", "e"]) == Bound("e", Chan("e"), InitialEnv(["d", "c"]));
    var dc := Bound("c", Chan("c"), Bound("d", Chan("d"), Empty));
    assert Lookup(dc, "d") == Some(Chan("d")) && Lookup(dc, "seen") == Lookup(Bound("d", Chan("d"), Empty), "seen");
    assert TextFed(p) == {"c"};
    assert Lookup(EnvSeen, "d") == Lookup(EnvDCE, "d") && Lookup(EnvSeen, "c") == Lookup(EnvDCE, "c");
  }

  lemma {:induction false} LoopHead(finals: Contents, fuel: nat)
    ensures RunPass(FedOnTheSecondTurn, finals, fuel)
         == ExecStmts(MoreStmts(LOOP, MoreStmts(TELL, NoStmts)), CtxSeen(finals),
             StateSeen(Known(Bool(false)), [], {}), fuel)
  {
    hide EvalRaw, ExecRaw, Lookup, ExecStmts;
    var p := FedOnTheSecondTurn;
    StartDCE(finals);
    var c := Ctx(EnvDCE, finals, {"c"}, 0, 0, [], []);
    var s0 := InitialState(p);
    var s1 := s0.(chans := s0.chans["d" := LISTED]);
    Failures.ListEvaluates(c, s0, fuel);
    Failures.DefineValue("d", Failures.LISTING, Known(LIST), c, s0, fuel);
    assert Exec(p.body.head, c, s0, fuel) == Done(Ok(None), s1, EnvDCE);
    Failures.Sequence(p.body.head, p.body.tail, c, s0, fuel);
    Failures.MakeStep("seen", LitBool(false), c, s1, fuel);
    Failures.Sequence(p.body.tail.head, p.body.tail.tail, c, s1, fuel);
    assert s1.cells + [Cell("seen", Known(Bool(false)), false, None)]
        == [Cell("seen", Known(Bool(false)), false, None)];
    assert s1.(cells := [Cell("seen", Known(Bool(false)), false, None)]) == StateSeen(Known(Bool(false)), [], {});
  }

  /** One turn of the loop while `seen` is decided. */
  lemma {:induction false} Turn(c: Ctx, seen: bool, fed: seq<Contribution>, waited: set<string>, fuel: nat)
    requires Lookup(c.env, "seen") == Some(Mut(0)) && Lookup(c.env, "c") == Some(Chan("c"))
    requires c.calls == [] && c.specAtCall == 0 && (c.spec > 0 ==> !seen)
    ensures var x := Contribution([10], TupleKey(c.loopKeys), Known(Int(1)));
            RunBody(BODY, Run, c, StateSeen(Known(Bool(seen)), fed, waited), fuel)
            == Out(Ok(None), StateSeen(if c.spec > 0 then Pending else Known(Bool(true)), if seen then fed + [x]
                else fed, waited))
  {
    hide EvalRaw, ExecRaw;
    var st := StateSeen(Known(Bool(seen)), fed, waited);
    var x := Contribution([10], TupleKey(c.loopKeys), Known(Int(1)));
    var st1 := StateSeen(Known(Bool(seen)), if seen then fed + [x] else fed, waited);
    var st2 := StateSeen(if c.spec > 0 then Pending else Known(Bool(true)), if seen then fed + [x] else fed, waited);
    TurnFeeds(c, seen, fed, waited, fuel);
    Failures.Sequence(SEEN, MoreStmts(Failures.MARK, NoStmts), c, st, fuel);
    TurnMarks(c, seen, if seen then fed + [x] else fed, waited, fuel);
    Failures.Sequence(Failures.MARK, NoStmts, c, st1, fuel);
    assert st2.cells[..1] == st2.cells;
  }

  lemma {:induction false} TurnMarks(c: Ctx, seen: bool, fed: seq<Contribution>, waited: set<string>, fuel: nat)
    requires Lookup(c.env, "seen") == Some(Mut(0))
    ensures Exec(Failures.MARK, c, StateSeen(Known(Bool(seen)), fed, waited), fuel)
         == Done(Ok(None), StateSeen(if c.spec > 0 then Pending else Known(Bool(true)), fed, waited), c.env)
  {
    var st := StateSeen(Known(Bool(seen)), fed, waited);
    assert Eval(Literal(LitBool(true)), c, st, fuel) == Out(Ok(Known(Bool(true))), st);
  }

  /** The feed of a turn on which `seen` is true. */
  lemma {:induction false} SeenFeeds(c: Ctx, fed: seq<Contribution>, waited: set<string>, fuel: nat)
    requires Lookup(c.env, "c") == Some(Chan("c")) && c.calls == [] && c.spec == 0
    ensures var x := Contribution([10], TupleKey(c.loopKeys), Known(Int(1)));
            Exec(Feed("c", Literal(LitInt(1)), 10), c, StateSeen(Known(Bool(true)), fed, waited), fuel)
            == Done(Ok(None), StateSeen(Known(Bool(true)), fed + [x], waited), c.env)
  {
    hide RunBranches, RunMatch, ExecFor, ExecWith, BindingOf;
    var st := StateSeen(Known(Bool(true)), fed, waited);
    var x := Contribution([10], TupleKey(c.loopKeys), Known(Int(1)));
    assert Eval(Literal(LitInt(1)), c, st, fuel) == Out(Ok(Known(Int(1))), st);
    assert [] + [10] == [10] && AddSite([[10]], [10]) == [[10]];
    assert FeedInto("c", [10], Known(Int(1)), c, st).chans == StateSeen(Known(Bool(true)), fed + [x], waited).chans;
  }

  lemma {:induction false} TurnFeeds(c: Ctx, seen: bool, fed: seq<Contribution>, waited: set<string>, fuel: nat)
    requires Lookup(c.env, "seen") == Some(Mut(0)) && Lookup(c.env, "c") == Some(Chan("c"))
    requires c.calls == [] && c.specAtCall == 0 && (c.spec > 0 ==> !seen)
    ensures var x := Contribution([10], TupleKey(c.loopKeys), Known(Int(1)));
            Exec(SEEN, c, StateSeen(Known(Bool(seen)), fed, waited), fuel)
            == Done(Ok(None), StateSeen(Known(Bool(seen)), if seen then fed + [x] else fed, waited), c.env)
  {
    hide EvalRaw, ExecRaw, BlockValue, RunBody, Lookup;
    var st, feed := StateSeen(Known(Bool(seen)), fed, waited), Feed("c", Literal(LitInt(1)), 10);
    Failures.IfStep("seen", SEEN.branches.body, c, st, fuel);
    if seen {
      SeenFeeds(c, fed, waited, fuel);
      Failures.BodyStep(feed, c, st, fuel);
    }
  }

  /** The loop while `d` is pending: the body runs once, and `seen` is still decided when it is
      read. */
  lemma {:induction false} PendingLoop(c: Ctx, waited: set<string>, fuel: nat)
    requires c.env == EnvSeen && c.spec == 0 && c.specAtCall == 0 && c.calls == []
    ensures var o := LoopOver(Pending, LOOP, c, StateSeen(Known(Bool(false)), [], waited), fuel);
            o.r == Ok(None) && o.st.(carried := false) == StateSeen(Pending, [], waited)
  {
    hide EvalRaw, ExecRaw, BlockValue, RunBody, Settled;
    StartDCE(c.finals);
    var env := PendingElement(c, "y").env;
    assert Lookup(env, "seen") == Some(Mut(0)) && Lookup(env, "c") == Lookup(EnvSeen, "c");
    Turn(PendingElement(c, "y"), false, [], waited, fuel);
    var once := RunBody(BODY, Run, PendingElement(c, "y"), StateSeen(Known(Bool(false)), [], waited), fuel);
    assert once == Out(Ok(None), StateSeen(Pending, [], waited));
    var twice := RunBody(BODY, Run, PendingElement(c, "y"), once.st, fuel);
    assert LoopOver(Pending, LOOP, c, StateSeen(Known(Bool(false)), [], waited), fuel) == Recorded(once, twice);
  }

  /** The last statement: `e` is whatever `c` was when it was read. */
  lemma {:induction false} TellStep(c: Ctx, st: State, fuel: nat)
    requires c.env == EnvSeen && c.fed == {"c"} && c.spec == 0 && ChannelOf(st, "e") == FRESH
    ensures var v := if "c" in c.finals then Known(c.finals["c"]) else Pending;
            var waited := if "c" in c.finals then st.waited else st.waited + {"c"};
            Exec(TELL, c, st, fuel) == Done(Ok(None), st.(chans := st.chans["e" := Channel([], Some(v), [])],
                waited := waited), EnvSeen)
  {
    hide EvalRaw, RunBranches, RunMatch, ExecFor, ExecWith, BindingOf, Lookup;
    StartDCE(c.finals);
    Failures.NameStep("c", c, st, fuel);
  }

  /** What the loop leaves, and what the last statement makes of it, the pass leaves. */
  lemma {:induction false} LoopEnds(finals: Contents, v: Value, waited: set<string>, fuel: nat)
    requires v == (if "d" in finals then Known(finals["d"]) else Pending)
    requires waited == (if "d" in finals then {} else {"d"})
    requires var o := LoopOver(v, LOOP, CtxSeen(finals), StateSeen(Known(Bool(false)), [], waited), fuel);
             o.r == Ok(None) && ChannelOf(o.st, "e") == FRESH
    ensures var st := LoopOver(v, LOOP, CtxSeen(finals), StateSeen(Known(Bool(false)), [], waited), fuel).st;
            var read := if "c" in finals then Known(finals["c"]) else Pending;
            RunPass(FedOnTheSecondTurn, finals, fuel)
            == Done(Ok(None), st.(chans := st.chans["e" := Channel([], Some(read), [])],
                                  waited := if "c" in finals then st.waited else st.waited + {"c"}), EnvSeen)
  {
    hide EvalRaw, ExecRaw, LoopOver;
    var c := CtxSeen(finals);
    LoopHead(finals, fuel);
    LoopRuns(c, v, waited, fuel);
    Failures.Sequence(LOOP, MoreStmts(TELL, NoStmts), c, StateSeen(Known(Bool(false)), [], {}), fuel);
    var st := LoopOver(v, LOOP, c, StateSeen(Known(Bool(false)), [], waited), fuel).st;
    TellStep(c, st, fuel);
    Failures.Sequence(TELL, NoStmts, c, st, fuel);
  }

  lemma {:induction false} LoopRuns(c: Ctx, v: Value, waited: set<string>, fuel: nat)
    requires c.env == EnvSeen && c.spec == 0
    requires v == (if "d" in c.finals then Known(c.finals["d"]) else Pending)
    requires waited == (if "d" in c.finals then {} else {"d"})
    ensures var o := LoopOver(v, LOOP, c, StateSeen(Known(Bool(false)), [], waited), fuel);
            Exec(LOOP, c, StateSeen(Known(Bool(false)), [], {}), fuel) == Done(o.r, o.st, EnvSeen)
  {
    hide EvalRaw, LoopOver, RunBranches, RunMatch, ExecWith, BindingOf, Lookup;
    var st, st1 := StateSeen(Known(Bool(false)), [], {}), StateSeen(Known(Bool(false)), [], waited);
    StartDCE(c.finals);
    assert {} + {"d"} == {"d"};
    Failures.NameStep("d", c, st, fuel);
    assert ExecFor(LOOP, c, st, fuel) == LoopOver(v, LOOP, c, st1, fuel);
  }

  /** The loop once `d` is known: the second turn feeds `c`. */
  lemma {:induction false} KnownLoop(c: Ctx, fuel: nat)
    requires c.env == EnvSeen && c.spec == 0 && c.specAtCall == 0 && c.calls == [] && c.loopKeys == []
    ensures LoopOver(Known(LIST), LOOP, c, StateSeen(Known(Bool(false)), [], {}), fuel)
         == Out(Ok(None), StateSeen(Known(Bool(true)), [Contribution([10], Known(Int(1)), Known(Int(1)))], {}))
  {
    hide EvalRaw, ExecRaw;
    TwoTurns(c, fuel);
    Failures.ListSorted();
  }

  lemma {:induction false} TwoTurns(c: Ctx, fuel: nat)
    requires c.env == EnvSeen && c.spec == 0 && c.specAtCall == 0 && c.calls == [] && c.loopKeys == []
    ensures ForLoop("y", LIST.entries, BODY, c, StateSeen(Known(Bool(false)), [], {}), fuel)
         == Out(Ok(None), StateSeen(Known(Bool(true)), [Contribution([10], Known(Int(1)), Known(Int(1)))], {}))
  {
    hide EvalRaw, ExecRaw, BlockValue;
    var es := LIST.entries;
    assert es[1..] == [(Int(1), Int(2))] && es[1..][1..] == [];
    var c0 := c.AtKey(Known(es[0].0)).In(BindVar(c.env, "y", Known(es[0].1)));
    var c1 := c.AtKey(Known(es[1].0)).In(BindVar(c.env, "y", Known(es[1].1)));
    assert c0.loopKeys == [Known(Int(0))] && c1.loopKeys == [Known(Int(1))];
    assert Decided(c1.loopKeys) == [Int(1)];
    Turn(c0, false, [], {}, fuel);
    Turn(c1, true, [], {}, fuel);
    assert [] + [Contribution([10], Known(Int(1)), Known(Int(1)))]
        == [Contribution([10], Known(Int(1)), Known(Int(1)))];
    var s1, s2 := StateSeen(Known(Bool(true)), [], {}),
        StateSeen(Known(Bool(true)), [Contribution([10], Known(Int(1)), Known(Int(1)))], {});
    assert ForLoop("y", es[1..][1..], BODY, c, s2, fuel) == Out(Ok(None), s2);
    assert ForLoop("y", es[1..], BODY, c, s1, fuel) == Out(Ok(None), s2);
  }

  const FedOnce := Contribution([10], Known(Int(1)), Known(Int(1)))
  const ONE := Coll([(Int(1), Int(1))])

  lemma {:induction false} ContentsDiffer()
    ensures Complete(Channel([], None, [[10]])) == Some(Ok(Coll([])))
    ensures Complete(Channel([FedOnce], None, [[10]])) == Some(Ok(ONE))
  {
    assert Entries(Channel([], None, [[10]])) == [];
    assert Entries(Channel([FedOnce], None, [[10]])) == ONE.entries;
  }

  /** What the pass that reads no contents leaves: `c` decided, and empty. */
  lemma {:induction false} FirstPass(fuel: nat)
    ensures var d := RunPass(FedOnTheSecondTurn, map[], fuel);
            && d.r == Ok(None) && !d.st.lost && d.st.waited == {"d", "c"}
            && d.st.chans == map["d" := LISTED, "c" := Channel([], None, [[10]]), "e" := Channel([], Some(Pending), [])]
  {
    hide EvalRaw, ExecRaw, LoopOver;
    PendingLoop(CtxSeen(map[]), {"d"}, fuel);
    LoopEnds(map[], Pending, {"d"}, fuel);
    assert {"d"} + {"c"} == {"d", "c"};
  }

  /** What a pass that reads `d` and `c` leaves: `c` fed once, and `e` as `c` was read. */
  lemma {:induction false} LaterPass(finals: Contents, fuel: nat)
    requires "d" in finals && finals["d"] == LIST && "c" in finals
    ensures var d := RunPass(FedOnTheSecondTurn, finals, fuel);
            && d.r == Ok(None) && !d.st.lost && d.st.waited == {}
            && d.st.chans == map["d" := LISTED, "c" := Channel([FedOnce], None, [[10]]),
                "e" := Channel([], Some(Known(finals["c"])), [])]
  {
    hide EvalRaw, ExecRaw, LoopOver;
    KnownLoop(CtxSeen(finals), fuel);
    LoopEnds(finals, Known(LIST), {}, fuel);
  }

  /** The first pass completes `c` as empty and loses nothing; the next builds it with an entry. One
      speculative run of a body does not cover the effects of its later turns. */
  lemma {:induction false} CutShort(fuel: nat)
    ensures var d1 := RunPass(FedOnTheSecondTurn, map[], fuel);
            var d2 := RunPass(FedOnTheSecondTurn, map["d" := LIST, "c" := Coll([])], fuel);
            && d1.r.Ok? && !d1.st.lost && d2.r.Ok? && !d2.st.lost && d2.st.waited == {}
            && Complete(ChannelOf(d1.st, "c")) == Some(Ok(Coll([])))
            && Complete(ChannelOf(d2.st, "c")) == Some(Ok(ONE))
            && d1.st.carried
  {
    hide EvalRaw, ExecRaw;
    FirstPass(fuel);
    LaterPass(map["d" := LIST, "c" := Coll([])], fuel);
    ContentsDiffer();
    if !RunPass(FedOnTheSecondTurn, map[], fuel).st.carried {
      CompletedStays(FedOnTheSecondTurn, map[], map["d" := LIST, "c" := Coll([])], fuel, "c");
    }
  }

  lemma {:induction false} JudgedFirst(d: Done)
    requires d.r == Ok(None) && !d.st.lost && d.st.waited == {"d", "c"}
    requires d.st.chans == map["d" := LISTED, "c" := Channel([], None, [[10]]), "e" := Channel([], Some(Pending), [])]
    ensures Judge(FedOnTheSecondTurn, map[], d) == Again(map["d" := LIST, "c" := Coll([])])
  {
    var p := FedOnTheSecondTurn;
    StartDCE(map[]);
    ContentsDiffer();
    DefinedHolds(Known(LIST));
    DefinedHolds(Pending);
    hide Complete;
    assert "d" in d.st.waited;
    assert Built(p, d.st) == map["d" := LIST, "c" := Coll([])];
    hide Built;
    var none: Contents := map[];
    assert Built(p, d.st) - none.Keys == Built(p, d.st) && none + Built(p, d.st) == Built(p, d.st);
    assert "d" in Built(p, d.st);
  }

  lemma {:induction false} DefinedHolds(v: Value)
    ensures Complete(Channel([], Some(v), [])) == if v.Pending? then None else Some(Ok(v.d))
  {}

  /** What a pass that read `v` of `c` built. */
  lemma {:induction false} BuiltLast(d: Done, v: Data)
    requires d.st.chans == map["d" := LISTED, "c" := Channel([FedOnce], None, [[10]]),
             "e" := Channel([], Some(Known(v)), [])]
    ensures Built(FedOnTheSecondTurn, d.st) == map["d" := LIST, "c" := ONE, "e" := v]
    ensures !Clashes(d.st, ChannelSet(FedOnTheSecondTurn))
  {
    hide Complete;
    StartDCE(map[]);
    ContentsDiffer();
    DefinedHolds(Known(LIST));
    DefinedHolds(Known(v));
  }

  lemma {:induction false} JudgedLast(d: Done, finals: Contents, v: Data)
    requires d.r == Ok(None) && d.st.waited == {} && Built(FedOnTheSecondTurn, d.st)
             == map["d" := LIST, "c" := ONE, "e" := v]
    requires !Clashes(d.st, ChannelSet(FedOnTheSecondTurn))
    ensures Judge(FedOnTheSecondTurn, finals, d) == Answer(map["e" := v])
  {
    hide Built, Complete;
    var p := FedOnTheSecondTurn;
    assert (map k | k in Built(p, d.st) && k in p.sinks :: Built(p, d.st)[k]) == map["e" := v];
  }

  /** The driver answers with what it read of `c` too early, although the program has a
      self-consistent assignment, with another answer. */
  lemma {:induction false} DriverMisled(fuel: nat)
    ensures RunFrom(FedOnTheSecondTurn, map[], fuel) == Answer(map["e" := Coll([])])
    ensures SelfConsistent(FedOnTheSecondTurn, map["d" := LIST, "c" := ONE, "e" := ONE], fuel)
  {
    hide EvalRaw, ExecRaw, Judge, Built;
    var p := FedOnTheSecondTurn;
    StartDCE(map[]);
    FirstPass(fuel);
    JudgedFirst(RunPass(p, map[], fuel));
    var f2, y := map["d" := LIST, "c" := Coll([])], map["d" := LIST, "c" := ONE, "e" := ONE];
    LaterPass(f2, fuel);
    BuiltLast(RunPass(p, f2, fuel), Coll([]));
    JudgedLast(RunPass(p, f2, fuel), f2, Coll([]));
    LaterPass(y, fuel);
    BuiltLast(RunPass(p, y, fuel), ONE);
  }

  // ----- Which of these loops is calm -----

  /** `d <<= [1, 2]; total := 0; for y in d: total += y; c << total` and then `e <<= c`. */
  const Accumulated := Program(["d", "c", "e"], map["c" := [[10]]], {"e"},
    MoreStmts(Define("d", Failures.LISTING),
    MoreStmts(MutAssign("total", false, Literal(LitInt(0))),
    MoreStmts(For("y", Name("d"), SUM), MoreStmts(TELL, NoStmts)))))

  lemma {:induction false} DecidesBySeen(r: Calmness.Rule)
    requires "seen" in r.written
    ensures !Calmness.SteadyStmts(BODY, r, false)
  {
    assert !Calmness.SteadyExpr(Name("seen"), r, false);
    assert !Calmness.SteadyBranches(SEEN.branches, r, false);
    assert !Calmness.SteadyStmt(SEEN, r, false);
  }

  /** The loop that is cut short decides by what it writes. */
  lemma {:induction false} NotCalm()
    ensures !Calm(FedOnTheSecondTurn)
  {
    hide Calmness.SteadyStmts;
    var cut, ps, ss := Calmness.LoopBody(BODY), Calmness.PartsIn(FedOnTheSecondTurn.body), FedOnTheSecondTurn.body;
    assert cut in Calmness.PartsOf(LOOP);
    assert Calmness.PartsIn(ss.tail.tail) == Calmness.PartsOf(LOOP) + Calmness.PartsIn(ss.tail.tail.tail);
    assert Calmness.PartsIn(ss.tail) == Calmness.PartsOf(ss.tail.head) + Calmness.PartsIn(ss.tail.tail);
    assert cut in ps;
    assert "seen" in WrittenIn(BODY) by {
      assert "seen" in WrittenBy(Failures.MARK) && Failures.MARK == BODY.tail.head;
    }
    DecidesBySeen(Calmness.RuleFor(WrittenIn(BODY), false, ps));
    DecidesBySeen(Calmness.RuleFor(WrittenIn(BODY), true, ps));
    assert !Calmness.CalmPart(cut, ps);
  }

  const SUM := MoreStmts(AugAssign("total", Add, Name("y")), MoreStmts(Feed("c", Name("total"), 10), NoStmts))

  lemma {:induction false} SumSteady(ps: set<Calmness.Part>)
    ensures Calmness.SteadyStmts(SUM, Calmness.RuleFor(WrittenIn(SUM), false, ps), false)
  {
    assert WrittenIn(SUM) == {"total"} by {
      assert WrittenBy(SUM.head) == {"total"} && WrittenBy(SUM.tail.head) == {} && WrittenIn(SUM.tail) == {};
    }
    var r := Calmness.RuleFor({"total"}, false, ps);
    assert Calmness.SteadyData(Name("y"), r, false) && Calmness.SteadyData(Name("total"), r, false);
    assert Calmness.SteadyStmt(SUM.head, r, false) && Calmness.SteadyStmt(SUM.tail.head, r, false);
    assert Calmness.SteadyStmts(SUM.tail, r, false);
  }

  /** A loop that accumulates, and feeds what it accumulated, is calm. */
  lemma {:induction false} CalmSum()
    ensures Calm(Accumulated)
  {
    hide Calmness.SteadyStmts, Calmness.PartsInExpr;
    var ss, ps := Accumulated.body, Calmness.PartsIn(Accumulated.body);
    Failures.ListingParts();
    NoPartsHere();
    assert Calmness.PartsIn(ss.tail.tail.tail) == {};
    assert Calmness.PartsIn(ss.tail.tail) == {Calmness.LoopBody(SUM)};
    assert Calmness.PartsIn(ss.tail) == {Calmness.LoopBody(SUM)};
    assert ps == {Calmness.LoopBody(SUM)};
    SumSteady(ps);
  }

  lemma {:induction false} NoPartsHere()
    ensures Calmness.PartsIn(SUM) == {} && Calmness.PartsOf(TELL) == {} && Calmness.PartsInExpr(Name("d")) == {}
    ensures Calmness.PartsOf(MutAssign("total", false, Literal(LitInt(0)))) == {}
  {
    assert Calmness.PartsOf(SUM.head) == {} && Calmness.PartsOf(SUM.tail.head) == {}
        && Calmness.PartsIn(SUM.tail) == {};
  }
}
