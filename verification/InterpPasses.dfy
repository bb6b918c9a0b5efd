/** The pass driver: run the program again and again, each time reading the contents of every
    channel an earlier pass completed, until a pass waits on none.

    Its answer is the one assignment of contents to channels that the program itself rebuilds. */
module InterpPasses {
  import opened Options
  import opened InterpSyntax
  import opened InterpValues
  import opened InterpEval
  import opened InterpBelow
  import opened InterpSteps
  import opened InterpMonotone
  import opened InterpClean
  import Calmness = InterpCalm
  import Twins = InterpTwins
  import Settling = InterpSettle

  /** A program over its top-level channels: each channel's feed sites in the program text, and
      which channels are sinks. */
  datatype Program = Program(channels: seq<string>, sites: map<string, seq<Site>>, sinks: set<string>, body: Stmts)

  type Contents = map<string, Data>

  function ChannelSet(p: Program): set<string> {
    set i | 0 <= i < |p.channels| :: p.channels[i]
  }

  function InitialEnv(channels: seq<string>): Env {
    if |channels| == 0 then Empty
    else Bound(channels[|channels| - 1], Chan(channels[|channels| - 1]), InitialEnv(channels[..|channels| - 1]))
  }

  function InitialState(p: Program): State {
    State([], map k | k in ChannelSet(p) :: Channel([], None, if k in p.sites then p.sites[k] else []),
          0, true, {}, false, None, [], false)
  }

  /** The channels that have a feed site in the program text. */
  function TextFed(p: Program): set<string> {
    set k | k in p.sites && p.sites[k] != []
  }

  function PassCtx(p: Program, finals: Contents): Ctx {
    Ctx(InitialEnv(p.channels), finals, TextFed(p), 0, 0, [], [])
  }

  /** One pass over the program, reading `finals`. */
  function RunPass(p: Program, finals: Contents, fuel: nat): Done {
    ExecStmts(p.body, PassCtx(p, finals), InitialState(p), fuel)
  }

  /** What each decided channel holds after a pass. */
  function Built(p: Program, st: State): Contents {
    map k | k in ChannelSet(p) && Complete(ChannelOf(st, k)).Some? && Complete(ChannelOf(st, k)).value.Ok?
      :: Complete(ChannelOf(st, k)).value.value
  }

  /** Whether a channel of `ks` is decided and its contributions make no collection. */
  predicate Clashes(st: State, ks: set<string>) {
    exists k | k in ks :: Complete(ChannelOf(st, k)).Some? && Complete(ChannelOf(st, k)).value.Err?
  }

  datatype Outcome =
    | Answer(sinks: Contents)
    | Failed(error: Error)
    | Lost
    | Cycle
    | Again(finals: Contents)

  /** What the driver makes of one pass. */
  function Judge(p: Program, finals: Contents, d: Done): Outcome {
    if d.r.Err? then Failed(d.r.error)
    else if d.st.waited == {} then
      if Clashes(d.st, ChannelSet(p) * p.sinks) then Failed(Refused)
      else Answer(map k | k in Built(p, d.st) && k in p.sinks :: Built(p, d.st)[k])
    else if d.st.lost then Lost
    else if Clashes(d.st, ChannelSet(p) - finals.Keys) then Failed(Refused)
    else
      var completed := Built(p, d.st) - finals.Keys;
      if completed == map[] then Cycle else Again(finals + completed)
  }

  lemma {:induction false} AgainGrows(p: Program, finals: Contents, d: Done)
    requires Judge(p, finals, d).Again?
    ensures var next := Judge(p, finals, d).finals;
            && FinalsBelow(finals, next) && finals.Keys < next.Keys
            && (finals.Keys <= ChannelSet(p) ==> next.Keys <= ChannelSet(p))
  {
    var completed := Built(p, d.st) - finals.Keys;
    assert completed.Keys != {};
    var k :| k in completed.Keys;
    assert k in (finals + completed).Keys && k !in finals.Keys;
  }

  /** The driver's run from `finals` on. */
  function RunFrom(p: Program, finals: Contents, fuel: nat): Outcome
    requires finals.Keys <= ChannelSet(p)
    decreases ChannelSet(p) - finals.Keys
  {
    var o := Judge(p, finals, RunPass(p, finals, fuel));
    if o.Again? then
      AgainGrows(p, finals, RunPass(p, finals, fuel));
      RunFrom(p, o.finals, fuel)
    else o
  }

  lemma {:induction false} Smaller<T>(a: set<T>, b: set<T>)
    requires a <= b
    ensures |a| <= |b|
  {
    assert b == a + (b - a);
  }

  lemma {:induction false} ProperlySmaller<T>(a: set<T>, b: set<T>)
    requires a < b
    ensures |a| < |b|
  {
    assert b == a + (b - a);
    assert b - a != {};
  }

  // ----- Programs whose loops may be cut short -----

  /** The program's text is calm: no loop or comprehension decides anything by a variable that its
      body, or a function it calls, writes. */
  predicate Calm(p: Program) {
    Calmness.Calm(p.body)
  }

  lemma {:induction false} InitialPlaced(channels: seq<string>, ps: set<Calmness.Part>)
    ensures Twins.Placed(InitialEnv(channels), [], Some(0), ps)
  {
    if |channels| > 0 { InitialPlaced(channels[..|channels| - 1], ps); }
  }

  /** No pass of a calm program cuts a loop short, except one that loses an effect or fails for what
      a speculative construct refused. */
  lemma {:induction false} CalmPass(p: Program, finals: Contents, fuel: nat)
    requires Calm(p)
    ensures var d := RunPass(p, finals, fuel); d.st.carried ==> d.st.lost || d.r == Err(Escaped)
  {
    hide EvalRaw, ExecRaw;
    var ps := Calmness.PartsIn(p.body);
    InitialPlaced(p.channels, ps);
    Settling.ExecStmtsSettles(p.body, PassCtx(p, finals), InitialState(p), ps, fuel);
  }

  /** A pass whose effects a later pass can be measured against: it lost none, and it cut no loop
      short, which no pass of a calm program does. */
  ghost predicate Comparable(p: Program, d: Done) {
    !d.st.lost && (Calm(p) || !d.st.carried)
  }

  lemma {:induction false} ComparableFollowed(p: Program, finals: Contents, fuel: nat)
    requires Comparable(p, RunPass(p, finals, fuel))
    ensures var d := RunPass(p, finals, fuel); Followed(d.st) || d.r == Err(Escaped)
  {
    hide EvalRaw, ExecRaw;
    if Calm(p) { CalmPass(p, finals, fuel); }
  }

  // ----- One pass against a later one -----

  lemma {:induction false} InitialEnvBelow(channels: seq<string>)
    ensures EnvBelow(InitialEnv(channels), InitialEnv(channels)) && EnvClean(InitialEnv(channels))
  {
    if |channels| > 0 { InitialEnvBelow(channels[..|channels| - 1]); }
  }

  lemma {:induction false} InitialBelow(p: Program, f1: Contents, f2: Contents)
    requires FinalsBelow(f1, f2)
    ensures Pre(PassCtx(p, f1), PassCtx(p, f2), InitialState(p), InitialState(p), 0)
    ensures StateClean(InitialState(p)) && CtxClean(PassCtx(p, f1))
  {
    InitialEnvBelow(p.channels);
    var s := InitialState(p);
    forall k ensures ChannelBelow(ChannelOf(s, k), ChannelOf(s, k)) && SitesBelow(s, s, k)
        && !Undecided(ChannelOf(s, k)) {
    }
  }

  /** The earlier of two passes decided nothing the later one decided otherwise: every variable,
      every contribution and every commit time it knows, the later pass knows too. A failure of
      the earlier pass is the later one's as well, unless it is provisional. */
  lemma {:induction false} PassesMonotone(p: Program, f1: Contents, f2: Contents, fuel: nat)
    requires FinalsBelow(f1, f2)
    requires Comparable(p, RunPass(p, f1, fuel))
    requires RunPass(p, f2, fuel).r.Ok? && !RunPass(p, f2, fuel).st.lost
    ensures var d1, d2 := RunPass(p, f1, fuel), RunPass(p, f2, fuel);
            || Provisional(d1.r)
            || (d1.r.Ok? && EnvBelow(d1.env, d2.env) && StateBelow(d1.st, d2.st, 0))
  {
    hide EvalRaw, ExecRaw;
    ComparableFollowed(p, f1, fuel);
    InitialBelow(p, f1, f2);
    if Followed(RunPass(p, f1, fuel).st) {
      ExecStmtsBelow(p.body, PassCtx(p, f1), PassCtx(p, f2), InitialState(p), InitialState(p), 0, fuel);
    }
  }

  /** A channel the earlier pass completed has the same contents in the later one. */
  lemma {:induction false} CompletedStays(p: Program, f1: Contents, f2: Contents, fuel: nat, k: string)
    requires FinalsBelow(f1, f2)
    requires Comparable(p, RunPass(p, f1, fuel)) && RunPass(p, f1, fuel).r.Ok?
    requires RunPass(p, f2, fuel).r.Ok? && !RunPass(p, f2, fuel).st.lost
    requires Complete(ChannelOf(RunPass(p, f1, fuel).st, k)).Some?
    ensures Complete(ChannelOf(RunPass(p, f2, fuel).st, k)) == Complete(ChannelOf(RunPass(p, f1, fuel).st, k))
  {
    hide EvalRaw, ExecRaw;
    PassesMonotone(p, f1, f2, fuel);
    CompleteBelow(RunPass(p, f1, fuel).st, RunPass(p, f2, fuel).st, 0, k);
  }

  /** A failure outside speculation, in a pass that lost nothing and cut no loop short, is the
      program's, whatever a later pass would read: no later pass succeeds. */
  lemma {:induction false} FailureIsFinal(p: Program, f1: Contents, f2: Contents, fuel: nat)
    requires FinalsBelow(f1, f2)
    requires Comparable(p, RunPass(p, f1, fuel))
    requires RunPass(p, f1, fuel).r.Err? && !Provisional(RunPass(p, f1, fuel).r)
    ensures RunPass(p, f2, fuel).r.Err? || RunPass(p, f2, fuel).st.lost
  {
    hide EvalRaw, ExecRaw;
    if RunPass(p, f2, fuel).r.Ok? && !RunPass(p, f2, fuel).st.lost {
      PassesMonotone(p, f1, f2, fuel);
    }
  }

  // ----- The driver's answer -----

  /** Reading `x` leaves no read unanswered, and rebuilds exactly `x`. */
  ghost predicate SelfConsistent(p: Program, x: Contents, fuel: nat) {
    var d := RunPass(p, x, fuel);
    d.r.Ok? && d.st.waited == {} && Built(p, d.st) == x
  }

  /** The program is calm, or no pass of the driver's run from `finals` on cut a loop over a pending
      collection short. */
  ghost predicate LoopsSettle(p: Program, finals: Contents, fuel: nat)
    requires finals.Keys <= ChannelSet(p)
    decreases ChannelSet(p) - finals.Keys
  {
    var d := RunPass(p, finals, fuel);
    var o := Judge(p, finals, d);
    (Calm(p) || !d.st.carried) && (if o.Again? then AgainGrows(p, finals, d); LoopsSettle(p, o.finals, fuel) else true)
  }

  lemma {:induction false} CalmSettles(p: Program, finals: Contents, fuel: nat)
    requires Calm(p) && finals.Keys <= ChannelSet(p)
    ensures LoopsSettle(p, finals, fuel)
    decreases ChannelSet(p) - finals.Keys
  {
    hide EvalRaw, ExecRaw;
    var d := RunPass(p, finals, fuel);
    if Judge(p, finals, d).Again? {
      AgainGrows(p, finals, d);
      CalmSettles(p, Judge(p, finals, d).finals, fuel);
    }
  }

  /** A pass that waits on nothing loses nothing, and reading more changes nothing. */
  lemma {:induction false} QuietPass(p: Program, f1: Contents, f2: Contents, fuel: nat)
    requires FinalsBelow(f1, f2) && RunPass(p, f1, fuel).st.waited == {}
    ensures RunPass(p, f2, fuel) == RunPass(p, f1, fuel)
    ensures StateClean(RunPass(p, f1, fuel).st) && Followed(RunPass(p, f1, fuel).st)
  {
    hide EvalRaw, ExecRaw;
    InitialBelow(p, f1, f2);
    ExecStmtsClean(p.body, PassCtx(p, f1), InitialState(p), f2, fuel);
  }

  /** What a pass completes, every later pass builds. */
  lemma {:induction false} BuiltStays(p: Program, f1: Contents, f2: Contents, fuel: nat)
    requires FinalsBelow(f1, f2)
    requires Comparable(p, RunPass(p, f1, fuel)) && RunPass(p, f1, fuel).r.Ok?
    requires RunPass(p, f2, fuel).r.Ok? && !RunPass(p, f2, fuel).st.lost
    ensures FinalsBelow(Built(p, RunPass(p, f1, fuel).st), Built(p, RunPass(p, f2, fuel).st))
  {
    hide EvalRaw, ExecRaw;
    var b1 := Built(p, RunPass(p, f1, fuel).st);
    forall k | k in b1 ensures k in Built(p, RunPass(p, f2, fuel).st) && b1[k] == Built(p, RunPass(p, f2, fuel).st)[k] {
      CompletedStays(p, f1, f2, fuel, k);
    }
  }

  /** Every contents the driver ever reads, a self-consistent assignment agrees with. */
  lemma {:induction false} FinalsAgree(p: Program, finals: Contents, x: Contents, fuel: nat)
    requires FinalsBelow(finals, x) && SelfConsistent(p, x, fuel)
    requires var d := RunPass(p, finals, fuel); (Calm(p) || !d.st.carried) && Judge(p, finals, d).Again?
    ensures FinalsBelow(Judge(p, finals, RunPass(p, finals, fuel)).finals, x)
  {
    hide ExecRaw;
    QuietPass(p, x, x, fuel);
    BuiltStays(p, finals, x, fuel);
  }

  /** The last pass of the driver's run from `finals` on. */
  ghost function LastPass(p: Program, finals: Contents, fuel: nat): Done
    requires finals.Keys <= ChannelSet(p)
    decreases ChannelSet(p) - finals.Keys
  {
    var d := RunPass(p, finals, fuel);
    var o := Judge(p, finals, d);
    if o.Again? then AgainGrows(p, finals, d); LastPass(p, o.finals, fuel) else d
  }

  /** The assignment the driver's run ends with: what its last pass built. */
  ghost function LastBuilt(p: Program, finals: Contents, fuel: nat): Contents
    requires finals.Keys <= ChannelSet(p)
  {
    Built(p, LastPass(p, finals, fuel).st)
  }

  /** A pass whose reads are all answered, from contents the last pass rebuilds. */
  lemma {:induction false} AnswerRebuilt(p: Program, finals: Contents, fuel: nat)
    requires finals.Keys <= ChannelSet(p)
    requires LoopsSettle(p, finals, fuel) && RunFrom(p, finals, fuel).Answer?
    requires forall f2 | FinalsBelow(finals, f2) && RunPass(p, f2, fuel).r.Ok?
             && RunPass(p, f2, fuel).st.waited == {} ::
               FinalsBelow(finals, Built(p, RunPass(p, f2, fuel).st))
    ensures var x := LastBuilt(p, finals, fuel);
            && SelfConsistent(p, x, fuel)
            && RunFrom(p, finals, fuel).sinks == map k | k in x && k in p.sinks :: x[k]
    decreases ChannelSet(p) - finals.Keys
  {
    hide ExecRaw;
    var d := RunPass(p, finals, fuel);
    var o := Judge(p, finals, d);
    if o.Again? {
      AgainGrows(p, finals, d);
      forall f2 | FinalsBelow(o.finals, f2) && RunPass(p, f2, fuel).r.Ok? && RunPass(p, f2, fuel).st.waited == {}
        ensures FinalsBelow(o.finals, Built(p, RunPass(p, f2, fuel).st))
      {
        assert FinalsBelow(finals, f2);
        QuietPass(p, f2, f2, fuel);
        BuiltStays(p, finals, f2, fuel);
      }
      AnswerRebuilt(p, o.finals, fuel);
    } else {
      QuietPass(p, finals, Built(p, d.st), fuel);
    }
  }

  /** Where the last pass rebuilds the contents it read, whatever the passes before it did, what it
      built rebuilds itself. */
  lemma {:induction false} CheckedAnswer(p: Program, finals: Contents, fuel: nat)
    requires var d := RunPass(p, finals, fuel); d.r.Ok? && d.st.waited == {} && FinalsBelow(finals, Built(p, d.st))
    ensures SelfConsistent(p, Built(p, RunPass(p, finals, fuel).st), fuel)
  {
    hide EvalRaw, ExecRaw;
    QuietPass(p, finals, Built(p, RunPass(p, finals, fuel).st), fuel);
  }

  /** The driver's answer, from the first pass on: the sinks of an assignment that rereading the
      program rebuilds, and that every such assignment equals. */
  lemma {:induction false} DriverAnswers(p: Program, fuel: nat)
    requires (Calm(p) || LoopsSettle(p, map[], fuel)) && RunFrom(p, map[], fuel).Answer?
    ensures var x := LastBuilt(p, map[], fuel);
            && SelfConsistent(p, x, fuel)
            && (forall y | SelfConsistent(p, y, fuel) :: y == x)
            && RunFrom(p, map[], fuel).sinks == map k | k in x && k in p.sinks :: x[k]
  {
    hide EvalRaw, ExecRaw;
    var x := LastBuilt(p, map[], fuel);
    if Calm(p) { CalmSettles(p, map[], fuel); }
    AnswerRebuilt(p, map[], fuel);
    forall y | SelfConsistent(p, y, fuel) ensures y == x {
      LastUnique(p, map[], y, fuel);
    }
  }

  lemma {:induction false} LastUnique(p: Program, finals: Contents, x: Contents, fuel: nat)
    requires finals.Keys <= ChannelSet(p) && FinalsBelow(finals, x)
    requires LoopsSettle(p, finals, fuel) && RunFrom(p, finals, fuel).Answer?
    requires SelfConsistent(p, x, fuel)
    ensures x == LastBuilt(p, finals, fuel)
    decreases ChannelSet(p) - finals.Keys
  {
    hide EvalRaw, ExecRaw;
    var d := RunPass(p, finals, fuel);
    var o := Judge(p, finals, d);
    if o.Again? {
      AgainGrows(p, finals, d);
      FinalsAgree(p, finals, x, fuel);
      LastUnique(p, o.finals, x, fuel);
    } else {
      QuietPass(p, finals, x, fuel);
    }
  }

  /** Where the last pass fails for good, no assignment is self-consistent: the program has no
      answer the driver could have missed. */
  lemma {:induction false} FailureHasNoAnswer(p: Program, finals: Contents, x: Contents, fuel: nat)
    requires finals.Keys <= ChannelSet(p) && FinalsBelow(finals, x)
    requires LoopsSettle(p, finals, fuel)
    requires var d := LastPass(p, finals, fuel); d.r.Err? && !Provisional(d.r) && !d.st.lost
    ensures !SelfConsistent(p, x, fuel)
    decreases ChannelSet(p) - finals.Keys
  {
    hide EvalRaw, ExecRaw;
    if SelfConsistent(p, x, fuel) {
      var d := RunPass(p, finals, fuel);
      var o := Judge(p, finals, d);
      if o.Again? {
        AgainGrows(p, finals, d);
        FinalsAgree(p, finals, x, fuel);
        FailureHasNoAnswer(p, o.finals, x, fuel);
      } else {
        QuietPass(p, x, x, fuel);
        FailureIsFinal(p, finals, x, fuel);
      }
    }
  }
}
