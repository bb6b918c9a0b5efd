# Cambra, verified

Models of Cambra's hardest components, with proofs of what they promise. Every claim is for all
inputs, all runs or all reachable states.

**The reference interpreter** (`Interp*.dfy`) runs a program in passes. A read of an unfinished
channel is *pending*, and code that runs only if a pending value is so-and-so runs speculatively,
leaving only pending effects. `InterpEval` is one pass as a step semantics; `InterpMachine` is the
interpreter as an object with mutable fields and loops, proved to take exactly those steps;
`InterpWeaken` shows that speculation only undecides; `InterpBelow`, `InterpSteps` and
`InterpMonotone` show that a later pass agrees with everything an earlier one decided;
`InterpClean` that a pass that waits on nothing depends on nothing more; `InterpPasses` concludes
that the driver's answer is the one self-consistent assignment of contents to channels. Three
conditions on the earlier pass stand in these theorems, with a program for each that shows it is
needed:

- Its failure is *provisional* if it left a speculative construct (`Escaped`), or if it refused a
  `<<=` for a feed site that joined when a call reached it (`FedAndDefined`).
- It *lost* an effect: something failed, or returned, inside a speculative construct. The driver
  looks at this only where the pass succeeded.
- It was *carried*: a loop or comprehension over a pending collection runs its body once, and a
  second speculative run would have found more. `carried` is a ghost record that no step reads.
  `InterpCalm` gives a condition on the program text that rules it out: no `Mut` parameters, and no
  body of a loop or comprehension decides anything by a variable that it, or a function it calls,
  writes; reading one to store or feed the result, as an accumulator does, is allowed.
  `InterpTwins`, `InterpTwinSteps`, `InterpParallel` and `InterpSettle` prove that such a body does
  the same when it runs again, so that the theorems hold of those programs without `carried`.
  `InterpExamples` has the program that misleads the driver.

The comment at `chl-interp/src/eval.rs:838-839` says that every failure outside speculation is the
program's. `InterpFailures` proves it of what a failing pass shows of itself if and only if none of
the three applies (`FinalKinds`), with a program for every other case (`NotFinal`); of calm programs
the first two decide (`CalmFinalKinds`).

What a pass computes is pinned by a second semantics, written on its own: `OperatorMeaning` says what
operations yield as relations between operands and result, and `PlainMeaning` what a program means
once every channel's contents are given, over maps and plain data, with nothing pending. `PlainRuns`
proves that a pass that waits on nothing runs exactly so, and `PlainPasses` that the driver's answer
is the sinks of the one assignment that the plain run builds again. `InterpOutcomes` says of the
passes alone when the driver goes on, and when it reports a failure, a lost effect or a cycle.

**Values** (`ValueEquality`, `ValuePairing`, `IntArith`): equality up to the ranks of commit times,
when it finds the pairing that exists, and exact integer power and floor division.

**Strongly connected components** (`StrongComponents`): Tarjan's algorithm over mutable tables.

**A-normalization** (`Anf*.dfy`): `AnfTerms` gives terms a meaning, with an application spine as
one call and bare mutable variables as locations; `AnfPass` is the pass; `AnfNormal` the form it
reaches; `AnfRelation`, `AnfChains` and `AnfMeaning` that it preserves meaning.

**Layout** (`Layout*.dfy`, `Folding`): the off-side rule with bracket recovery. `LayoutMachine` is
the step semantics and `LayoutRun` the mutable object that takes those steps. `LayoutBlocks` says
which lines open block values, the others state the rest of the stream's contract, and `Folding` is
its client in the language server.

**The rest**: `Comprehension` (the encoding against the interpreter's walk), `Printer` (operator
precedence, read back by the parser's own `Grammar`), `LineIndex`, `Documents` and `Server` (the
language server), `BranchTable` (the live program's branches).

Integers are unbounded except where `IntArith` says otherwise. Compilation, clocks, channels of
messages and what a pull returns are parameters.

## Model

| member | source | states |
|---|---|---|
| `InterpPasses.PassesMonotone` | chl-interp/src/eval.rs:6-24 | Of two passes where the later reads more final contents, the earlier lost nothing, and the program is calm or the earlier cut no loop short: every variable, cell, contribution and commit time the earlier one decided is the same in the later one; a failure of the earlier one is the later one's too unless it is provisional. |
| `InterpPasses.CompletedStays` | chl-interp/src/eval.rs:151-161 | A channel complete after such an earlier pass has identical contents after every later pass. |
| `InterpPasses.FailureIsFinal` | chl-interp/src/eval.rs:838-840 | A pass that fails, not provisionally, having lost nothing and, unless the program is calm, cut no loop short, means that no later pass succeeds. This covers a `<<=` refused for a feed site in the program text. |
| `InterpPasses.CalmPass` | chl-interp/src/eval.rs:1651-1667 | A pass of a program whose text is calm cuts no loop or comprehension over a pending collection short, unless it loses an effect or fails for what a speculative construct refused. |
| `InterpPasses.CalmSettles` | chl-interp/src/eval.rs:821-886 | Every run of the driver over a calm program meets the condition of the theorems about whole runs. |
| `InterpPasses.AnswerRebuilt` | chl-interp/src/eval.rs:841-856 | The contents the last pass built rebuild themselves when the program is rerun reading them, and the answer is their sinks. |
| `InterpPasses.CheckedAnswer` | chl-interp/src/eval.rs:841-849 | Where the last pass rebuilds the contents it read, which the debug assertion asks, what it built rebuilds itself, carried or not. |
| `InterpPasses.LastUnique` | chl-interp/src/eval.rs:841-856 | Any self-consistent assignment equals what the driver's last pass built. |
| `InterpPasses.DriverAnswers` | chl-interp/src/eval.rs:821-886 | For a calm program, or a run no pass of which cut a loop short: the driver's answer is the sinks of the one self-consistent assignment, which rereading rebuilds and which every assignment that rebuilds itself equals. |
| `InterpPasses.FailureHasNoAnswer` | chl-interp/src/eval.rs:838-840 | Where the last pass fails for good, having lost nothing, no assignment rebuilds itself. |
| `InterpPasses.BuiltStays` | chl-interp/src/eval.rs:863-870 | What a pass completes, every later pass builds identically. |
| `InterpPasses.QuietPass` | chl-interp/src/eval.rs:841-849 | A pass that waits on nothing decides everything and is the same pass however much more it could have read. |
| `InterpPasses.AgainGrows` | chl-interp/src/eval.rs:863-884 | A pass that is not the last adds a channel to the final contents and changes none. |
| `InterpMachine.Run` | chl-interp/src/eval.rs:821-886 | The driver loop over fresh interpreter objects has the outcome of the pass semantics, which `DriverEnds` characterizes, and stops within one pass per channel plus one. |
| `InterpOutcomes.DriverEnds` | chl-interp/src/eval.rs:821-886 | The driver's outcome is `o` if and only if there is a sequence of contents, the first none and each next one the last with every channel that its pass decided as that pass built it, all of whose passes succeed, wait and lose nothing, and whose last pass shows `o`: an answer, a failure or clash, a lost effect, or a cycle. |
| `InterpOutcomes.CycleMeans` | chl-interp/src/eval.rs:863-884 | Where the driver reports a cycle, its last pass succeeded and lost nothing, every channel that pass was not given is undecided after it, and it waited on one of them. |
| `InterpOutcomes.AgainJudged` | chl-interp/src/eval.rs:863-884 | There is a further pass if and only if this one succeeded, waits and lost nothing, no channel clashes, and a channel it was not given is decided; the further pass reads every such channel. |
| `InterpOutcomes.WaitsOnUnread` | chl-interp/src/eval.rs:2751-2759 | A pass waits only on channels of the program whose contents it was not given. |
| `PlainPasses.PassMeans` | chl-interp/src/eval.rs:821-886 | A pass is the plain run of the program on the contents it reads: it waits if and only if the plain run reads contents that are not given, fails as the plain run fails, and builds the contents the plain run builds. |
| `PlainPasses.ConsistentMeans` | chl-interp/src/eval.rs:841-849 | An assignment is self-consistent if and only if the plain run on it builds it again. |
| `PlainPasses.AnswerMeans` | chl-interp/src/eval.rs:821-886 | For a calm program, or a run no pass of which cut a loop short: the driver's answer is the sinks of the one assignment that the plain run builds again. |
| `PlainRuns.EvalMeans` | chl-interp/src/eval.rs:2705-2713 | An expression that waits on nothing has the value and the effects of the plain meaning. |
| `PlainRuns.EvalBoolMeans` | chl-interp/src/eval.rs:2888-2913 | `and` and `or`: the conjunction or disjunction of the operands up to the first decisive one. |
| `PlainMeaning.ShortCircuit` | chl-interp/src/eval.rs:2888-2913 | Of those operands only the last may be decisive, and then no operand after it runs. |
| `PlainRuns.EvalChainMeans` | chl-interp/src/eval.rs:2858-2887 | A comparison chain: whether all comparisons hold, up to the first that does not. |
| `PlainRuns.EvalIfMeans` | chl-interp/src/eval.rs:2915-2937 | A conditional has the value of the branch its boolean chooses; anything but a boolean is refused. |
| `PlainRuns.EvalCallMeans` | chl-interp/src/eval.rs:3180-3264 | A call runs the body in the scope the function was defined in, with its arguments, and leaves no variable of its own. |
| `PlainRuns.ComprehendMeans` | chl-interp/src/eval.rs:3384-3442 | A comprehension collects, in order, an entry under the tuple of positions for each binding its guards keep. |
| `PlainRuns.TakenMeans` | chl-interp/src/eval.rs:1517-1529 | An `if` runs the body of the first branch whose condition holds, or of its `else`. |
| `PlainRuns.MatchedMeans` | chl-interp/src/eval.rs:1532-1550 | A `match` runs the first arm whose pattern fits, with what the pattern binds. |
| `PlainSteps.FitMeans` | chl-interp/src/eval.rs:2444-2515 | What a pattern binds: each named position of a tuple, the last where a name is repeated; a missing position is refused. |
| `PlainRuns.ExecMeans` | chl-interp/src/eval.rs:1243-1261 | A statement has the effects, scope and return value of the plain meaning. |
| `PlainRuns.KeyedAssignMeans` | chl-interp/src/eval.rs:1432-1456 | A keyed assignment binds the key where it is, or else at the end. |
| `PlainRuns.LoopOverMeans` | chl-interp/src/eval.rs:1651-1718 | A loop runs integer keys in ascending order; over other keys it is refused exactly if something written or committed outlives an iteration, or it returned with several entries. |
| `PlainSteps.SortIs` | chl-interp/src/eval.rs:1678-1684 | The order of an integer-keyed loop: the first of the least keys, then the rest so. |
| `PlainRuns.WithMeans` | chl-interp/src/eval.rs:1747-1803 | A block that wrote or replied takes the next commit time, under which its replies go out in order; one inside another is refused. |
| `PlainRelation.JoiningMeans` | chl-interp/src/eval.rs:2326-2343 | A feed site that joins goes to its place in program order. |
| `PlainPasses.HeldMeans` | chl-interp/src/eval.rs:2532-2558 | What a channel holds: its definition, or the collection of its contributions, tagged by site where there are several. |
| `OperatorMeaning.ComputeIs` | chl-interp/src/eval.rs:3475-3519 | An operation gives `v` if and only if `v` is what it means: exact sums and products within 64 bits, floors, powers, the first field or key that matches, tagged unions, sums with every partial sum in range, the value that leads. |
| `OperatorMeaning.ComparisonIs` | chl-interp/src/eval.rs:2858-2887 | A comparison decides by equality up to ranks, or by the order of bases, of texts as in dictionaries, and of the first component that differs; without an order it is refused. |
| `OperatorMeaning.LeadingInteger` | chl-interp/src/eval.rs:3022-3178 | Among integers the value that leads is the greatest, or the least. |
| `InterpMachine.Interp.Judged` | chl-interp/src/eval.rs:840-884 | The end of a pass: answer, lost effect, clash, cycle, or the contents for the next pass. |
| `InterpMachine.Interp.Collect` | chl-interp/src/eval.rs:863-870 | The decided channels among those wanted with their contents, or none exactly when the contributions of one clash. |
| `InterpFailures.FinalKinds` | chl-interp/src/eval.rs:838-840 | Over what a failing pass shows (the kind of failure, whether it lost an effect, whether it cut a loop short): every failure that shows so is the program's, in every program and whatever a later pass reads, if and only if the guard that refused is neither the way out of a speculative construct nor the `<<=` guard for a site that a call joined, and nothing was lost or cut short. |
| `InterpFailures.CalmFinalKinds` | chl-interp/src/eval.rs:838-840 | The same over calm programs, by what the driver itself can see: the kind of failure and whether an effect was lost. |
| `InterpFailures.NotFinal` | chl-interp/src/eval.rs:838-840 | Counterexamples to the claim that every failure outside speculation is the program's, one for each excluded combination: the first pass fails so and the driver reports it, though the program rebuilds an assignment. Among them a function that fails after a `return` under an undecided branch, a division by what a later turn assigns, and a `<<=` refused for a site that a call not taken joined. |
| `InterpExamples.CutShort` | chl-interp/src/eval.rs:1651-1667 | A loop over a pending collection runs its body once, so a channel fed only on a later turn is completed as empty and the next pass builds it otherwise: the case that calm text excludes. |
| `InterpExamples.DriverMisled` | chl-interp/src/eval.rs:821-886 | A program whose run answers with contents read too early after such a loop, although another assignment rebuilds itself. |
| `InterpExamples.NotCalm` | chl-interp/src/eval.rs:1651-1667 | The text of that program is not calm: its loop decides by what it writes. |
| `InterpExamples.CalmSum` | chl-interp/src/eval.rs:1651-1667 | A loop that accumulates and feeds what it accumulated is calm. |
| `InterpSettle.LoopSettled` | chl-interp/src/eval.rs:1651-1667 | A second speculative run of a calm loop body, from where the first ended, changes no variable, channel, clock or block. |
| `InterpSettle.ClausesSettled` | chl-interp/src/eval.rs:3411-3428 | The same of the clauses of a calm comprehension. |
| `InterpSettle.ExecStmtsSettles` | chl-interp/src/eval.rs:1230-1241 | Statements of calm text that cut a loop short lost an effect or failed for what a speculative construct refused. |
| `InterpParallel.EvalSame` | chl-interp/src/eval.rs:2705-2713 | Two speculative evaluations of an expression that reads none of the variables its run may write: the second, from a state where those are pending, gives the same value and does the same. |
| `InterpParallel.EvalDataSame` | chl-interp/src/eval.rs:2705-2713 | An expression whose value is only stored or fed may read those variables: the second run gives the same value or a pending one. |
| `InterpParallel.EvalCallSame` | chl-interp/src/eval.rs:3180-3264 | The same of a call of a function of the text that keeps the rule. |
| `InterpParallel.ComprehendSame` | chl-interp/src/eval.rs:3384-3442 | The same of a comprehension. |
| `InterpParallel.ExecSame` | chl-interp/src/eval.rs:1243-1261 | The same of a statement, which leaves both runs in scopes that go on alike. |
| `InterpParallel.LoopOverSame` | chl-interp/src/eval.rs:1651-1718 | The same of a loop. |
| `InterpParallel.ExecWithSame` | chl-interp/src/eval.rs:1747-1803 | The same of a block of writes: in both runs it wrote nothing, or in both it is undecided. |
| `InterpMonotone.EvalBelow` | chl-interp/src/eval.rs:2705-2713 | An expression evaluated by both passes at related points: what the earlier decides the later decides the same, values and state. |
| `InterpMonotone.EvalRawBelow` | chl-interp/src/eval.rs:2715-3016 | The same for each expression form. |
| `InterpMonotone.EvalIfBelow` | chl-interp/src/eval.rs:2915-2937 | A conditional undecided earlier and decided later: both branches run speculatively cover the one taken. |
| `InterpMonotone.ChainCovered` | chl-interp/src/eval.rs:2858-2887 | A comparison chain undecided earlier covers however far the later pass goes on. |
| `InterpMonotone.BoolCovered` | chl-interp/src/eval.rs:2888-2914 | A short-circuit operator undecided earlier covers whichever operand decides it later. |
| `InterpMonotone.EvalCallBelow` | chl-interp/src/eval.rs:3180-3264 | Calls, with `Mut` parameters aliasing the caller's cells. |
| `InterpMonotone.BindingOfBelow` | chl-interp/src/eval.rs:3273-3324 | Bindings of functions, channels and values. |
| `InterpMonotone.ComprehendBelow` | chl-interp/src/eval.rs:3384-3442 | Comprehensions with pending guards and sources. |
| `InterpMonotone.BranchesUndecided` | chl-interp/src/eval.rs:2261-2290 | An `if` chain undecided at a condition: the later conditions and all bodies run speculatively cover the branch the later pass takes. |
| `InterpMonotone.ArmsCovered` | chl-interp/src/eval.rs:2444-2513 | A `match` on a pending value: all arms run with pending binders cover the arm the later pass takes. |
| `InterpMonotone.ExecStmtsBelow` | chl-interp/src/eval.rs:1230-1241 | The statement list: the whole-evaluator monotonicity statement the passes rest on. |
| `InterpMonotone.ExecRawBelow` | chl-interp/src/eval.rs:1337-1809 | The same for each statement form. |
| `InterpMonotone.LoopOverBelow` | chl-interp/src/eval.rs:1651-1718 | Loops over decided and pending collections, watched where keys are not positions. |
| `InterpMonotone.PendingLoopCovered` | chl-interp/src/eval.rs:1657-1667 | One speculative run of a loop body that a second run would find nothing to add to covers every turn of the later pass. |
| `InterpMonotone.ExecWithBelow` | chl-interp/src/eval.rs:1747-1803 | `with` blocks: commit times and replies. |
| `InterpSteps.WriteBelow` | chl-interp/src/eval.rs:2196-2235 | A write taken by both passes, speculative in the earlier one or in neither. |
| `InterpSteps.DefineBelow` | chl-interp/src/eval.rs:1487-1512 | `<<=` taken by both passes. |
| `InterpSteps.FeedBelow` | chl-interp/src/eval.rs:2292-2342 | `<<` taken by both passes, inside and outside a `with` block. |
| `InterpSteps.CommitBelow` | chl-interp/src/eval.rs:1774-1803 | The end of a `with` block: where the earlier pass is unsure whether it commits, its clock is unknown from there on and its replies are pending. |
| `InterpBelow.CompleteBelow` | chl-interp/src/eval.rs:151-161 | A channel completed in a state below another has the same contents in both. |
| `InterpBelow.BelowSettled` | chl-interp/src/eval.rs:1657-1667 | A second speculative run that adds nothing the first did not leaves the first below whatever the second is. |
| `InterpWeaken.EvalWeakens` | chl-interp/src/eval.rs:779-784 | A speculative evaluation only undecides: cells keep their value or become pending, contributions and replies added are pending, no commit time is taken. |
| `InterpWeaken.ExecWeakens` | chl-interp/src/eval.rs:1243-1261 | The same for a speculative statement, which never returns. |
| `InterpWeaken.CommitWeakens` | chl-interp/src/eval.rs:1774-1803 | A block begun while speculating takes no commit time: it denied, or it is undecided and its replies are pending. |
| `InterpClean.EvalClean` | chl-interp/src/eval.rs:2705-3016 | An evaluation that waits on nothing decides everything and does not depend on final contents it did not read. |
| `InterpClean.ExecStmtsClean` | chl-interp/src/eval.rs:1230-1261 | The same for statement lists. |
| `InterpMachine.Interp.constructor` | chl-interp/src/eval.rs:700-724 | A fresh pass: the channels open and empty, the clock known at 0. |
| `InterpMachine.Interp.Eval` | chl-interp/src/eval.rs:2705-2713 | An expression, a failure while speculating recorded as lost; the scopes, speculation depth, loop keys and call path are restored. Fields and result are those of the step semantics the theorems above are about. |
| `InterpMachine.Interp.EvalRaw` | chl-interp/src/eval.rs:2715-3016 | Each expression form. Fields and result are those of the step semantics the theorems above are about. |
| `InterpMachine.Interp.EvalIf` | chl-interp/src/eval.rs:2915-2937 | The conditional; both branches speculatively where it is pending. Fields and result are those of the step semantics the theorems above are about. |
| `InterpMachine.Interp.EvalChain` | chl-interp/src/eval.rs:2858-2887 | The loop over a comparison chain. Fields and result are those of the step semantics the theorems above are about. |
| `InterpMachine.Interp.EvalBool` | chl-interp/src/eval.rs:2888-2914 | The loop over a short-circuit operator's operands. Fields and result are those of the step semantics the theorems above are about. |
| `InterpMachine.Interp.EvalCall` | chl-interp/src/eval.rs:3180-3264 | A call: its own scopes, its cells dropped afterwards. Fields and result are those of the step semantics the theorems above are about. |
| `InterpMachine.Interp.BindingOf` | chl-interp/src/eval.rs:3273-3324 | What a binding holds. Fields and result are those of the step semantics the theorems above are about. |
| `InterpMachine.Interp.Comprehend` | chl-interp/src/eval.rs:3384-3442 | The clause walk. Fields and result are those of the step semantics the theorems above are about. |
| `InterpMachine.Interp.CompLoop` | chl-interp/src/eval.rs:3430-3438 | The loop over a source's entries. Fields and result are those of the step semantics the theorems above are about. |
| `InterpMachine.Interp.BlockValue` | chl-interp/src/eval.rs:2372-2397 | The value of a block, running all but its last statement. Fields and result are those of the step semantics the theorems above are about. |
| `InterpMachine.Interp.LastValue` | chl-interp/src/eval.rs:2383-2440 | The value of a last statement. Fields and result are those of the step semantics the theorems above are about. |
| `InterpMachine.Interp.RunBranches` | chl-interp/src/eval.rs:2261-2290 | The `if` chain. Fields and result are those of the step semantics the theorems above are about. |
| `InterpMachine.Interp.RunMatch` | chl-interp/src/eval.rs:2444-2513 | The `match`. Fields and result are those of the step semantics the theorems above are about. |
| `InterpMachine.Interp.ExecBlock` | chl-interp/src/eval.rs:1230-1241 | The loop over statements, stopping at a `return`. Fields and result are those of the step semantics the theorems above are about. |
| `InterpMachine.Interp.Exec` | chl-interp/src/eval.rs:1243-1261 | A statement, a failure or a `return` while speculating recorded as lost. Fields and result are those of the step semantics the theorems above are about. |
| `InterpMachine.Interp.ExecRaw` | chl-interp/src/eval.rs:1337-1809 | Each statement form. Fields and result are those of the step semantics the theorems above are about. |
| `InterpMachine.Interp.LoopOver` | chl-interp/src/eval.rs:1651-1718 | A `for`: once speculatively over a pending source, in ascending order over positions, watched otherwise. Fields and result are those of the step semantics the theorems above are about. |
| `InterpMachine.Interp.ForLoop` | chl-interp/src/eval.rs:1693-1705 | The loop over entries. Fields and result are those of the step semantics the theorems above are about. |
| `InterpMachine.Interp.ExecWith` | chl-interp/src/eval.rs:1747-1803 | A `with` block, refused inside another. Fields and result are those of the step semantics the theorems above are about. |
| `InterpMachine.Interp.Commit` | chl-interp/src/eval.rs:1774-1803 | The loop over replies at a commit. Fields and result are those of the step semantics the theorems above are about. |
| `InterpMachine.Interp.Write` | chl-interp/src/eval.rs:2196-2235 | A write, marking the loops it outlives and refusing a second writing block. Fields and result are those of the step semantics the theorems above are about. |
| `InterpMachine.Interp.MarkWatches` | chl-interp/src/eval.rs:2226-2230 | The loop over running loops that marks those begun after the cell was made. Fields and result are those of the step semantics the theorems above are about. |
| `InterpMachine.Interp.MarkAll` | chl-interp/src/eval.rs:1791-1793 | The loop over running loops that a commit marks. Fields and result are those of the step semantics the theorems above are about. |
| `InterpMachine.Interp.AssignKey` | chl-interp/src/eval.rs:1411-1462 | A keyed assignment. Fields and result are those of the step semantics the theorems above are about. |
| `InterpMachine.Interp.DefineAs` | chl-interp/src/eval.rs:1487-1512 | A definition of a channel or a name. Fields and result are those of the step semantics the theorems above are about. |
| `InterpMachine.Interp.ExecFeed` | chl-interp/src/eval.rs:2292-2322 | A feed statement. Fields and result are those of the step semantics the theorems above are about. |
| `InterpMachine.Interp.FeedInto` | chl-interp/src/eval.rs:2292-2342 | A feed, kept for the commit inside a block. Fields and result are those of the step semantics the theorems above are about. |
| `InterpMachine.Interp.ReadName` | chl-interp/src/eval.rs:2745-2764 | A read; one of an incomplete channel is waited on. Fields and result are those of the step semantics the theorems above are about. |
| `InterpMachine.Interp.ReadMut` | chl-interp/src/eval.rs:2240-2255 | A read of a mutable variable; one of a `Txn` variable only in a block that writes it. Fields and result are those of the step semantics the theorems above are about. |
| `ValueEquality.Reflexive` | chl-interp/src/value.rs:105-112 | Equality is reflexive. |
| `ValueEquality.Symmetric` | chl-interp/src/value.rs:105-112 | Equality is symmetric. |
| `ValueEquality.Transitive` | chl-interp/src/value.rs:105-112 | Equality is transitive. |
| `ValueEquality.NoFalseAgreement` | chl-interp/src/value.rs:95-182 | Collections reported equal have a one-to-one matching of their rank-normalized entries with equal keys and values. |
| `ValuePairing.AgreementExact` | chl-interp/src/value.rs:232-237 | Where no record or collection in a key or value holds a commit time, and entries that sort alike are equal, collections are reported equal if and only if their rank-normalized entries pair up one to one. |
| `ValuePairing.PlainAgreement` | chl-interp/src/value.rs:232-237 | Collections whose keys and values hold no record or collection are reported equal if and only if their rank-normalized entries pair up one to one, without further condition. |
| `ValuePairing.RanksMispair` | chl-interp/src/value.rs:232-237 | Two collections that pair up and are reported different, because their keys are collections that hold commit times. |
| `ValuePairing.SortAlike` | chl-interp/src/value.rs:232-289 | Equal values in which no record or collection holds a commit time compare alike with every value. |
| `ValuePairing.ArrangedAlike` | chl-interp/src/value.rs:95-99 | Two arrangements of the same entries sort to pairwise equal entries. |
| `ValuePairing.EntryTransits` | chl-interp/src/value.rs:238-289 | The canonical order of entries is transitive. |
| `ValuePairing.EntryFlip` | chl-interp/src/value.rs:238-289 | The canonical order of entries is antisymmetric. |
| `ValueEquality.RenumberingUnseen` | chl-interp/src/value.rs:105-182 | Renumbering commit times, increasing within each key context, changes no comparison on either side. |
| `ValueEquality.RankCommitTimes` | chl-interp/src/value.rs:122-182 | The grouping loops replace each commit time by its rank among those sharing the rest of the key. |
| `ValueEquality.GroupTimes` | chl-interp/src/value.rs:150-161 | The grouping holds each context's commit times, sorted. |
| `ValueEquality.Place` | chl-interp/src/value.rs:153-161 | Placing a time keeps a group sorted and complete. |
| `ValueEquality.Position` | chl-interp/src/value.rs:162-175 | The index of a time in its sorted group is the number of smaller ones. |
| `IntArith.IntPow` | chl-interp/src/eval.rs:3458-3471 | A value exactly when the exponent is non-negative and the true power fits in 64 signed bits, and then the true power. |
| `IntArith.SquareOverflowIsFinal` | chl-interp/src/eval.rs:3458-3471 | An intermediate square that overflows means the result does, so aborting on it loses nothing. |
| `IntArith.SquareSkipsBound` | chl-interp/src/eval.rs:3458-3471 | No square is 2^63, the one magnitude that fits only when negative. |
| `IntArith.Raised` | src/scalar_ops.rs:79-91 | The wrapping loop gives a signed 64-bit integer congruent to the true power modulo 2^64. |
| `IntArith.CongruentFits` | src/scalar_ops.rs:79-91 | There is one such integer. |
| `IntArith.PowersAgree` | src/scalar_ops.rs:79-111 | Wherever the checked power is defined the wrapping one, or any 64-bit integer congruent to the power, is equal to it. |
| `IntArith.FloorDiv` | chl-interp/src/eval.rs:3447-3451 | The floor of the quotient; undefined exactly for divisor 0 and for a floor that does not fit. |
| `IntArith.FloorQuotient` | src/scalar_ops.rs:39-49 | The kernel's truncate-and-correct quotient is the mathematical floor. |
| `IntArith.FloorFits` | src/scalar_ops.rs:39-49 | Only MIN // -1 has a floor that does not fit. |
| `IntArith.FloorUnique` | chl-interp/src/eval.rs:3447-3451 | The floor is unique. |
| `StrongComponents.StronglyConnected` | src/util.rs:292-353 | The output is a partition of the vertices into the maximal mutually reachable sets, each after every component it reaches; components come in the order the depth-first search ends the visits of their first-met members, and members from the last met to the first. |
| `StrongComponents.CyclicComponents` | src/util.rs:278-283 | Exactly the components with a vertex on a cycle, in that order, their members included. |
| `StrongComponents.Tarjan.Visit` | src/util.rs:304-334 | A visit keeps the invariant, numbers what is reachable, leaves a low link that reaches the stack below or a complete component, and meets and ends vertices in the order of the reference depth-first search. |
| `StrongComponents.Tarjan.Explore` | src/util.rs:310-321 | The loop over successors. |
| `StrongComponents.Tarjan.Follow` | src/util.rs:311-320 | One successor: visited, on the stack, or in a finished component. |
| `StrongComponents.Tarjan.Finish` | src/util.rs:322-333 | A vertex whose low link is its own number closes its component. |
| `StrongComponents.Tarjan.TakeComponent` | src/util.rs:323-332 | The pop loop takes exactly the stack from the vertex upward. |
| `StrongComponents.ClosedComponents` | src/util.rs:292-353 | Disjoint, internally connected components closed towards earlier ones are maximal and in reverse topological order. |
| `StrongComponents.Pop` | src/util.rs:322-333 | Popping a component keeps the invariant over every table. |
| `StrongComponents.FinishTraced` | src/util.rs:322-333 | Ending a visit, with or without its component, keeps the search order and the order of the components. |
| `StrongComponents.Enter` | src/util.rs:304-309 | Numbering and pushing a vertex keeps the invariant over every table. |
| `StrongComponents.CyclicComponent` | src/util.rs:278-283 | A component's vertices are on a cycle exactly when it has two or its one vertex leads to itself. |
| `AnfMeaning.MeaningPreserved` | src/ccl/anf.rs:194-206 | A program with unique binders and its normalization both have a result or neither; the same value and final store, related pointwise through closures. |
| `AnfMeaning.Means` | src/ccl/anf.rs:311-786 | The simulation, for every term, environment and store. |
| `AnfMeaning.UniqueBinders` | src/ccl/anf.rs:259-289 | Unique binders give what the pass relies on: no binder hides a mutable variable in its scope. |
| `AnfMeaning.SpineMeans` | src/ccl/anf.rs:1146-1176 | An application spine: operands run in order, and a bare mutable variable is dereferenced at the call. |
| `AnfMeaning.ListMeans` | src/ccl/anf.rs:956-965 | Operands hoisted one by one deliver the values they had, although a later sibling may write a variable an earlier one reads. |
| `AnfMeaning.LetMeans` | src/ccl/anf.rs:338-373 | `let`, with its definiens' bindings moved ahead. |
| `AnfMeaning.StatementMeans` | src/ccl/anf.rs:378-403 | An expression statement. |
| `AnfMeaning.MarkerMeans` | src/ccl/anf.rs:994-1091 | The statement markers `For`, `MutWrite`, `Case`, `Feed`, `Define`. |
| `AnfMeaning.LoopMeans` | src/ccl/anf.rs:1025-1041 | Each turn of a loop. |
| `AnfMeaning.WriteMeans` | src/ccl/anf.rs:1004-1024 | A write with a hoisted key and value. |
| `AnfChains.RunKeeps` | src/ccl/anf.rs:869-882 | The bindings run after a name was minted keep the value it was bound to. |
| `AnfChains.Counts` | src/ccl/anf.rs:869-882 | The names bound ahead of a normalized term are distinct, in rising order, and among those its counter passed over. |
| `AnfChains.ChainRuns` | src/ccl/anf.rs:1096-1109 | A `let` chain runs its bindings in order, then its tail. |
| `AnfChains.PeelUndone` | src/ccl/anf.rs:910-928 | Peeling a normal term and sealing it again gives the term. |
| `AnfNormal.Reached` | src/ccl/anf.rs:311-786 | Every output is in normal form: operands atomic, flat spines with no wrapper in function position, markers directly under their statements, no chain left in a definiens but an annotated result's. |
| `AnfNormal.MarkersStay` | src/ccl/anf.rs:378-403 | A statement keeps its marker directly under it; an annotated result stays outermost. |
| `AnfNormal.Unchanged` | src/ccl/anf.rs:311-321 | The pass leaves a term in normal form as it is. |
| `AnfNormal.Idempotent` | src/ccl/anf.rs:194-206 | Applied to its own output the pass mints no name and changes nothing. |
| `AnfPass.Peel` | src/ccl/anf.rs:910-928 | What is left after peeling is not a temporary binding. |
| `AnfPass.PeelOff` | src/ccl/anf.rs:910-928 | The peel loop. |
| `AnfPass.Seal` | src/ccl/anf.rs:1096-1109 | The loop that seals a chain. |
| `AnfPass.AtomizeEach` | src/ccl/anf.rs:956-965 | The loop over operands. |
| `LayoutNesting.LaidNests` | chl-parser/src/lexer.rs:1206-1227 | For every raw token sequence and either run: levels and brackets pair like brackets after the deferred insertions, no `Newline` stands inside brackets, and the stream ends in `Newline` then only level closers. |
| `LayoutNesting.StepShape` | chl-parser/src/lexer.rs:1400-1449 | Every token keeps the nesting invariant. |
| `LayoutNesting.FinishNests` | chl-parser/src/lexer.rs:1625-1656 | The end of input turns the invariant into a well nested stream. |
| `LayoutOrder.LaidOrder` | chl-parser/src/lexer.rs:1464-1572 | For every raw token sequence and either run, output starts never decrease. |
| `LayoutOrder.StartsBefore` | cambra-lsp/src/folding.rs:93-111 | The binary search counts the tokens that start before a position. |
| `LayoutLedger.LaidBooks` | chl-parser/src/lexer.rs:1228-1273 | Every written token comes out once and in order but for newlines and close brackets matching nothing; each of those is named by exactly one error; zero-width closers match the unclosed-bracket errors one to one; a second run is asked for only with an error. |
| `LayoutLedger.BalancedInput` | chl-parser/src/lexer.rs:1228-1273 | Bracket-balanced input gets no bracket error and no second run. |
| `LayoutLedger.StepBooks` | chl-parser/src/lexer.rs:1400-1449 | Every token keeps the books. |
| `LayoutBlocks.LaidBlocks` | chl-parser/src/lexer.rs:1518-1536 | For every raw token sequence and either run: the stream's `BlockValueIndent`s are exactly one for each line that ends in a written newline after a `:` and whose first written token, after any `pub` or `const`, is no block keyword; it stands before the head of the line's last statement, at the head's start. |
| `LayoutBlocks.StepMarked` | chl-parser/src/lexer.rs:1400-1449 | Every token keeps the record of which lines have opened block values, and where. |
| `LayoutMargins.AfterMargins` | chl-parser/src/lexer.rs:1132-1184 | After every token of a run with no `InconsistentIndent`, floors rise up the stack, equal only under a pending level, and the top is at the line's column; in every run the bottom is column 0. |
| `LayoutMargins.LineLands` | chl-parser/src/lexer.rs:1464-1515 | A line draws an `InconsistentIndent` exactly when it lands in no level at its column. |
| `LayoutRun.Layout.constructor` | chl-parser/src/lexer.rs:1304-1360 | A fresh run. The fields become what the step semantics gives. |
| `LayoutRun.Layout.Take` | chl-parser/src/lexer.rs:1400-1449 | One raw token. The fields become what the step semantics gives. |
| `LayoutRun.Layout.BeginToken` | chl-parser/src/lexer.rs:1400-1419 | Physical lines, line starts and statement heads before a token. The fields become what the step semantics gives. |
| `LayoutRun.Layout.EmitToken` | chl-parser/src/lexer.rs:1421-1449 | The token itself. The fields become what the step semantics gives. |
| `LayoutRun.Layout.IndentLine` | chl-parser/src/lexer.rs:1464-1512 | Levels closed and opened at a line start. The fields become what the step semantics gives. |
| `LayoutRun.Layout.SettleLine` | chl-parser/src/lexer.rs:1496-1511 | The level a line settles in. The fields become what the step semantics gives. |
| `LayoutRun.Layout.FinishLine` | chl-parser/src/lexer.rs:1518-1537 | The end of a line. The fields become what the step semantics gives. |
| `LayoutRun.Layout.PhysicalLineStart` | chl-parser/src/lexer.rs:1549-1572 | A physical line inside brackets. The fields become what the step semantics gives. |
| `LayoutRun.Layout.MarkEnded` | chl-parser/src/lexer.rs:1554-1562 | The walk down from the innermost bracket that stops at the first marked one marks every open bracket. The fields become what the step semantics gives. |
| `LayoutRun.Layout.CloseOne` | chl-parser/src/lexer.rs:1577-1610 | A close bracket. The fields become what the step semantics gives. |
| `LayoutRun.Layout.CloseMatching` | chl-parser/src/lexer.rs:1577-1608 | A close bracket that matches an open one, closing those inside it. The fields become what the step semantics gives. |
| `LayoutRun.Layout.GiveUpOne` | chl-parser/src/lexer.rs:1611-1621 | A bracket that is never closed. The fields become what the step semantics gives. |
| `LayoutRun.Layout.End` | chl-parser/src/lexer.rs:1625-1656 | The end of input. The fields become what the step semantics gives. |
| `LayoutRun.Layout.ColumnOf` | chl-parser/src/lexer.rs:1391-1397 | The start of a position's line and the offset from it. The fields become what the step semantics gives. |
| `LayoutRun.InsertAll` | chl-parser/src/lexer.rs:1641-1655 | The deferred insertions, made in one pass over the output. |
| `LayoutRun.RunLayout` | chl-parser/src/lexer.rs:1362-1388 | One run over the raw tokens. |
| `LayoutRun.SortedDistinct` | chl-parser/src/lexer.rs:1246-1248 | The brackets to close early, sorted without repeats. |
| `LayoutRun.Tokenize` | chl-parser/src/lexer.rs:1228-1273 | One run, or a second with exactly the brackets the first asks to close early: the stream is well nested, line-ended and ordered, and its block values open on the lines that say so; a second run happens only if the first reported an error, and never on bracket-balanced input. |
| `Folding.BracketPairs` | cambra-lsp/src/folding.rs:135-158 | The stack is never empty at a close bracket and holds its own kind on top: every close bracket is paired with its open bracket, and every open bracket is paired. |
| `Folding.LastWithin` | cambra-lsp/src/document.rs:69-78 | The binary search and backward scan find the last non-layout token starting in the span, or that there is none. |
| `Folding.ContentEnd` | cambra-lsp/src/document.rs:68-89 | The end of the span's last token, extended over the rest of its line up to a comment or the span's end, trailing spaces trimmed; the span's start when it holds no token. |
| `Folding.SourceToOnce` | cambra-lsp/src/document.rs:79-88 | That end is unique. |
| `Folding.HeaderEnd` | cambra-lsp/src/folding.rs:93-104 | The binary search and backward scan find the last non-layout token before the body, or that there is none. |
| `Folding.FirstBreak` | cambra-lsp/src/folding.rs:113-122 | The binary search and forward scan find the first newline token at or after the statement's start, or that there is none. |
| `Comprehension.EncodingWalks` | src/ccl/comprehension.rs:248-369 | At every key the encoding denotes the element the interpreter's clause walk collected there, or nothing where it collected none. |
| `Comprehension.CurriedMeans` | src/ccl/comprehension.rs:410-472 | Several generators: curried levels under `uncurry` with all guards as one filter nest read at the key. |
| `Comprehension.OneMeans` | src/ccl/comprehension.rs:248-369 | One generator, keyed by position alone. |
| `Comprehension.NestMeans` | src/ccl/comprehension.rs:484-516 | A nest read at a tuple of positions is the body at the bindings those positions give, later sources depending on earlier ones. |
| `Comprehension.SurvivorAtEnd` | src/ccl/comprehension.rs:410-472 | Testing each guard where it stands is testing all of them at the end. |
| `Comprehension.WalkFinds` | chl-interp/src/eval.rs:3384-3442 | What the walk collects at a tuple of positions. |
| `Comprehension.WalkDistinct` | chl-interp/src/eval.rs:3384-3442 | The walk collects at most one entry per key. |
| `Comprehension.FlattenedNest` | src/ccl/comprehension.rs:484-516 | The loop that builds a nest from the last generator out. |
| `Comprehension.ConjoinGuards` | src/ccl/comprehension.rs:432-447 | The loop that conjoins the guards. |
| `Comprehension.EncodeSeveral` | src/ccl/comprehension.rs:410-472 | The loop-built encoding is the one the theorem is about. |
| `Printer.PrintedReads` | src/ccl/chl_print.rs:498-613 | Every printed term is a text of the language's own operator grammar (the rows of its parser, chl-parser/src/parser.rs:852-1050), and reads as the term with negative literals as negations, concatenations as additions, and the minus of a negative base outside its power. |
| `Printer.RoundTrip` | src/ccl/chl_print.rs:498-613 | Reading back gives the term itself if and only if it has no negative literal and no `Concat`. |
| `Printer.MeaningKept` | src/ccl/chl_print.rs:498-613 | Reading back gives the term up to those spellings if and only if no `**` has a negative literal as its base. |
| `Printer.NegativeBase` | src/ccl/chl_print.rs:509-509 | `(-2) ** 2` is printed as `-2 ** 2`, which is `-(2 ** 2)`: the printer takes a negative literal for an atom. |
| `Printer.PrintReads` | src/ccl/chl_print.rs:498-505 | At any level and before any tokens that do not continue it, a printed term reads so and leaves the rest. |
| `Printer.SpineReads` | src/ccl/chl_print.rs:711-748 | Left-grouping operators: after the first operand the reader holds it and goes on. |
| `Printer.PowReads` | src/ccl/chl_print.rs:733-748 | `**` groups to the right, and the minus of a negative base stays outside. |
| `Printer.CompareReads` | src/ccl/chl_print.rs:733-748 | Comparisons do not chain. |
| `Printer.TernaryReads` | src/ccl/chl_print.rs:596-610 | The conditional. |
| `LineIndex.LinesTile` | chl-parser/src/line_index.rs:42-74 | Lines tile the text: each ends before its terminator and the next starts after it. |
| `LineIndex.New` | chl-parser/src/line_index.rs:42-74 | The loop records the start and content end of every line. |
| `LineIndex.LineColOf` | chl-parser/src/line_index.rs:92-107 | The line that holds an offset and the byte column, an offset inside a terminator at the content end. |
| `LineIndex.LineColIn` | chl-parser/src/line_index.rs:133-150 | The same in either encoding, at every character boundary. |
| `LineIndex.OffsetOf` | chl-parser/src/line_index.rs:110-128 | The greatest boundary of the line within the column. |
| `LineIndex.OffsetIn` | chl-parser/src/line_index.rs:155-174 | The greatest character boundary of the line whose width in the encoding is at most the column. |
| `LineIndex.WidthExact` | chl-parser/src/line_index.rs:155-174 | A character's width is the least number of UTF-8 bytes or UTF-16 units that decode to it. |
| `LineIndex.GreatestUnique` | chl-parser/src/line_index.rs:155-174 | There is one such boundary. |
| `LineIndex.PositionNames` | chl-parser/src/line_index.rs:133-174 | A boundary's position names that boundary again, except between `\r` and `\n`, where it names the content end. |
| `LineIndex.AsciiNames` | chl-parser/src/line_index.rs:133-174 | In ASCII text both encodings name the same offsets, so the fast path is the general one. |
| `Documents.Open` | cambra-lsp/src/document.rs:27-36 | A new document's index is that of its text and its caches are empty. |
| `Documents.Apply` | cambra-lsp/src/document.rs:93-111 | An edit replaces the range its two positions name, drops the caches and rebuilds the index; a reversed range is refused and changes nothing. |
| `Documents.ApplyAll` | cambra-lsp/src/server.rs:232-237 | The edits of one change in order, the refused ones skipped. |
| `Documents.Parse` | cambra-lsp/src/document.rs:51-55 | The parse answered is that of the current text. |
| `Documents.Lex` | cambra-lsp/src/document.rs:57-63 | The tokens answered are those of the current text. |
| `Documents.NamesOne` | cambra-lsp/src/document.rs:120-130 | A position names one offset. |
| `Server.SessionSound` | cambra-lsp/src/server.rs:112-258 | Over any run of batches without `exit`: every request is answered once, in order; each document is the replay of its own accepted edits; its last publication describes it as it is, or nothing was published and it is as it was. |
| `Server.OneAnswerEach` | cambra-lsp/src/server.rs:116-198 | Every request before an `exit` gets exactly one answer, in order, cancelled ones included. |
| `Server.AnswersAreDue` | cambra-lsp/src/server.rs:160-198 | Each request's result: cancelled if the batch cancels it, refused after a shutdown that was not cancelled, an error for bad parameters or an unknown method, and otherwise what is read of the replay of the document's messages before it. |
| `Server.LastDescribes` | cambra-lsp/src/server.rs:116-158 | The last publication of every document opened, changed or closed in a batch describes it at the end of the batch. |
| `Server.BatchUntouched` | cambra-lsp/src/server.rs:199-258 | A document a batch does not touch stays as it was, and nothing is published of it. |
| `Server.DocumentReplayed` | cambra-lsp/src/server.rs:199-258 | A document's text and version are the replay of the messages that name it. |
| `Server.LanguageServer.constructor` | cambra-lsp/src/server.rs:103-110 | No documents. Session and messages sent are those of the session semantics, and no index or cache is stale. |
| `Server.LanguageServer.Batch` | cambra-lsp/src/server.rs:116-158 | A batch of messages, stopping at `exit`. Session and messages sent are those of the session semantics, and no index or cache is stale. |
| `Server.LanguageServer.AnswerRequest` | cambra-lsp/src/server.rs:160-197 | One request. Session and messages sent are those of the session semantics, and no index or cache is stale. |
| `Server.LanguageServer.TakeNote` | cambra-lsp/src/server.rs:199-258 | One notification. Session and messages sent are those of the session semantics, and no index or cache is stale. |
| `Server.LanguageServer.ChangeDocument` | cambra-lsp/src/server.rs:225-245 | The edits of one change. Session and messages sent are those of the session semantics, and no index or cache is stale. |
| `Server.LanguageServer.PublishAll` | cambra-lsp/src/server.rs:150-156 | The publications at the end of a batch. Session and messages sent are those of the session semantics, and no index or cache is stale. |
| `Server.LanguageServer.ReadParse` | cambra-lsp/src/server.rs:173-181 | A read through the parse cache. Session and messages sent are those of the session semantics, and no index or cache is stale. |
| `Server.LanguageServer.ReadTokens` | cambra-lsp/src/server.rs:182-191 | A read through the token cache. Session and messages sent are those of the session semantics, and no index or cache is stale. |
| `Server.Mark` | cambra-lsp/src/server.rs:327-331 | The listed documents stay, in place; the marked one is listed, and none is listed twice. |
| `Server.Drop` | cambra-lsp/src/server.rs:250-253 | Every listing of a closed document goes, and no other. |
| `BranchTable.LiveProgram.constructor` | src/live_program.rs:529-559 | One branch, `main`, at version 1, not yet notified. The table stays sound: non-empty, names unique and disjoint from tombstones, versions per name strictly increasing, no sink consumer in two entries. |
| `BranchTable.LiveProgram.IndexOf` | src/live_program.rs:562-567 | The entry of a name, or none when no entry has it. The table stays sound: non-empty, names unique and disjoint from tombstones, versions per name strictly increasing, no sink consumer in two entries. |
| `BranchTable.LiveProgram.Reload` | src/live_program.rs:909-985 | Unknown exactly for a name the table does not hold, refused exactly when it holds the name and the program does not compile; otherwise the next version under the name, above every one it has had, replaces the entry, notified and unfinished. A refusal changes nothing. The table stays sound: non-empty, names unique and disjoint from tombstones, versions per name strictly increasing, no sink consumer in two entries. |
| `BranchTable.LiveProgram.CreateBranch` | src/live_program.rs:989-1070 | Refused exactly for a name that is no branch name or is taken, or a program that does not compile; unknown exactly for a parent the table does not hold; otherwise a new entry that names its parent and the parent's version, its own version following the name's tombstone and above every one the name has had. The table stays sound: non-empty, names unique and disjoint from tombstones, versions per name strictly increasing, no sink consumer in two entries. |
| `BranchTable.LiveProgram.DeleteBranch` | src/live_program.rs:1075-1095 | Unknown exactly for a name the table does not hold, refused exactly for the last branch; otherwise the entry becomes a tombstone. The table stays sound: non-empty, names unique and disjoint from tombstones, versions per name strictly increasing, no sink consumer in two entries. |
| `BranchTable.LiveProgram.Notify` | src/live_program.rs:204-214 | A notification is recorded. The table stays sound: non-empty, names unique and disjoint from tombstones, versions per name strictly increasing, no sink consumer in two entries. |
| `BranchTable.LiveProgram.PullMains` | src/live_program.rs:594-613 | The pull loop, in creation order. The table stays sound: non-empty, names unique and disjoint from tombstones, versions per name strictly increasing, no sink consumer in two entries. |
| `BranchTable.LiveProgram.PullOne` | src/live_program.rs:599-611 | One turn: the notification is cleared before the pull. The table stays sound: non-empty, names unique and disjoint from tombstones, versions per name strictly increasing, no sink consumer in two entries. |
| `BranchTable.ReloadSound` | src/live_program.rs:909-985 | A reload keeps the table sound. |
| `BranchTable.CreateSound` | src/live_program.rs:989-1070 | A creation keeps the table sound, its version greater than every earlier one of the name. |
| `BranchTable.DeleteSound` | src/live_program.rs:1075-1095 | A deletion keeps the table sound. |
| `BranchTable.RecordRises` | src/live_program.rs:181-192 | The next version of a name is above every version it has had. |
| `BranchTable.NextIsNew` | src/live_program.rs:569-579 | In every sound table the version a reload or a creation would install is above every version the name has had, across deletes and re-creations. |
| `BranchTable.KeptNotifications` | src/live_program.rs:594-613 | After the pulls a branch is notified exactly if one arrived in its own turn or later, or it had no turn and was notified before or during. |
| `BranchTable.NotificationsAnswered` | src/live_program.rs:594-613 | A notification that arrives during or after a branch's pull makes it pullable again, unless its output finished. |

## Left out

- Trait dispatch, method calls, generators with `yield`, channels declared inside loops, calls or comprehensions, and the grouping and boxing builtins of the interpreter.
- Tuple and constructor patterns of loop and comprehension binders; a binder is a name. Declared orders of nominal types.
- Depth of calls: a step carries a bound on nested calls, and running out of it is a refusal; every theorem holds for every bound.
- Error texts: a failure is its kind and whether it left a speculative construct.
- Scopes of the interpreter are one chain of bindings, restored on leaving a scope; cells are numbered in order of making and dropped with the scope that made them, so a store that a closure keeps past its scope is not modelled.
- InterpPasses.PassesMonotone: assumes that the earlier pass lost no effect, and that the text is calm or the pass was not carried, because `InterpFailures.NotFinal` and `InterpExamples.CutShort` show the claim false without them. Calm text is a sufficient condition: which other programs have no carried pass is not characterized.
- InterpPasses.FailureIsFinal: excludes provisional failures and passes that lost an effect or were carried; single failures among those may still be final.
- InterpPasses.DriverAnswers: assumes calm text or a run without carried passes, because `InterpExamples.DriverMisled` shows the claim false otherwise; which carried runs still answer rightly is not characterized.
- `Mut` parameters in calm programs: a body that writes through one would have to be followed through every call that aliases it.
- ValuePairing.AgreementExact: that entries that sort alike are equal is a condition where keys or values hold records or collections, which sort by how they are shown; `PlainAgreement` needs none.
- Definition groups, comprehension nodes, refined casts and types in A-normalization; a run that goes wrong and one that exceeds its bound are both no result.
- AnfMeaning.MeaningPreserved: a closure's value is related to its normalized counterpart, not equal to it, since its body is normalized too.
- The character-level lexer: raw tokens are any ordered sequence of spans of the source. Filtering of detached tokens, and the sorting of lexical errors by position.
- Comprehension.EncodingWalks: sources, guards and the element are total and effect-free; types and shared predicate holes are not modelled.
- Names, literals' text, postfix forms and the `‹…›` fallbacks of the printer: it prints tokens. The grammar has the parser's rows (chl-parser/src/parser.rs:852-1050) that predicates use; a chain of comparisons is no term of it, and a flattened `and` or `or` is its left-grouping term.
- LineIndex.New: reads characters where the code reads bytes; an offset inside a character is modelled only in `LineColOf` and `OffsetOf`.
- Escapes in the display of strings, which equality of values does not see.
- Handshake, capabilities, symbols and diagnostics of the language server: an answer or publication is the text it was read from.
- Fold line numbers and comment folds, which only add arithmetic on line numbers. Positions in `Folding` are characters, and which characters are spaces is a parameter.
- Compilation, ports, routes, operator conversion and state takeover behind the branch table: a compile refuses or gives a program with new sink consumers. `poll_finished` and rendering.
- Aggregates, tiles, the type checker, the inspector, the HTTP control port and the web front end.
