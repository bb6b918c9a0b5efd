/** Which failures of a pass are the program's own. A pass that fails for good means that no later
    pass succeeds; for every other kind of failing pass there is a program that shows it does not. */
module InterpFailures {
  import opened Options
  import opened InterpSyntax
  import opened InterpValues
  import opened InterpEval
  import opened InterpBelow
  import opened InterpSteps
  import opened InterpPasses
  import IntArith
  import Calmness = InterpCalm

  // ----- Single steps -----

  function Only(s: Stmt): Stmts {
    MoreStmts(s, NoStmts)
  }

  lemma {:induction false} Sequence(s: Stmt, rest: Stmts, c: Ctx, st: State, fuel: nat)
    requires Exec(s, c, st, fuel).r == Ok(None)
    ensures ExecStmts(MoreStmts(s, rest), c, st, fuel)
         == ExecStmts(rest, c.In(Exec(s, c, st, fuel).env), Exec(s, c, st, fuel).st, fuel)
  {
    hide EvalRaw, ExecRaw;
  }

  lemma {:induction false} LastFails(s: Stmt, c: Ctx, st: State, fuel: nat)
    requires Exec(s, c, st, fuel).r.Err?
    ensures forall rest :: ExecStmts(MoreStmts(s, rest), c, st, fuel) == Exec(s, c, st, fuel)
  {
    hide EvalRaw, ExecRaw;
  }

  lemma {:induction false} LiteralStep(l: Lit, c: Ctx, st: State, fuel: nat)
    ensures Eval(Literal(l), c, st, fuel) == Out(Ok(LitValue(l)), st)
  {
    hide EvalAll, EvalChain, EvalBool, EvalCall, Comprehend, RunBranches, RunMatch, ReadName;
  }

  lemma {:induction false} NameStep(x: string, c: Ctx, st: State, fuel: nat)
    requires c.spec == 0 || ReadName(x, c, st).r.Ok?
    ensures Eval(Name(x), c, st, fuel) == ReadName(x, c, st)
  {
    hide ReadName, EvalAll, EvalChain, EvalBool, EvalCall, Comprehend, RunBranches, RunMatch;
  }

  /** `x <<= l` outside speculation. */
  lemma {:induction false} DefineStep(x: string, l: Lit, c: Ctx, st: State, fuel: nat)
    requires c.spec == 0
    ensures Exec(Define(x, Literal(l)), c, st, fuel) == DefineAs(x, LitValue(l), c, st)
  {
    hide Eval, DefineAs, RunBranches, RunMatch, ExecFor, ExecWith, BindingOf;
    LiteralStep(l, c, st, fuel);
  }

  /** `x := l` to a variable that is there. */
  lemma {:induction false} SetStep(x: string, loc: nat, l: Lit, c: Ctx, st: State, fuel: nat)
    requires Lookup(c.env, x) == Some(Mut(loc)) && loc < |st.cells| && !st.cells[loc].txn && st.txn.None?
             && st.watches == []
    ensures var v := if c.spec > 0 then Pending else LitValue(l);
            Exec(MutAssign(x, false, Literal(l)), c, st, fuel)
            == Done(Ok(None), st.(cells := st.cells[loc := st.cells[loc].(value := v)]), c.env)
  {
    hide Eval, RunBranches, RunMatch, ExecFor, ExecWith, BindingOf;
    LiteralStep(l, c, st, fuel);
    assert MarkWritten([], loc) == [];
  }

  /** `x := l` where there is no variable `x`. */
  lemma {:induction false} MakeStep(x: string, l: Lit, c: Ctx, st: State, fuel: nat)
    requires Lookup(c.env, x).None? && c.spec == 0
    ensures Exec(MutAssign(x, false, Literal(l)), c, st, fuel)
         == Done(Ok(None), st.(cells := st.cells + [Cell(x, LitValue(l), false, None)]),
             Bound(x, Mut(|st.cells|), c.env))
  {
    hide Eval, RunBranches, RunMatch, ExecFor, ExecWith, BindingOf;
    LiteralStep(l, c, st, fuel);
  }

  lemma {:induction false} BodyStep(s: Stmt, c: Ctx, st: State, fuel: nat)
    requires Exec(s, c, st, fuel).r == Ok(None) && |Exec(s, c, st, fuel).st.cells| == |st.cells|
    ensures RunBody(Only(s), Run, c, st, fuel) == Out(Ok(None), Exec(s, c, st, fuel).st)
  {
    hide EvalRaw, ExecRaw, BlockValue;
    Sequence(s, NoStmts, c, st, fuel);
    var t := Exec(s, c, st, fuel).st;
    assert t.cells[..|st.cells|] == t.cells;
  }

  /** `if x: body`, where `x` is pending, false, or true. */
  lemma {:induction false} IfStep(x: string, body: Stmts, c: Ctx, st: State, fuel: nat)
    requires ReadName(x, c, st).r.Ok? && (c.spec == 0 || c.spec > c.specAtCall) && c.specAtCall <= c.spec
    ensures var o, s := ReadName(x, c, st), If(Branch(Name(x), body, NoElse));
            && (o.r.value.Pending? ==>
                  Exec(s, c, st, fuel) == Done(Ok(None), RunBody(body, Run, c.Speculate(), o.st, fuel).st, c.env))
            && (o.r.value == Known(Bool(false)) ==> Exec(s, c, st, fuel) == Done(Ok(None), o.st, c.env))
            && (o.r.value == Known(Bool(true)) && RunBody(body, Run, c, o.st, fuel).r == Ok(None) ==>
                  Exec(s, c, st, fuel) == Done(Ok(None), RunBody(body, Run, c, o.st, fuel).st, c.env))
  {
    hide Eval, EvalRaw, ReadName, RunBody, RunMatch, ExecFor, ExecWith, BindingOf;
    NameStep(x, c, st, fuel);
    var bs := Branch(Name(x), body, NoElse);
    var o := ReadName(x, c, st);
    if o.r.value.Pending? {
      assert SpecBodies(NoElse, Run, c.Speculate(), RunBody(body, Run, c.Speculate(), o.st, fuel).st, fuel).r == Ok(());
      assert RunBranches(bs, Run, c, st, fuel) == Out(Ok(None), RunBody(body, Run, c.Speculate(), o.st, fuel).st);
    } else if o.r.value == Known(Bool(false)) {
      assert RunBranches(bs, Run, c, st, fuel) == RunBranches(NoElse, Run, c, o.st, fuel) == Out(Ok(None), o.st);
    } else if o.r.value == Known(Bool(true)) {
      assert RunBranches(bs, Run, c, st, fuel) == RunBody(body, Run, c, o.st, fuel);
    }
  }

  // ----- A division that fails -----

  function Divide(x: Expr): Expr {
    Strict(Binary(FloorDiv), MoreExprs(Literal(LitInt(1)), MoreExprs(x, NoExprs)))
  }

  lemma {:induction false} Divided(v: int)
    requires v == 0 || v == 1
    ensures Apply(Binary(FloorDiv), [Known(Int(1)), Known(Int(v))]) == if v == 0 then Err(Refused)
            else Ok(Known(Int(1)))
  {
    assert Decided([Known(Int(1)), Known(Int(v))]) == [Int(1), Int(v)];
    if v == 1 {
      var q := IntArith.FloorDiv(1, 1);
      IntArith.FloorFits(1, 1, 1);
      assert IntArith.IsFloor(1, 1, 1);
      assert q.Some?;
      IntArith.FloorUnique(1, 1, q.value, 1);
    }
  }

  lemma {:induction false} DivideStep(x: Expr, v: int, c: Ctx, st: State, fuel: nat)
    requires (v == 0 || v == 1) && Eval(x, c, st, fuel) == Out(Ok(Known(Int(v))), st)
    ensures EvalRaw(Divide(x), c, st, fuel) == Out(if v == 0 then Err(Refused) else Ok(Known(Int(1))), st)
  {
    hide Eval, EvalChain, EvalBool, EvalCall, Comprehend, RunBranches, RunMatch, ReadName, Apply;
    LiteralStep(LitInt(1), c, st, fuel);
    assert EvalAll(NoExprs, c, st, fuel) == Out(Ok([]), st);
    assert [Known(Int(v))] + [] == [Known(Int(v))];
    assert EvalAll(MoreExprs(x, NoExprs), c, st, fuel) == Out(Ok([Known(Int(v))] + []), st);
    assert [Known(Int(1))] + [Known(Int(v))] == [Known(Int(1)), Known(Int(v))];
    Divided(v);
  }

  const FAIL := Divide(Literal(LitInt(0)))

  lemma {:induction false} FailStep(c: Ctx, st: State, fuel: nat)
    ensures Eval(FAIL, c, st, fuel) == if c.spec > 0 then Out(Ok(Pending), st.(lost := true)) else Out(Err(Refused), st)
    ensures Exec(ExprStmt(FAIL), c, st, fuel)
         == if c.spec > 0 then Done(Ok(None), st.(lost := true), c.env) else Done(Err(Refused), st, c.env)
  {
    hide EvalRaw, RunBranches, RunMatch, ExecFor, ExecWith, BindingOf;
    LiteralStep(LitInt(0), c, st, fuel);
    DivideStep(Literal(LitInt(0)), 0, c, st, fuel);
  }

  // ----- The programs -----

  /** Calls one deep, and inside such a call. */
  const FUEL: nat := 1
  const SPENT: nat := 0

  const LIST := Coll([(Int(0), Int(1)), (Int(1), Int(2))])
  const LISTED := Channel([], Some(Known(LIST)), [])
  const LISTING := Strict(MkList, MoreExprs(Literal(LitInt(1)), MoreExprs(Literal(LitInt(2)), NoExprs)))
  const NO := Channel([], Some(Known(Bool(false))), [])

  /** `if b: 1 // 0` */
  const LOSE := If(Branch(Name("b"), Only(ExprStmt(FAIL)), NoElse))

  const FILL := MutAssign("z", false, Literal(LitInt(1)))
  const MARK := MutAssign("seen", false, Literal(LitBool(true)))
  const TURN := MoreStmts(If(Branch(Name("seen"), Only(FILL), NoElse)), Only(MARK))

  /** `for y in d: (if seen: z := 1); seen := true` */
  const LOOP := For("y", Name("d"), TURN)

  const GBODY := Only(Feed("c", Literal(LitInt(1)), 10))
  const CALLG := ExprStmt(Call("g", NoExprs, 20))
  const DEFINEC := Define("c", Literal(LitInt(1)))
  const LEAVE := If(Branch(Name("b"), Only(Pass), Else(Only(Return(Literal(LitInt(1)))))))
  const FBODY := MoreStmts(LEAVE, Only(ExprStmt(FAIL)))
  const CALLF := ExprStmt(Call("f", NoExprs, 30))
  const CHOICE := If(Branch(Name("b"), Only(Pass), Else(Only(ExprStmt(Literal(LitInt(1)))))))

  /** What fails in the first pass.
      `def g(): c << 1; if b: g(); c <<= 1`, whose `<<=` finds a site joined by a call that does not run.
      `x = (if b: pass else: 1)`, whose branch without a value does not run.
      `1 // z`, where `z` is 1 after the loop.
      `def f(): (if b: pass else: return 1); 1 // 0` and then `f()`, which returns before it divides. */
  function Tail(e: Error, carried: bool): Stmts {
    match e
    case FedAndDefined =>
      MoreStmts(FunctionDef("g", [], GBODY), MoreStmts(If(Branch(Name("b"), Only(CALLG), NoElse)), Only(DEFINEC)))
    case Escaped => Only(Assign("x", Block(CHOICE)))
    case Refused =>
      if carried then Only(ExprStmt(Divide(Name("z"))))
      else MoreStmts(FunctionDef("f", [], FBODY), Only(CALLF))
  }

  function Middle(e: Error, lost: bool, carried: bool): Stmts {
    var tail := Tail(e, carried);
    var more := if carried then MoreStmts(LOOP, tail) else tail;
    if lost then MoreStmts(LOSE, more) else more
  }

  /** `b <<= false; d <<= [1, 2]; seen := false; z := 0`, and then what loses, what is cut short, and
      what fails. */
  function Misjudged(e: Error, lost: bool, carried: bool): Program {
    Program(["b", "d", "c"], map[], {"c"},
      MoreStmts(Define("b", Literal(LitBool(false))),
      MoreStmts(Define("d", LISTING),
      MoreStmts(MutAssign("seen", false, Literal(LitBool(false))),
      MoreStmts(MutAssign("z", false, Literal(LitInt(0))), Middle(e, lost, carried))))))
  }

  const CHANNELS := Bound("c", Chan("c"), Bound("d", Chan("d"), Bound("b", Chan("b"), Empty)))
  const SCOPE := Bound("z", Mut(1), Bound("seen", Mut(0), CHANNELS))

  /** What a pass may read of `b` and `d`. */
  predicate Fitting(finals: Contents) {
    ("b" in finals ==> finals["b"] == Bool(false)) && ("d" in finals ==> finals["d"] == LIST)
  }

  function At(finals: Contents): Ctx {
    Ctx(SCOPE, finals, {}, 0, 0, [], [])
  }

  function Base(seen: Value, z: Value, waited: set<string>, lost: bool, carried: bool): State {
    State([Cell("seen", seen, false, None), Cell("z", z, false, None)], map["b" := NO, "d" := LISTED, "c" := FRESH],
          0, true, waited, lost, None, [], carried)
  }

  lemma {:induction false} Scopes()
    ensures Lookup(CHANNELS, "b") == Some(Chan("b")) && Lookup(CHANNELS, "d") == Some(Chan("d"))
            && Lookup(CHANNELS, "c") == Some(Chan("c"))
    ensures Lookup(CHANNELS, "seen").None? && Lookup(Bound("seen", Mut(0), CHANNELS), "z").None?
    ensures Lookup(SCOPE, "b") == Some(Chan("b")) && Lookup(SCOPE, "d") == Some(Chan("d"))
            && Lookup(SCOPE, "c") == Some(Chan("c"))
    ensures Lookup(SCOPE, "seen") == Some(Mut(0)) && Lookup(SCOPE, "z") == Some(Mut(1))
    ensures Lookup(SCOPE, "g").None? && Lookup(SCOPE, "f").None?
  {
    var d := Bound("d", Chan("d"), Bound("b", Chan("b"), Empty));
    assert Lookup(d, "b") == Some(Chan("b")) && Lookup(d, "seen").None? && Lookup(d, "z").None? && Lookup(d, "f").None?;
    assert Lookup(d, "g").None? && Lookup(CHANNELS, "z").None? && Lookup(CHANNELS, "g").None?
        && Lookup(CHANNELS, "f").None?;
    var seen := Bound("seen", Mut(0), CHANNELS);
    assert Lookup(seen, "b") == Lookup(CHANNELS, "b") && Lookup(seen, "d") == Lookup(CHANNELS, "d");
    assert Lookup(seen, "c") == Lookup(CHANNELS, "c") && Lookup(seen, "g").None? && Lookup(seen, "f").None?;
  }

  // ----- The list -----

  lemma {:induction false} ListEvaluates(c: Ctx, st: State, fuel: nat)
    ensures Eval(LISTING, c, st, fuel) == Out(Ok(Known(LIST)), st)
  {
    hide Eval, EvalChain, EvalBool, EvalCall, Comprehend, RunBranches, RunMatch, ReadName, Apply;
    ListOperands(c, st, fuel);
    ListApplies();
    assert EvalRaw(LISTING, c, st, fuel) == Out(Ok(Known(LIST)), st);
    Uncaught(LISTING, c, st, fuel);
  }

  lemma {:induction false} Uncaught(e: Expr, c: Ctx, st: State, fuel: nat)
    requires EvalRaw(e, c, st, fuel).r.Ok?
    ensures Eval(e, c, st, fuel) == EvalRaw(e, c, st, fuel)
  {
    hide EvalRaw;
  }

  lemma {:induction false} ListOperands(c: Ctx, st: State, fuel: nat)
    ensures EvalAll(LISTING.args, c, st, fuel) == Out(Ok([Known(Int(1)), Known(Int(2))]), st)
  {
    hide Eval, EvalRaw;
    LiteralStep(LitInt(1), c, st, fuel);
    LiteralStep(LitInt(2), c, st, fuel);
    assert EvalAll(NoExprs, c, st, fuel) == Out(Ok([]), st);
    assert EvalAll(LISTING.args.tail, c, st, fuel) == Out(Ok([Known(Int(2))] + []), st);
    assert [Known(Int(1))] + ([Known(Int(2))] + []) == [Known(Int(1)), Known(Int(2))];
  }

  lemma {:induction false} ListApplies()
    ensures Apply(MkList, [Known(Int(1)), Known(Int(2))]) == Ok(Known(LIST))
  {
    assert Decided([Known(Int(1)), Known(Int(2))]) == [Int(1), Int(2)];
    assert Enumerated([Int(1), Int(2)]) == LIST.entries;
  }

  lemma {:induction false} DefineValue(x: string, e: Expr, v: Value, c: Ctx, st: State, fuel: nat)
    requires c.spec == 0 && Eval(e, c, st, fuel) == Out(Ok(v), st)
    ensures Exec(Define(x, e), c, st, fuel) == DefineAs(x, v, c, st)
  {
    hide Eval, DefineAs, RunBranches, RunMatch, ExecFor, ExecWith, BindingOf;
  }

  // ----- Up to the statements that lose and are cut short -----

  lemma {:induction false} Start(e: Error, lost: bool, carried: bool, finals: Contents)
    ensures var p := Misjudged(e, lost, carried);
            && ChannelSet(p) == {"b", "d", "c"} && PassCtx(p, finals) == Ctx(CHANNELS, finals, {}, 0, 0, [], [])
            && InitialState(p) == State([], map["b" := FRESH, "d" := FRESH, "c" := FRESH], 0, true, {}, false, None,
                [], false)
  {
    var p := Misjudged(e, lost, carried);
    assert p.channels[0] == "b" && p.channels[1] == "d" && p.channels[2] == "c";
    assert ChannelSet(p) == {"b", "d", "c"};
    assert InitialState(p).chans == map["b" := FRESH, "d" := FRESH, "c" := FRESH];
    assert ["b", "d", "c"][..2] == ["b", "d"] && ["b", "d"][..1] == ["b"] && ["b"][..0] == [];
    assert InitialEnv(["b"]) == Bound("b", Chan("b"), InitialEnv([]));
    assert InitialEnv(["b", "d"]) == Bound("d", Chan("d"), InitialEnv(["b"]));
    assert InitialEnv(["b", "d", "c"]) == Bound("c", Chan("c"), InitialEnv(["b", "d"]));
    assert TextFed(p) == {};
  }

  lemma {:induction false} ChannelsMade(rest: Stmts, finals: Contents)
    ensures var c := Ctx(CHANNELS, finals, {}, 0, 0, [], []);
            ExecStmts(MoreStmts(Define("b", Literal(LitBool(false))), MoreStmts(Define("d", LISTING), rest)), c,
                      State([], map["b" := FRESH, "d" := FRESH, "c" := FRESH], 0, true, {}, false, None, [], false),
                          FUEL)
            == ExecStmts(rest, c, State([], Base(Pending, Pending, {}, false, false).chans, 0, true, {}, false, None,
                [], false), FUEL)
  {
    hide Eval, Exec, ExecStmts, Lookup;
    Scopes();
    var c := Ctx(CHANNELS, finals, {}, 0, 0, [], []);
    var s0 := State([], map["b" := FRESH, "d" := FRESH, "c" := FRESH], 0, true, {}, false, None, [], false);
    var s1 := s0.(chans := s0.chans["b" := NO]);
    DefineStep("b", LitBool(false), c, s0, FUEL);
    assert Exec(Define("b", Literal(LitBool(false))), c, s0, FUEL) == Done(Ok(None), s1, CHANNELS);
    Sequence(Define("b", Literal(LitBool(false))), MoreStmts(Define("d", LISTING), rest), c, s0, FUEL);
    ListEvaluates(c, s1, FUEL);
    DefineValue("d", LISTING, Known(LIST), c, s1, FUEL);
    Sequence(Define("d", LISTING), rest, c, s1, FUEL);
    assert s1.chans["d" := LISTED] == Base(Pending, Pending, {}, false, false).chans;
  }

  lemma {:induction false} VariablesMade(rest: Stmts, finals: Contents)
    ensures ExecStmts(MoreStmts(MutAssign("seen", false, Literal(LitBool(false))),
                      MoreStmts(MutAssign("z", false, Literal(LitInt(0))), rest)),
                      Ctx(CHANNELS, finals, {}, 0, 0, [], []),
                      State([], Base(Pending, Pending, {}, false, false).chans, 0, true, {}, false, None, [], false),
                          FUEL)
            == ExecStmts(rest, At(finals), Base(Known(Bool(false)), Known(Int(0)), {}, false, false), FUEL)
  {
    hide Eval, Exec, ExecStmts, Lookup;
    Scopes();
    var c := Ctx(CHANNELS, finals, {}, 0, 0, [], []);
    var s2 := State([], Base(Pending, Pending, {}, false, false).chans, 0, true, {}, false, None, [], false);
    var second := MutAssign("z", false, Literal(LitInt(0)));
    MakeStep("seen", LitBool(false), c, s2, FUEL);
    Sequence(MutAssign("seen", false, Literal(LitBool(false))), MoreStmts(second, rest), c, s2, FUEL);
    var c3 := c.In(Bound("seen", Mut(0), CHANNELS));
    var s3 := s2.(cells := [Cell("seen", Known(Bool(false)), false, None)]);
    assert s2.cells + [Cell("seen", Known(Bool(false)), false, None)] == s3.cells;
    MakeStep("z", LitInt(0), c3, s3, FUEL);
    Sequence(second, rest, c3, s3, FUEL);
    assert s3.cells + [Cell("z", Known(Int(0)), false, None)]
        == Base(Known(Bool(false)), Known(Int(0)), {}, false, false).cells;
  }

  lemma {:induction false} Head(e: Error, lost: bool, carried: bool, finals: Contents)
    ensures RunPass(Misjudged(e, lost, carried), finals, FUEL)
         == ExecStmts(Middle(e, lost, carried), At(finals), Base(Known(Bool(false)), Known(Int(0)), {}, false, false),
             FUEL)
  {
    hide Exec, ExecStmts, Lookup, Middle;
    var p := Misjudged(e, lost, carried);
    Start(e, lost, carried, finals);
    ChannelsMade(p.body.tail.tail, finals);
    VariablesMade(Middle(e, lost, carried), finals);
  }

  lemma {:induction false} LoseStep(finals: Contents, seen: Value, z: Value, waited: set<string>, lost: bool,
          carried: bool)
    requires Fitting(finals)
    ensures Exec(LOSE, At(finals), Base(seen, z, waited, lost, carried), FUEL)
         == Done(Ok(None), if "b" in finals then Base(seen, z, waited, lost, carried)
             else Base(seen, z, waited + {"b"}, true, carried), SCOPE)
  {
    hide Eval, Exec, RunBody, Lookup;
    Scopes();
    var c, st := At(finals), Base(seen, z, waited, lost, carried);
    IfStep("b", Only(ExprStmt(FAIL)), c, st, FUEL);
    if "b" !in finals {
      var st1 := Base(seen, z, waited + {"b"}, lost, carried);
      FailStep(c.Speculate(), st1, FUEL);
      BodyStep(ExprStmt(FAIL), c.Speculate(), st1, FUEL);
    }
  }

  // ----- The loop -----

  /** What `if seen: z := 1` and `seen := true` make of `z` and of `seen`. */
  function NextZ(seen: Value, z: Value, spec: nat): Value {
    if seen == Known(Bool(false)) then z else if seen.Pending? || spec > 0 then Pending else Known(Int(1))
  }

  function NextSeen(spec: nat): Value {
    if spec > 0 then Pending else Known(Bool(true))
  }

  lemma {:induction false} FillStep(c: Ctx, seen: Value, z: Value, waited: set<string>, lost: bool, carried: bool)
    requires Lookup(c.env, "z") == Some(Mut(1))
    ensures RunBody(Only(FILL), Run, c, Base(seen, z, waited, lost, carried), FUEL)
         == Out(Ok(None), Base(seen, if c.spec > 0 then Pending else Known(Int(1)), waited, lost, carried))
  {
    hide Eval, Exec, RunBody, Lookup;
    var st, v := Base(seen, z, waited, lost, carried), if c.spec > 0 then Pending else Known(Int(1));
    SetStep("z", 1, LitInt(1), c, st, FUEL);
    assert st.cells[1 := st.cells[1].(value := v)] == Base(seen, v, waited, lost, carried).cells;
    BodyStep(FILL, c, st, FUEL);
  }

  lemma {:induction false} FillIfSeen(c: Ctx, seen: Value, z: Value, waited: set<string>, lost: bool, carried: bool)
    requires Lookup(c.env, "seen") == Some(Mut(0)) && Lookup(c.env, "z") == Some(Mut(1))
    requires (c.spec == 0 || c.spec > c.specAtCall) && c.specAtCall <= c.spec
    requires seen.Pending? || seen.d.Bool?
    ensures Exec(TURN.head, c, Base(seen, z, waited, lost, carried), FUEL)
         == Done(Ok(None), Base(seen, NextZ(seen, z, c.spec), waited, lost, carried), c.env)
  {
    hide Eval, Exec, RunBody, Lookup;
    var st := Base(seen, z, waited, lost, carried);
    IfStep("seen", Only(FILL), c, st, FUEL);
    FillStep(c, seen, z, waited, lost, carried);
    FillStep(c.Speculate(), seen, z, waited, lost, carried);
  }

  lemma {:induction false} Turn(c: Ctx, seen: Value, z: Value, waited: set<string>, lost: bool, carried: bool)
    requires Lookup(c.env, "seen") == Some(Mut(0)) && Lookup(c.env, "z") == Some(Mut(1))
    requires (c.spec == 0 || c.spec > c.specAtCall) && c.specAtCall <= c.spec
    requires seen.Pending? || seen.d.Bool?
    ensures RunBody(TURN, Run, c, Base(seen, z, waited, lost, carried), FUEL)
         == Out(Ok(None), Base(NextSeen(c.spec), NextZ(seen, z, c.spec), waited, lost, carried))
  {
    hide EvalRaw, ExecRaw, BlockValue, Lookup, NextZ;
    var st := Base(seen, z, waited, lost, carried);
    var st1 := Base(seen, NextZ(seen, z, c.spec), waited, lost, carried);
    var st2 := Base(NextSeen(c.spec), NextZ(seen, z, c.spec), waited, lost, carried);
    FillIfSeen(c, seen, z, waited, lost, carried);
    Sequence(TURN.head, Only(MARK), c, st, FUEL);
    SetStep("seen", 0, LitBool(true), c, st1, FUEL);
    assert st1.cells[0 := st1.cells[0].(value := NextSeen(c.spec))] == st2.cells;
    Sequence(MARK, NoStmts, c, st1, FUEL);
    assert st2.cells[..2] == st2.cells;
  }

  /** A pending collection: the body runs once, and its run leaves more to do. */
  lemma {:induction false} PendingLoop(c: Ctx, waited: set<string>, lost: bool)
    requires c.env == SCOPE && c.spec == 0 && c.specAtCall == 0
    ensures LoopOver(Pending, LOOP, c, Base(Known(Bool(false)), Known(Int(0)), waited, lost, false), FUEL)
         == Out(Ok(None), Base(Pending, Known(Int(0)), waited, lost, true))
  {
    hide EvalRaw, ExecRaw, BlockValue, RunBody, Lookup;
    Scopes();
    var c' := PendingElement(c, "y");
    InY(Pending);
    Turn(c', Known(Bool(false)), Known(Int(0)), waited, lost, false);
    Turn(c', Pending, Known(Int(0)), waited, lost, false);
    var once, twice := Base(Pending, Known(Int(0)), waited, lost, false), Base(Pending, Pending, waited, lost, false);
    assert once.cells[1] != twice.cells[1];
  }

  lemma {:induction false} InY(v: Value)
    ensures var env := BindVar(SCOPE, "y", v); Lookup(env, "seen") == Some(Mut(0)) && Lookup(env, "z") == Some(Mut(1))
  {
    Scopes();
  }

  lemma {:induction false} ListSorted()
    ensures Positional(LIST.entries) && SortEntries(LIST.entries) == LIST.entries
  {
    var es := LIST.entries;
    assert es[1..] == [(Int(1), Int(2))] && es[1..][1..] == [];
    assert SortEntries(es[1..][1..]) == [] && SortEntries(es[1..]) == es[1..];
  }

  /** The collection once it is known: its second turn assigns `z`. */
  lemma {:induction false} TwoTurns(c: Ctx, waited: set<string>)
    requires c.env == SCOPE && c.spec == 0 && c.specAtCall == 0
    ensures ForLoop("y", LIST.entries, TURN, c, Base(Known(Bool(false)), Known(Int(0)), waited, false, false), FUEL)
         == Out(Ok(None), Base(Known(Bool(true)), Known(Int(1)), waited, false, false))
  {
    hide EvalRaw, ExecRaw, BlockValue, RunBody, Lookup;
    var es := LIST.entries;
    assert es[1..] == [(Int(1), Int(2))] && es[1..][1..] == [];
    InY(Known(Int(1)));
    InY(Known(Int(2)));
    var c0 := c.AtKey(Known(es[0].0)).In(BindVar(c.env, "y", Known(es[0].1)));
    var c1 := c.AtKey(Known(es[1].0)).In(BindVar(c.env, "y", Known(es[1].1)));
    Turn(c0, Known(Bool(false)), Known(Int(0)), waited, false, false);
    Turn(c1, Known(Bool(true)), Known(Int(0)), waited, false, false);
    var s1 := Base(Known(Bool(true)), Known(Int(0)), waited, false, false);
    var s2 := Base(Known(Bool(true)), Known(Int(1)), waited, false, false);
    assert ForLoop("y", es[1..][1..], TURN, c, s2, FUEL) == Out(Ok(None), s2);
    assert ForLoop("y", es[1..], TURN, c, s1, FUEL) == Out(Ok(None), s2);
  }

  lemma {:induction false} LoopStep(finals: Contents, waited: set<string>, lost: bool)
    requires Fitting(finals) && ("d" in finals ==> !lost)
    ensures Exec(LOOP, At(finals), Base(Known(Bool(false)), Known(Int(0)), waited, lost, false), FUEL)
         == Done(Ok(None), if "d" in finals then Base(Known(Bool(true)), Known(Int(1)), waited, false, false)
                           else Base(Pending, Known(Int(0)), waited + {"d"}, lost, true), SCOPE)
  {
    hide EvalRaw, LoopOver, RunBranches, RunMatch, ExecWith, BindingOf, Lookup;
    var c, st := At(finals), Base(Known(Bool(false)), Known(Int(0)), waited, lost, false);
    Scopes();
    NameStep("d", c, st, FUEL);
    if "d" in finals { KnownLoop(c, waited); } else { PendingLoop(c, waited + {"d"}, lost); }
  }

  lemma {:induction false} KnownLoop(c: Ctx, waited: set<string>)
    requires c.env == SCOPE && c.spec == 0 && c.specAtCall == 0
    ensures LoopOver(Known(LIST), LOOP, c, Base(Known(Bool(false)), Known(Int(0)), waited, false, false), FUEL)
         == Out(Ok(None), Base(Known(Bool(true)), Known(Int(1)), waited, false, false))
  {
    hide EvalRaw, ExecRaw, ForLoop;
    TwoTurns(c, waited);
    ListSorted();
  }

  /** What the first pass brings to the statements that fail. */
  lemma {:induction false} MiddleFirst(e: Error, lost: bool, carried: bool) returns (waited: set<string>)
    ensures ExecStmts(Middle(e, lost, carried), At(map[]), Base(Known(Bool(false)), Known(Int(0)), {}, false, false),
            FUEL)
         == ExecStmts(Tail(e, carried), At(map[]),
                      Base(if carried then Pending else Known(Bool(false)), Known(Int(0)), waited, lost, carried), FUEL)
  {
    hide EvalRaw, ExecRaw, ExecStmts, Tail;
    var c, st := At(map[]), Base(Known(Bool(false)), Known(Int(0)), {}, false, false);
    var more := if carried then MoreStmts(LOOP, Tail(e, carried)) else Tail(e, carried);
    waited := if lost then {} + {"b"} else {};
    if lost {
      LoseStep(map[], Known(Bool(false)), Known(Int(0)), {}, false, false);
      Sequence(LOSE, more, c, st, FUEL);
    }
    if carried {
      LoopStep(map[], waited, lost);
      Sequence(LOOP, Tail(e, carried), c, Base(Known(Bool(false)), Known(Int(0)), waited, lost, false), FUEL);
      waited := waited + {"d"};
    }
  }

  /** What a pass that reads `b` and `d` brings to them. */
  lemma {:induction false} MiddleLater(e: Error, lost: bool, carried: bool, finals: Contents)
    requires Fitting(finals) && "b" in finals && "d" in finals
    ensures ExecStmts(Middle(e, lost, carried), At(finals), Base(Known(Bool(false)), Known(Int(0)), {}, false, false),
            FUEL)
         == ExecStmts(Tail(e, carried), At(finals),
                      Base(Known(Bool(carried)), Known(Int(if carried then 1 else 0)), {}, false, false), FUEL)
  {
    hide EvalRaw, ExecRaw, ExecStmts, Tail;
    var c, st := At(finals), Base(Known(Bool(false)), Known(Int(0)), {}, false, false);
    var more := if carried then MoreStmts(LOOP, Tail(e, carried)) else Tail(e, carried);
    if lost {
      LoseStep(finals, Known(Bool(false)), Known(Int(0)), {}, false, false);
      Sequence(LOSE, more, c, st, FUEL);
    }
    if carried {
      LoopStep(finals, {}, false);
      Sequence(LOOP, Tail(e, carried), c, st, FUEL);
    }
  }

  // ----- The statements that fail -----

  lemma {:induction false} ExprStep(e: Expr, c: Ctx, st: State, fuel: nat)
    requires c.spec == 0 || Eval(e, c, st, fuel).r.Ok?
    ensures var o := Eval(e, c, st, fuel);
            Exec(ExprStmt(e), c, st, fuel) == Done(if o.r.Ok? then Ok(None) else Err(o.r.error), o.st, c.env)
  {
    hide EvalRaw, RunBranches, RunMatch, ExecFor, ExecWith, BindingOf;
  }

  function Captured(st: State): Env {
    Capture(SCOPE, st.cells)
  }

  lemma {:induction false} DefStep(x: string, body: Stmts, c: Ctx, st: State, fuel: nat)
    requires c.env == SCOPE
    ensures Exec(FunctionDef(x, [], body), c, st, fuel)
            == Done(Ok(None), st, Bound(x, Fn(Function([], body, Captured(st))), SCOPE))
  {
    hide Eval, RunBranches, RunMatch, ExecFor, ExecWith, BindingOf;
  }

  lemma {:induction false} CapturedScope(st: State)
    ensures Lookup(Captured(st), "b") == Some(Chan("b")) && Lookup(Captured(st), "c") == Some(Chan("c"))
  {
    Scopes();
    var d := Bound("d", Chan("d"), Bound("b", Chan("b"), Empty));
    assert Capture(Empty, st.cells) == Empty;
    assert Capture(Bound("b", Chan("b"), Empty), st.cells) == Bound("b", Chan("b"), Empty);
    assert Capture(d, st.cells) == d && Capture(CHANNELS, st.cells) == CHANNELS;
    var seen := Capture(Bound("seen", Mut(0), CHANNELS), st.cells);
    assert Lookup(seen, "b") == Lookup(CHANNELS, "b") && Lookup(seen, "c") == Lookup(CHANNELS, "c");
  }

  /** A call without arguments: the body runs where the function was defined. */
  lemma {:induction false} CallStep(f: string, at: nat, body: Stmts, env: Env, c: Ctx, st: State)
    requires Lookup(c.env, f) == Some(Fn(Function([], body, env)))
    ensures var c' := c.(calls := c.calls + [at]).In(env).(specAtCall := c.spec);
            var p := BlockValue(body, true, c', st, SPENT);
            c.spec == 0 || p.r.Ok? ==> Eval(Call(f, NoExprs, at), c, st, FUEL) == Out(p.r, Pop(p.st, |st.cells|))
  {
    hide ExecRaw, EvalAll, EvalChain, EvalBool, Comprehend, RunBranches, RunMatch, BlockValue, Lookup;
    var c1 := c.(calls := c.calls + [at]);
    assert BindArgs([], NoExprs, env, c1, st, FUEL) == Out(Ok(env), st);
    var p := BlockValue(body, true, c1.In(env).(specAtCall := c.spec), st, SPENT);
    assert EvalCall(Call(f, NoExprs, at), c1, st, FUEL) == Out(p.r, Pop(p.st, |st.cells|));
  }

  // ----- A feed that does not run refuses a definition -----

  lemma {:induction false} SitesAdded(sites: seq<Site>, s: Site)
    ensures AddSite(sites, s) != []
  {
    if s !in sites { assert |SortSites(sites + [s])| > 0; }
  }

  /** `g`'s body while it may not run: its feed joins the channel's sites. */
  lemma {:induction false} SpeculativeFeed(c: Ctx, st: State)
    requires Lookup(c.env, "c") == Some(Chan("c")) && c.spec > 0 && c.specAtCall == c.spec && st.txn.None?
    ensures var o := BlockValue(GBODY, true, c, st, SPENT);
            && o.r == Ok(Known(Unit)) && o.st.cells == st.cells
            && ChannelOf(o.st, "c").sites != [] && ChannelOf(o.st, "c").defined == ChannelOf(st, "c").defined
            && o.st.lost == st.lost && o.st.carried == st.carried
  {
    hide RunBranches, RunMatch, ExecFor, ExecWith, BindingOf, EvalRaw;
    var site := c.calls + [10];
    var st1 := FeedInto("c", site, Known(Int(1)), c, st);
    LiteralStep(LitInt(1), c, st, SPENT);
    assert Exec(Feed("c", Literal(LitInt(1)), 10), c, st, SPENT) == Done(Ok(None), st1, c.env);
    SitesAdded(ChannelOf(st, "c").sites, site);
  }

  lemma {:induction false} SpeculativeCall(env: Env, c: Ctx, st: State)
    requires Lookup(c.env, "g") == Some(Fn(Function([], GBODY, env))) && Lookup(env, "c") == Some(Chan("c"))
    requires c.spec > 0 && c.specAtCall == 0 && st.txn.None?
    ensures var o := RunBody(Only(CALLG), Run, c, st, FUEL);
            && o.r == Ok(None)
            && ChannelOf(o.st, "c").sites != [] && ChannelOf(o.st, "c").defined == ChannelOf(st, "c").defined
            && o.st.lost == st.lost && o.st.carried == st.carried
  {
    hide EvalRaw, ExecRaw, BlockValue, RunBody, Lookup;
    var c' := c.(calls := c.calls + [20]).In(env).(specAtCall := c.spec);
    SpeculativeFeed(c', st);
    CallStep("g", 20, GBODY, env, c, st);
    ExprStep(Call("g", NoExprs, 20), c, st, FUEL);
    BodyStep(CALLG, c, st, FUEL);
  }

  const HELD := Channel([], Some(Known(Int(1))), [])

  lemma {:induction false} FedTail(finals: Contents, st: State)
    requires st.txn.None? && ChannelOf(st, "c") == FRESH
    requires Fitting(finals)
    ensures var d := ExecStmts(Tail(FedAndDefined, true), At(finals), st, FUEL);
            if "b" in finals then d.r == Ok(None) && d.st == st.(chans := st.chans["c" := HELD])
            else d.r == Err(FedAndDefined) && d.st.lost == st.lost && d.st.carried == st.carried
  {
    hide EvalRaw, ExecRaw, BlockValue, RunBody, Lookup, ExecStmts;
    var c, tail := At(finals), Tail(FedAndDefined, true);
    var env := Bound("g", Fn(Function([], GBODY, Captured(st))), SCOPE);
    DefStep("g", GBODY, c, st, FUEL);
    Sequence(tail.head, tail.tail, c, st, FUEL);
    WithG(st);
    IfStep("b", Only(CALLG), c.In(env), st, FUEL);
    if "b" !in finals { SpeculativeCall(Captured(st), c.In(env).Speculate(), st.(waited := st.waited + {"b"})); }
    var st1 := Exec(tail.tail.head, c.In(env), st, FUEL).st;
    Sequence(tail.tail.head, tail.tail.tail, c.In(env), st, FUEL);
    DefineStep("c", LitInt(1), c.In(env), st1, FUEL);
    if "b" in finals {
      Sequence(DEFINEC, NoStmts, c.In(env), st1, FUEL);
      LastStep(c.In(env), Exec(DEFINEC, c.In(env), st1, FUEL).st);
    } else {
      LastFails(DEFINEC, c.In(env), st1, FUEL);
    }
  }

  lemma {:induction false} LastStep(c: Ctx, st: State)
    ensures ExecStmts(NoStmts, c, st, FUEL) == Done(Ok(None), st, c.env)
  {
    hide EvalRaw, ExecRaw;
  }

  lemma {:induction false} WithG(st: State)
    ensures var env := Bound("g", Fn(Function([], GBODY, Captured(st))), SCOPE);
            && Lookup(env, "b") == Some(Chan("b")) && Lookup(env, "c") == Some(Chan("c"))
            && Lookup(env, "g") == Some(Fn(Function([], GBODY, Captured(st))))
    ensures Lookup(Captured(st), "c") == Some(Chan("c"))
  {
    Scopes();
    CapturedScope(st);
  }

  // ----- A branch that does not run refuses the program -----

  lemma {:induction false} ChooseSpeculated(c: Ctx, st: State)
    requires c.spec > 0
    ensures var bs := CHOICE.branches;
            SpecConds(bs.rest, c, st, FUEL) == st && SpecBodies(bs, Denote(false), c, st, FUEL) == Out(Err(Refused), st)
  {
    hide EvalRaw, ExecRaw;
    assert BlockValue(CHOICE.branches.body, false, c, st, FUEL) == Out(Err(Refused), st);
  }

  lemma {:induction false} ChooseLast(c: Ctx, st: State)
    ensures RunBranches(CHOICE.branches.rest, Denote(false), c, st, FUEL) == Out(Ok(Some(Known(Int(1)))), st)
  {
    hide EvalRaw, ExecRaw;
    var body := CHOICE.branches.rest.body;
    LiteralStep(LitInt(1), c, st, FUEL);
    assert BlockValue(body, false, c, st, FUEL) == Out(Ok(Known(Int(1))), st);
    assert st.cells[..|st.cells|] == st.cells;
    assert RunBody(body, Denote(false), c, st, FUEL) == Out(Ok(Some(Known(Int(1)))), st);
  }

  lemma {:induction false} Chosen(c: Ctx, st: State)
    requires c.env == SCOPE && c.spec == 0 && Fitting(c.finals)
    ensures RunBranches(CHOICE.branches, Denote(false), c, st, FUEL)
         == if "b" in c.finals then Out(Ok(Some(Known(Int(1)))), st)
             else Out(Err(Escaped), st.(waited := st.waited + {"b"}))
  {
    hide EvalRaw, ExecRaw, RunBody, Lookup;
    Scopes();
    NameStep("b", c, st, FUEL);
    ChooseSpeculated(c.Speculate(), st.(waited := st.waited + {"b"}));
    ChooseLast(c, st);
  }

  lemma {:induction false} ChoiceValue(c: Ctx, st: State)
    requires c.env == SCOPE && c.spec == 0 && Fitting(c.finals)
    ensures Eval(Block(CHOICE), c, st, FUEL)
         == if "b" in c.finals then Out(Ok(Known(Int(1))), st) else Out(Err(Escaped), st.(waited := st.waited + {"b"}))
  {
    hide EvalAll, EvalChain, EvalBool, EvalCall, Comprehend, RunBranches, RunMatch, ReadName;
    Chosen(c, st);
  }

  lemma {:induction false} EscapedTail(finals: Contents, st: State)
    requires Fitting(finals)
    ensures var d := ExecStmts(Tail(Escaped, true), At(finals), st, FUEL);
            if "b" in finals then d.r == Ok(None) && d.st == st
            else d.r == Err(Escaped) && d.st.lost == st.lost && d.st.carried == st.carried
  {
    hide EvalRaw, RunBranches, RunMatch, ExecFor, ExecWith, Lookup;
    var c, s := At(finals), Assign("x", Block(CHOICE));
    ChoiceValue(c, st);
    if "b" in finals {
      assert Exec(s, c, st, FUEL) == Done(Ok(None), st, Bound("x", Val(Known(Int(1))), SCOPE));
      Sequence(s, NoStmts, c, st, FUEL);
    } else {
      assert Exec(s, c, st, FUEL) == Done(Err(Escaped), st.(waited := st.waited + {"b"}), SCOPE);
      LastFails(s, c, st, FUEL);
    }
  }

  // ----- A division by what a turn that did not run assigns -----

  lemma {:induction false} DividedTail(finals: Contents, seen: Value, z: int, waited: set<string>, lost: bool,
          carried: bool)
    requires z == 0 || z == 1
    ensures var st := Base(seen, Known(Int(z)), waited, lost, carried);
            ExecStmts(Tail(Refused, true), At(finals), st, FUEL)
                == Done(if z == 0 then Err(Refused) else Ok(None), st, SCOPE)
  {
    hide EvalRaw, ExecRaw, ExecStmts, Lookup;
    var c, st := At(finals), Base(seen, Known(Int(z)), waited, lost, carried);
    Scopes();
    NameStep("z", c, st, FUEL);
    DivideStep(Name("z"), z, c, st, FUEL);
    EvalOutside(Divide(Name("z")), c, st);
    ExprStep(Divide(Name("z")), c, st, FUEL);
    if z == 0 {
      LastFails(ExprStmt(Divide(Name("z"))), c, st, FUEL);
    } else {
      Sequence(ExprStmt(Divide(Name("z"))), NoStmts, c, st, FUEL);
      LastStep(c, st);
    }
  }

  lemma {:induction false} EvalOutside(e: Expr, c: Ctx, st: State)
    requires c.spec == 0
    ensures Eval(e, c, st, FUEL) == EvalRaw(e, c, st, FUEL)
  {
    hide EvalRaw;
  }

  // ----- A failure after a `return` that is not taken -----

  lemma {:induction false} ReturnLost(c: Ctx, st: State)
    requires c.spec > c.specAtCall
    ensures RunBody(Only(Return(Literal(LitInt(1)))), Run, c, st, SPENT) == Out(Ok(None), st.(lost := true))
  {
    hide EvalRaw, RunBranches, RunMatch, ExecFor, ExecWith, BindingOf, BlockValue;
    var s := Return(Literal(LitInt(1)));
    LiteralStep(LitInt(1), c, st, SPENT);
    assert Exec(s, c, st, SPENT) == Done(Ok(None), st.(lost := true), c.env);
    BodyStep(s, c, st, SPENT);
  }

  lemma {:induction false} PassStep(c: Ctx, st: State)
    ensures RunBody(Only(Pass), Run, c, st, SPENT) == Out(Ok(None), st)
  {
    hide EvalRaw, RunBranches, RunMatch, ExecFor, ExecWith, BindingOf, BlockValue;
    assert Exec(Pass, c, st, SPENT) == Done(Ok(None), st, c.env);
    BodyStep(Pass, c, st, SPENT);
  }

  lemma {:induction false} Returned(c: Ctx, st: State)
    requires c.spec == 0
    ensures RunBody(Only(Return(Literal(LitInt(1)))), Run, c, st, SPENT) == Out(Ok(Some(Known(Int(1)))), st)
  {
    hide EvalRaw, RunBranches, RunMatch, ExecFor, ExecWith, BindingOf, BlockValue;
    LiteralStep(LitInt(1), c, st, SPENT);
    assert st.cells[..|st.cells|] == st.cells;
  }

  lemma {:induction false} LeaveBranches(c: Ctx, st: State)
    requires Lookup(c.env, "b") == Some(Chan("b")) && c.spec == 0 && c.specAtCall == 0
    requires Fitting(c.finals)
    ensures RunBranches(LEAVE.branches, Run, c, st, SPENT)
         == if "b" in c.finals then Out(Ok(Some(Known(Int(1)))), st)
            else Out(Ok(None), st.(waited := st.waited + {"b"}, lost := true))
  {
    hide EvalRaw, ExecRaw, RunBody, Lookup;
    NameStep("b", c, st, SPENT);
    var bs := LEAVE.branches;
    if "b" in c.finals {
      Returned(c, st);
      assert RunBranches(bs.rest, Run, c, st, SPENT) == Out(Ok(Some(Known(Int(1)))), st);
    } else {
      var st1 := st.(waited := st.waited + {"b"});
      PassStep(c.Speculate(), st1);
      ReturnLost(c.Speculate(), st1);
      assert SpecBodies(bs.rest, Run, c.Speculate(), st1, SPENT) == Out(Ok(()), st1.(lost := true));
      assert SpecBodies(bs, Run, c.Speculate(), st1, SPENT) == Out(Ok(()), st1.(lost := true));
    }
  }

  lemma {:induction false} LeaveStep(c: Ctx, st: State)
    requires Lookup(c.env, "b") == Some(Chan("b")) && c.spec == 0 && c.specAtCall == 0
    requires Fitting(c.finals)
    ensures Exec(LEAVE, c, st, SPENT)
         == if "b" in c.finals then Done(Ok(Some(Known(Int(1)))), st, c.env)
            else Done(Ok(None), st.(waited := st.waited + {"b"}, lost := true), c.env)
  {
    hide Eval, RunBranches, RunMatch, ExecFor, ExecWith, BindingOf;
    LeaveBranches(c, st);
  }

  lemma {:induction false} FBodyValue(c: Ctx, st: State)
    requires Lookup(c.env, "b") == Some(Chan("b")) && c.spec == 0 && c.specAtCall == 0
    requires Fitting(c.finals)
    ensures BlockValue(FBODY, true, c, st, SPENT)
         == if "b" in c.finals then Out(Ok(Known(Int(1))), st)
            else Out(Err(Refused), st.(waited := st.waited + {"b"}, lost := true))
  {
    hide EvalRaw, ExecRaw;
    LeaveStep(c, st);
    if "b" !in c.finals { FailStep(c, st.(waited := st.waited + {"b"}, lost := true), SPENT); }
  }

  lemma {:induction false} ReturnTail(finals: Contents, st: State)
    requires Fitting(finals)
    ensures var d := ExecStmts(Tail(Refused, false), At(finals), st, FUEL);
            if "b" in finals then d.r == Ok(None) && d.st == st
            else d.r == Err(Refused) && d.st.lost && d.st.carried == st.carried
  {
    hide EvalRaw, ExecRaw, BlockValue, RunBody, Lookup, ExecStmts;
    var c, tail := At(finals), Tail(Refused, false);
    var f := Function([], FBODY, Captured(st));
    var env := Bound("f", Fn(f), SCOPE);
    DefStep("f", FBODY, c, st, FUEL);
    Sequence(tail.head, tail.tail, c, st, FUEL);
    assert Lookup(env, "f") == Some(Fn(f)) by { FirstBound("f", Fn(f)); }
    CapturedScope(st);
    var c1 := c.In(env);
    FBodyValue(c1.(calls := c1.calls + [30]).In(Captured(st)).(specAtCall := c1.spec), st);
    CallStep("f", 30, FBODY, Captured(st), c1, st);
    ExprStep(Call("f", NoExprs, 30), c1, st, FUEL);
    if "b" in finals {
      assert st.cells[..|st.cells|] == st.cells;
      Sequence(CALLF, NoStmts, c1, st, FUEL);
      LastStep(c1, st);
    } else {
      LastFails(CALLF, c1, st, FUEL);
    }
  }

  lemma {:induction false} FirstBound(x: string, s: Slot)
    ensures forall env :: Lookup(Bound(x, s, env), x) == Some(s)
  {}

  // ----- Which failing passes are final -----

  /** What a failing pass shows of itself: its kind, whether it lost effects, and whether it cut a
      loop over a pending collection short. */
  predicate Final(e: Error, lost: bool, carried: bool) {
    e == Refused && !lost && !carried
  }

  function Answered(e: Error): Contents {
    map["b" := Bool(false), "d" := LIST, "c" := if e == FedAndDefined then Int(1) else Coll([])]
  }

  lemma {:induction false} FailsFirst(e: Error, lost: bool, carried: bool)
    requires !Final(e, lost, carried)
    ensures var d := RunPass(Misjudged(e, lost, carried), map[], FUEL);
            d.r == Err(e) && d.st.lost == lost && d.st.carried == carried
  {
    hide EvalRaw, ExecRaw, ExecStmts;
    Head(e, lost, carried, map[]);
    var waited := MiddleFirst(e, lost, carried);
    var seen := if carried then Pending else Known(Bool(false));
    var st := Base(seen, Known(Int(0)), waited, lost, carried);
    match e
    case FedAndDefined => FedTail(map[], st);
    case Escaped => EscapedTail(map[], st);
    case Refused => if carried { DividedTail(map[], seen, 0, waited, lost, carried); } else { ReturnTail(map[], st); }
  }

  lemma {:induction false} RunsLater(e: Error, lost: bool, carried: bool)
    ensures var d := RunPass(Misjudged(e, lost, carried), Answered(e), FUEL);
            && d.r == Ok(None) && d.st.waited == {}
            && d.st.chans == map["b" := NO, "d" := LISTED, "c" := if e == FedAndDefined then HELD else FRESH]
  {
    hide EvalRaw, ExecRaw, ExecStmts;
    var x := Answered(e);
    Head(e, lost, carried, x);
    MiddleLater(e, lost, carried, x);
    var seen, z := Known(Bool(carried)), if carried then 1 else 0;
    var st := Base(seen, Known(Int(z)), {}, false, false);
    match e
    case FedAndDefined =>
      FedTail(x, st);
      assert st.chans["c" := HELD] == map["b" := NO, "d" := LISTED, "c" := HELD];
    case Escaped => EscapedTail(x, st);
    case Refused => if carried { DividedTail(x, seen, z, {}, false, false); } else { ReturnTail(x, st); }
  }

  lemma {:induction false} ContentsHeld()
    ensures Complete(FRESH) == Some(Ok(Coll([]))) && Complete(NO) == Some(Ok(Bool(false)))
    ensures Complete(LISTED) == Some(Ok(LIST)) && Complete(HELD) == Some(Ok(Int(1)))
  {
    assert Entries(FRESH) == [];
  }

  /** For every failing pass of another kind there is a program whose first pass fails so, although
      the program runs to its end from contents it rebuilds; the driver reports the failure. */
  lemma {:induction false} NotFinal(e: Error, lost: bool, carried: bool)
    requires !Final(e, lost, carried)
    ensures var d := RunPass(Misjudged(e, lost, carried), map[], FUEL);
            d.r == Err(e) && d.st.lost == lost && d.st.carried == carried
    ensures SelfConsistent(Misjudged(e, lost, carried), Answered(e), FUEL)
    ensures RunFrom(Misjudged(e, lost, carried), map[], FUEL) == Failed(e)
  {
    hide EvalRaw, ExecRaw, ExecStmts, RunPass, Complete;
    var p := Misjudged(e, lost, carried);
    FailsFirst(e, lost, carried);
    RunsLater(e, lost, carried);
    Start(e, lost, carried, map[]);
    ContentsHeld();
    assert Built(p, RunPass(p, Answered(e), FUEL).st) == Answered(e);
  }

  /** A failing pass that shows `e`, `lost` and `carried` means that no later pass succeeds, whatever
      the program. */
  ghost predicate AlwaysFinal(e: Error, lost: bool, carried: bool) {
    forall p: Program, f1: Contents, f2: Contents, fuel: nat ::
      && FinalsBelow(f1, f2) && RunPass(p, f1, fuel).r == Err(e)
      && RunPass(p, f1, fuel).st.lost == lost && RunPass(p, f1, fuel).st.carried == carried
      ==> RunPass(p, f2, fuel).r.Err? || RunPass(p, f2, fuel).st.lost
  }

  /** A failing pass is the program's own exactly when it lost nothing, cut no loop short, and failed
      outside speculation for another reason than a site that a call joined. */
  lemma {:induction false} FinalKinds(e: Error, lost: bool, carried: bool)
    ensures AlwaysFinal(e, lost, carried) <==> Final(e, lost, carried)
  {
    hide EvalRaw, ExecRaw, SelfConsistent;
    if Final(e, lost, carried) {
      forall p: Program, f1: Contents, f2: Contents, fuel: nat
        | && FinalsBelow(f1, f2) && RunPass(p, f1, fuel).r == Err(e)
          && RunPass(p, f1, fuel).st.lost == lost && RunPass(p, f1, fuel).st.carried == carried
        ensures RunPass(p, f2, fuel).r.Err? || RunPass(p, f2, fuel).st.lost
      {
        FailureIsFinal(p, f1, f2, fuel);
      }
    } else {
      NotFinal(e, lost, carried);
      RunsLater(e, lost, carried);
      QuietPass(Misjudged(e, lost, carried), Answered(e), Answered(e), FUEL);
      assert FinalsBelow(map[], Answered(e));
    }
  }

  // ----- Calm programs -----

  lemma {:induction false} ListingParts()
    ensures Calmness.PartsInExpr(LISTING) == {} && Calmness.PartsInExpr(FAIL) == {}
  {
    assert Calmness.PartsInExprs(LISTING.args.tail) == {} && Calmness.PartsInExprs(FAIL.args.tail) == {};
  }

  lemma {:induction false} TailParts(e: Error)
    ensures Calmness.PartsIn(Tail(e, false)) <= {Calmness.FunctionBody([], GBODY), Calmness.FunctionBody([], FBODY)}
  {
    ListingParts();
    match e
    case FedAndDefined =>
      var tail := Tail(e, false);
      assert Calmness.PartsIn(GBODY) == {} by { assert Calmness.PartsOf(GBODY.head) == {}; }
      assert Calmness.PartsIn(Only(CALLG)) == {} by { assert Calmness.PartsOf(CALLG) == {}; }
      assert Calmness.PartsOf(tail.tail.head) == {};
      assert Calmness.PartsOf(DEFINEC) == {};
      assert Calmness.PartsIn(tail.tail.tail) == {};
      assert Calmness.PartsIn(tail.tail) == {};
    case Escaped => ChoiceParts();
    case Refused =>
      var tail := Tail(e, false);
      assert Calmness.PartsIn(FBODY) == {} by { LeaveParts(); }
      assert Calmness.PartsOf(CALLF) == {};
      assert Calmness.PartsIn(tail.tail) == {};
  }

  lemma {:induction false} ChoiceParts()
    ensures Calmness.PartsIn(Tail(Escaped, false)) == {}
  {
    var one := Only(ExprStmt(Literal(LitInt(1))));
    assert Calmness.PartsIn(one) == {} && Calmness.PartsIn(Only(Pass)) == {};
    assert Calmness.PartsInBranches(CHOICE.branches.rest) == {};
    assert Calmness.PartsOf(CHOICE) == {};
    assert Calmness.PartsOf(Assign("x", Block(CHOICE))) == {};
  }

  lemma {:induction false} LeaveParts()
    ensures Calmness.PartsIn(FBODY) == {}
  {
    ListingParts();
    assert Calmness.PartsIn(Only(Return(Literal(LitInt(1))))) == {} && Calmness.PartsIn(Only(Pass)) == {};
    assert Calmness.PartsInBranches(LEAVE.branches.rest) == {};
    assert Calmness.PartsOf(LEAVE) == {};
    assert Calmness.PartsIn(FBODY.tail) == {} by { assert Calmness.PartsOf(ExprStmt(FAIL)) == {}; }
  }

  /** A program of the family that has no loop is calm. */
  lemma {:induction false} MisjudgedCalm(e: Error, lost: bool)
    ensures Calm(Misjudged(e, lost, false))
  {
    hide Tail, Calmness.PartsInExpr;
    var ss := Misjudged(e, lost, false).body;
    ListingParts();
    TailParts(e);
    LoseParts();
    assert Calmness.PartsIn(Middle(e, lost, false)) == Calmness.PartsIn(Tail(e, false));
    LiteralParts();
    assert Calmness.PartsIn(ss.tail.tail.tail) == Calmness.PartsIn(Tail(e, false));
    assert Calmness.PartsIn(ss.tail.tail) == Calmness.PartsIn(Tail(e, false));
    assert Calmness.PartsIn(ss.tail) == Calmness.PartsIn(Tail(e, false));
    assert Calmness.PartsIn(ss) == Calmness.PartsIn(Tail(e, false));
  }

  lemma {:induction false} LoseParts()
    ensures Calmness.PartsOf(LOSE) == {}
  {
    ListingParts();
    assert Calmness.PartsOf(ExprStmt(FAIL)) == {};
    assert Calmness.PartsIn(Only(ExprStmt(FAIL))) == {};
  }

  lemma {:induction false} LiteralParts()
    ensures forall l :: Calmness.PartsInExpr(Literal(l)) == {}
  {}

  /** A failing pass of a calm program that shows `e` and `lost` means that no later pass succeeds. */
  ghost predicate AlwaysFinalCalm(e: Error, lost: bool) {
    forall p: Program, f1: Contents, f2: Contents, fuel: nat ::
      && Calm(p) && FinalsBelow(f1, f2) && RunPass(p, f1, fuel).r == Err(e) && RunPass(p, f1, fuel).st.lost == lost
      ==> RunPass(p, f2, fuel).r.Err? || RunPass(p, f2, fuel).st.lost
  }

  /** Where the program is calm, what the driver can see of a failing pass decides whether it is the
      program's own. */
  lemma {:induction false} CalmFinalKinds(e: Error, lost: bool)
    ensures AlwaysFinalCalm(e, lost) <==> e == Refused && !lost
  {
    hide EvalRaw, ExecRaw, SelfConsistent, Calm;
    if e == Refused && !lost {
      forall p: Program, f1: Contents, f2: Contents, fuel: nat
        | && Calm(p) && FinalsBelow(f1, f2) && RunPass(p, f1, fuel).r == Err(e)
          && RunPass(p, f1, fuel).st.lost == lost
        ensures RunPass(p, f2, fuel).r.Err? || RunPass(p, f2, fuel).st.lost
      {
        FailureIsFinal(p, f1, f2, fuel);
      }
    } else {
      NotFinal(e, lost, false);
      RunsLater(e, lost, false);
      MisjudgedCalm(e, lost);
      QuietPass(Misjudged(e, lost, false), Answered(e), Answered(e), FUEL);
      assert FinalsBelow(map[], Answered(e));
    }
  }
}
