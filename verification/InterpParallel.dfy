/** Two speculative runs of text that keeps a rule do the same: they decide alike, write the same
    variables and touch the same channels. */
module InterpParallel {
  import opened Options
  import opened InterpSyntax
  import opened InterpValues
  import opened InterpEval
  import opened InterpBelow
  import opened InterpSteps
  import opened InterpCalm
  import opened InterpTwins
  import opened InterpTwinSteps

  ghost predicate Ready(ca: Ctx, cb: Ctx, a: State, b: State, z: Zone, fn: bool) {
    ca.spec > 0 && cb == ca.In(cb.env) && Joint(ca.env, cb.env, a, b, z, fn)
  }

  /** The second run answers as the first does, unless that failed or lost something. */
  ghost predicate Alike<T>(oa: Out<T>, ob: Out<T>, a: State, b: State, z: Zone) {
    oa.st.lost || oa.r.Err? || (ob.r == oa.r && Firm(a, b, oa.st, ob.st, z))
  }

  /** The same of a value that is stored, which the second run may find pending. */
  ghost predicate AlikeData(oa: Out<Value>, ob: Out<Value>, a: State, b: State, z: Zone) {
    || oa.st.lost || oa.r.Err?
    || (ob.r.Ok? && Below(ob.r.value, oa.r.value) && Firm(a, b, oa.st, ob.st, z))
  }

  ghost predicate AlikeDatas(oa: Out<seq<Value>>, ob: Out<seq<Value>>, a: State, b: State, z: Zone) {
    || oa.st.lost || oa.r.Err?
    || (ob.r.Ok? && ValuesBelow(ob.r.value, oa.r.value) && Firm(a, b, oa.st, ob.st, z))
  }

  // ----- Expressions -----

  lemma {:induction false} EvalSame(e: Expr, ca: Ctx, cb: Ctx, a: State, b: State, z: Zone, fn: bool, fuel: nat)
    requires Ready(ca, cb, a, b, z, fn) && SteadyExpr(e, z.rule, fn) && PartsInExpr(e) <= z.parts
    ensures Alike(Eval(e, ca, a, fuel), Eval(e, cb, b, fuel), a, b, z)
    decreases fuel, e, 2
  {
    hide EvalRaw, Joint, Firm, SteadyExpr, PartsInExpr;
    EvalRawSame(e, ca, cb, a, b, z, fn, fuel);
  }

  lemma {:induction false} EvalRawSame(e: Expr, ca: Ctx, cb: Ctx, a: State, b: State, z: Zone, fn: bool, fuel: nat)
    requires Ready(ca, cb, a, b, z, fn) && SteadyExpr(e, z.rule, fn) && PartsInExpr(e) <= z.parts
    ensures Alike(EvalRaw(e, ca, a, fuel), EvalRaw(e, cb, b, fuel), a, b, z)
    decreases fuel, e, 1
  {
    hide Joint, Firm, Eval, EvalAll, EvalChain, EvalBool, EvalCall, Comprehend, RunBranches, RunMatch, ReadName, Apply,
        Lookup;
    match e
    case Literal(_) => SameRefl(ca.env, cb.env, a, b, z, fn);
    case Name(x) => ReadNameSame(x, ca, cb, a, b, z, fn);
    case Strict(_, args) => EvalAllSame(args, ca, cb, a, b, z, fn, fuel);
    case Compare(_, _) => CompareSame(e, ca, cb, a, b, z, fn, fuel);
    case BoolOp(conj, operands) => EvalBoolSame(conj, operands, ca, cb, a, b, z, fn, fuel);
    case IfExp(_, _, _) => EvalIfSame(e, ca, cb, a, b, z, fn, fuel);
    case Block(s) =>
      if s.If? { RunBranchesSame(s.branches, Denote(false), ca, cb, a, b, z, fn, fuel); }
      if s.Match? { RunMatchSame(s, Denote(false), ca, cb, a, b, z, fn, fuel); }
    case Call(_, _, at) => EvalCallSame(e, ca.(calls := ca.calls + [at]), cb.(calls := cb.calls + [at]), a, b, z, fn,
        fuel);
    case ListComp(comp) => ComprehendSame(comp, [], ca, cb, a, b, z, fn, fuel);
    case Lambda(_, _) =>
    case AwaitFinal(x) =>
      AwaitSame(x, ca, cb, a, b, z, fn, fuel);
      SameRefl(ca.env, cb.env, a, b, z, fn);
  }

  lemma {:induction false} CompareSame(e: Expr, ca: Ctx, cb: Ctx, a: State, b: State, z: Zone, fn: bool, fuel: nat)
    requires e.Compare? && Ready(ca, cb, a, b, z, fn) && SteadyExpr(e, z.rule, fn) && PartsInExpr(e) <= z.parts
    ensures Alike(EvalRaw(e, ca, a, fuel), EvalRaw(e, cb, b, fuel), a, b, z)
    decreases fuel, e, 0
  {
    hide Joint, Firm, Eval, EvalAll, EvalChain, EvalBool, EvalCall, Comprehend, RunBranches, RunMatch, ReadName, Apply,
        Lookup;
    EvalSame(e.first, ca, cb, a, b, z, fn, fuel);
    var oa, ob := Eval(e.first, ca, a, fuel), Eval(e.first, cb, b, fuel);
    if !oa.st.lost {
      Onward(ca.env, cb.env, a, b, oa.st, ob.st, z, fn);
      EvalChainSame(oa.r.value, e.rest, ca, cb, oa.st, ob.st, z, fn, fuel);
      ThenAlike(EvalChain(oa.r.value, e.rest, ca, oa.st, fuel), EvalChain(ob.r.value, e.rest, cb, ob.st, fuel), a, b,
          oa.st, ob.st, z);
    }
  }

  lemma {:induction false} ThenAlike<T>(pa: Out<T>, pb: Out<T>, a: State, b: State, a1: State, b1: State, z: Zone)
    requires Firm(a, b, a1, b1, z) && Alike(pa, pb, a1, b1, z)
    ensures Alike(pa, pb, a, b, z)
  {
    hide Firm;
    if !pa.st.lost && pa.r.Ok? { FirmTrans(a, b, a1, b1, pa.st, pb.st, z); }
  }

  lemma {:induction false} EvalIfSame(e: Expr, ca: Ctx, cb: Ctx, a: State, b: State, z: Zone, fn: bool, fuel: nat)
    requires e.IfExp? && Ready(ca, cb, a, b, z, fn) && SteadyExpr(e, z.rule, fn) && PartsInExpr(e) <= z.parts
    ensures Alike(EvalRaw(e, ca, a, fuel), EvalRaw(e, cb, b, fuel), a, b, z)
    decreases fuel, e, 0
  {
    hide Joint, Firm, Eval, EvalAll, EvalChain, EvalBool, EvalCall, Comprehend, RunBranches, RunMatch, ReadName, Apply,
        Lookup;
    EvalSame(e.cond, ca, cb, a, b, z, fn, fuel);
    var oa, ob := Eval(e.cond, ca, a, fuel), Eval(e.cond, cb, b, fuel);
    if !oa.st.lost {
      Onward(ca.env, cb.env, a, b, oa.st, ob.st, z, fn);
      if oa.r.value.Pending? {
        var da, db := ca.Speculate(), cb.Speculate();
        EvalSame(e.thn, da, db, oa.st, ob.st, z, fn, fuel);
        var ta, tb := Eval(e.thn, da, oa.st, fuel), Eval(e.thn, db, ob.st, fuel);
        if !ta.st.lost {
          Onward(ca.env, cb.env, oa.st, ob.st, ta.st, tb.st, z, fn);
          EvalSame(e.els, da, db, ta.st, tb.st, z, fn, fuel);
          var fa, fb := Eval(e.els, da, ta.st, fuel), Eval(e.els, db, tb.st, fuel);
          FirmTrans(a, b, oa.st, ob.st, ta.st, tb.st, z);
          ThenAlike(fa, fb, a, b, ta.st, tb.st, z);
        }
      } else if oa.r.value.d == Bool(true) {
        EvalSame(e.thn, ca, cb, oa.st, ob.st, z, fn, fuel);
        ThenAlike(Eval(e.thn, ca, oa.st, fuel), Eval(e.thn, cb, ob.st, fuel), a, b, oa.st, ob.st, z);
      } else if oa.r.value.d == Bool(false) {
        EvalSame(e.els, ca, cb, oa.st, ob.st, z, fn, fuel);
        ThenAlike(Eval(e.els, ca, oa.st, fuel), Eval(e.els, cb, ob.st, fuel), a, b, oa.st, ob.st, z);
      }
    }
  }

  lemma {:induction false} EvalAllSame(es: Exprs, ca: Ctx, cb: Ctx, a: State, b: State, z: Zone, fn: bool, fuel: nat)
    requires Ready(ca, cb, a, b, z, fn) && SteadyExprs(es, z.rule, fn) && PartsInExprs(es) <= z.parts
    ensures Alike(EvalAll(es, ca, a, fuel), EvalAll(es, cb, b, fuel), a, b, z)
    decreases fuel, es, 0
  {
    hide Joint, Firm, Eval, EvalRaw, SteadyExpr, PartsInExpr;
    match es
    case NoExprs => SameRefl(ca.env, cb.env, a, b, z, fn);
    case MoreExprs(e, rest) =>
      EvalSame(e, ca, cb, a, b, z, fn, fuel);
      var oa, ob := Eval(e, ca, a, fuel), Eval(e, cb, b, fuel);
      if !oa.st.lost {
        Onward(ca.env, cb.env, a, b, oa.st, ob.st, z, fn);
        EvalAllSame(rest, ca, cb, oa.st, ob.st, z, fn, fuel);
        ThenAlike(EvalAll(rest, ca, oa.st, fuel), EvalAll(rest, cb, ob.st, fuel), a, b, oa.st, ob.st, z);
      }
  }

  lemma {:induction false} EvalChainSame(prev: Value, rest: Comparisons, ca: Ctx, cb: Ctx, a: State, b: State, z: Zone,
          fn: bool, fuel: nat)
    requires Ready(ca, cb, a, b, z, fn) && SteadyComparisons(rest, z.rule, fn) && PartsInComparisons(rest) <= z.parts
    ensures Alike(EvalChain(prev, rest, ca, a, fuel), EvalChain(prev, rest, cb, b, fuel), a, b, z)
    decreases fuel, rest, 0
  {
    hide Joint, Firm, Eval, EvalRaw, SteadyExpr, PartsInExpr, SpecChain, Comparison;
    match rest
    case NoCmp => SameRefl(ca.env, cb.env, a, b, z, fn);
    case MoreCmp(_, right, tail) =>
      EvalSame(right, ca, cb, a, b, z, fn, fuel);
      var oa, ob := Eval(right, ca, a, fuel), Eval(right, cb, b, fuel);
      if !oa.st.lost {
        Onward(ca.env, cb.env, a, b, oa.st, ob.st, z, fn);
        if prev.Pending? || oa.r.value.Pending? {
          SpecChainSame(tail, ca.Speculate(), cb.Speculate(), oa.st, ob.st, z, fn, fuel);
          SameTrans(a, b, oa.st, ob.st, SpecChain(tail, ca.Speculate(), oa.st, fuel),
              SpecChain(tail, cb.Speculate(), ob.st, fuel), z);
        } else {
          EvalChainSame(oa.r.value, tail, ca, cb, oa.st, ob.st, z, fn, fuel);
          ThenAlike(EvalChain(oa.r.value, tail, ca, oa.st, fuel), EvalChain(oa.r.value, tail, cb, ob.st, fuel), a, b,
              oa.st, ob.st, z);
        }
      }
  }

  lemma {:induction false} SpecChainSame(rest: Comparisons, ca: Ctx, cb: Ctx, a: State, b: State, z: Zone, fn: bool,
          fuel: nat)
    requires Ready(ca, cb, a, b, z, fn) && SteadyComparisons(rest, z.rule, fn) && PartsInComparisons(rest) <= z.parts
    ensures Same(a, b, SpecChain(rest, ca, a, fuel), SpecChain(rest, cb, b, fuel), z)
    decreases fuel, rest, 0
  {
    hide Joint, Firm, Eval, EvalRaw, SteadyExpr, PartsInExpr;
    match rest
    case NoCmp => SameRefl(ca.env, cb.env, a, b, z, fn);
    case MoreCmp(_, right, tail) =>
      EvalSame(right, ca, cb, a, b, z, fn, fuel);
      var oa, ob := Eval(right, ca, a, fuel), Eval(right, cb, b, fuel);
      if !oa.st.lost {
        Onward(ca.env, cb.env, a, b, oa.st, ob.st, z, fn);
        SpecChainSame(tail, ca, cb, oa.st, ob.st, z, fn, fuel);
        SameTrans(a, b, oa.st, ob.st, SpecChain(tail, ca, oa.st, fuel), SpecChain(tail, cb, ob.st, fuel), z);
      }
  }

  lemma {:induction false} EvalBoolSame(conj: bool, es: Exprs, ca: Ctx, cb: Ctx, a: State, b: State, z: Zone, fn: bool,
          fuel: nat)
    requires Ready(ca, cb, a, b, z, fn) && SteadyExprs(es, z.rule, fn) && PartsInExprs(es) <= z.parts
    ensures Alike(EvalBool(conj, es, ca, a, fuel), EvalBool(conj, es, cb, b, fuel), a, b, z)
    decreases fuel, es, 0
  {
    hide Joint, Firm, Eval, EvalRaw, SteadyExpr, PartsInExpr, EvalAll;
    match es
    case NoExprs => SameRefl(ca.env, cb.env, a, b, z, fn);
    case MoreExprs(e, rest) =>
      EvalSame(e, ca, cb, a, b, z, fn, fuel);
      var oa, ob := Eval(e, ca, a, fuel), Eval(e, cb, b, fuel);
      if !oa.st.lost {
        Onward(ca.env, cb.env, a, b, oa.st, ob.st, z, fn);
        var da, db := ca.Speculate(), cb.Speculate();
        EvalAllSame(rest, da, db, oa.st, ob.st, z, fn, fuel);
        ThenAlike(EvalAll(rest, da, oa.st, fuel), EvalAll(rest, db, ob.st, fuel), a, b, oa.st, ob.st, z);
        EvalBoolSame(conj, rest, ca, cb, oa.st, ob.st, z, fn, fuel);
        ThenAlike(EvalBool(conj, rest, ca, oa.st, fuel), EvalBool(conj, rest, cb, ob.st, fuel), a, b, oa.st, ob.st, z);
      }
  }

  // ----- Values that are stored -----

  lemma {:induction false} EvalDataSame(e: Expr, ca: Ctx, cb: Ctx, a: State, b: State, z: Zone, fn: bool, fuel: nat)
    requires Ready(ca, cb, a, b, z, fn) && SteadyData(e, z.rule, fn) && PartsInExpr(e) <= z.parts
    ensures AlikeData(Eval(e, ca, a, fuel), Eval(e, cb, b, fuel), a, b, z)
    decreases fuel, e, 3
  {
    hide Joint, Firm, EvalAll, EvalChain, EvalBool, EvalCall, Comprehend, RunBranches, RunMatch, ReadName, Apply,
        Lookup, SteadyExpr;
    match e
    case Name(x) => ReadNameSame(x, ca, cb, a, b, z, fn);
    case Strict(op, args) =>
      EvalDatasSame(args, ca, cb, a, b, z, fn, fuel);
      var oa, ob := EvalAll(args, ca, a, fuel), EvalAll(args, cb, b, fuel);
      if !oa.st.lost && Apply(op, oa.r.value).Ok? { ApplyBelow(op, ob.r.value, oa.r.value); }
    case _ => EvalSame(e, ca, cb, a, b, z, fn, fuel);
  }

  lemma {:induction false} EvalDatasSame(es: Exprs, ca: Ctx, cb: Ctx, a: State, b: State, z: Zone, fn: bool, fuel: nat)
    requires Ready(ca, cb, a, b, z, fn) && SteadyDatas(es, z.rule, fn) && PartsInExprs(es) <= z.parts
    ensures AlikeDatas(EvalAll(es, ca, a, fuel), EvalAll(es, cb, b, fuel), a, b, z)
    decreases fuel, es, 0
  {
    hide Joint, Firm, Eval, EvalRaw, SteadyData, PartsInExpr;
    match es
    case NoExprs => SameRefl(ca.env, cb.env, a, b, z, fn);
    case MoreExprs(e, rest) =>
      EvalDataSame(e, ca, cb, a, b, z, fn, fuel);
      var oa, ob := Eval(e, ca, a, fuel), Eval(e, cb, b, fuel);
      if !oa.st.lost {
        Onward(ca.env, cb.env, a, b, oa.st, ob.st, z, fn);
        EvalDatasSame(rest, ca, cb, oa.st, ob.st, z, fn, fuel);
        var pa, pb := EvalAll(rest, ca, oa.st, fuel), EvalAll(rest, cb, ob.st, fuel);
        if !pa.st.lost { FirmTrans(a, b, oa.st, ob.st, pa.st, pb.st, z); }
      }
  }

  // ----- Calls -----

  lemma {:induction false} BindingSame(e: Expr, ca: Ctx, cb: Ctx, a: State, b: State, z: Zone, fn: bool, fuel: nat)
    requires Ready(ca, cb, a, b, z, fn) && SteadyExpr(e, z.rule, fn) && PartsInExpr(e) <= z.parts
    ensures var oa, ob := BindingOf(e, ca, a, fuel), BindingOf(e, cb, b, fuel);
            || oa.st.lost || oa.r.Err?
            || (ob.r.Ok? && Passed(oa.r.value, ob.r.value, oa.st.cells, z) && Firm(a, b, oa.st, ob.st, z))
    decreases fuel, e, 3
  {
    hide Joint, Firm, Eval, EvalRaw, Lookup;
    if e.Lambda? {
      SameRefl(ca.env, cb.env, a, b, z, fn);
      Closed(ByValue(e.params), MoreStmts(ExprStmt(e.body), NoStmts), ca.env, cb.env, a, b, z, fn);
    } else {
      EvalSame(e, ca, cb, a, b, z, fn, fuel);
      if e.Name? {
        SameRefl(ca.env, cb.env, a, b, z, fn);
        NamedSame(e.x, ca.env, cb.env, a, b, z, fn);
      }
    }
  }

  lemma {:induction false} BindArgsSame(params: seq<Param>, args: Exprs, ea: Env, eb: Env, ca: Ctx, cb: Ctx, a: State,
          b: State, z: Zone, fn: bool, fuel: nat)
    requires |params| == Length(args) && AllByValue(params)
    requires Ready(ca, cb, a, b, z, fn) && SteadyExprs(args, z.rule, fn) && PartsInExprs(args) <= z.parts
    requires Joint(ea, eb, a, b, z, true)
    ensures var oa, ob := BindArgs(params, args, ea, ca, a, fuel), BindArgs(params, args, eb, cb, b, fuel);
            || oa.st.lost || oa.r.Err?
            || (ob.r.Ok? && Joint(oa.r.value, ob.r.value, oa.st, ob.st, z, true) && Firm(a, b, oa.st, ob.st, z))
    decreases fuel, args, 0
  {
    hide Joint, Firm, Passed, EvalRaw, BindingOf, SteadyExpr, PartsInExpr;
    match args
    case NoExprs => SameRefl(ca.env, cb.env, a, b, z, fn);
    case MoreExprs(e, rest) =>
      assert !params[0].byRef;
      BindingSame(e, ca, cb, a, b, z, fn, fuel);
      var oa, ob := BindingOf(e, ca, a, fuel), BindingOf(e, cb, b, fuel);
      if !oa.st.lost && oa.r.Ok? {
        Onward(ca.env, cb.env, a, b, oa.st, ob.st, z, fn);
        Onward(ea, eb, a, b, oa.st, ob.st, z, true);
        PassedBound(params[0].name, oa.r.value, ob.r.value, ea, eb, oa.st, ob.st, z, true);
        var ea', eb' := Bound(params[0].name, oa.r.value, ea), Bound(params[0].name, ob.r.value, eb);
        BindArgsSame(params[1..], rest, ea', eb', ca, cb, oa.st, ob.st, z, fn, fuel);
        var pa, pb := BindArgs(params[1..], rest, ea', ca, oa.st, fuel),
            BindArgs(params[1..], rest, eb', cb, ob.st, fuel);
        if !pa.st.lost && pa.r.Ok? { FirmTrans(a, b, oa.st, ob.st, pa.st, pb.st, z); }
      }
  }

  lemma {:induction false} EvalCallSame(e: Expr, ca: Ctx, cb: Ctx, a: State, b: State, z: Zone, fn: bool, fuel: nat)
    requires e.Call? && Ready(ca, cb, a, b, z, fn) && SteadyExpr(e, z.rule, fn) && PartsInExpr(e) <= z.parts
    ensures Alike(EvalCall(e, ca, a, fuel), EvalCall(e, cb, b, fuel), a, b, z)
    decreases fuel, e, 0
  {
    hide Joint, Firm, EvalRaw, ExecRaw, BlockValue, BindArgs, Lookup, SteadyStmts, PartsIn;
    NamedSame(e.f, ca.env, cb.env, a, b, z, fn);
    match Lookup(ca.env, e.f)
    case Some(Fn(f)) =>
      var g := Lookup(cb.env, e.f).value.f;
      if |f.params| == Length(e.args) {
        Entered(f, g, ca.env, cb.env, a, b, z, fn);
        BindArgsSame(f.params, e.args, f.env, g.env, ca, cb, a, b, z, fn, fuel);
        var oa, ob := BindArgs(f.params, e.args, f.env, ca, a, fuel), BindArgs(f.params, e.args, g.env, cb, b, fuel);
        if !oa.st.lost && oa.r.Ok? && fuel > 0 {
          var da, db := ca.In(oa.r.value).(specAtCall := ca.spec), cb.In(ob.r.value).(specAtCall := cb.spec);
          BlockValueSame(f.body, true, da, db, oa.st, ob.st, z, true, fuel - 1);
          var pa, pb := BlockValue(f.body, true, da, oa.st, fuel - 1), BlockValue(f.body, true, db, ob.st, fuel - 1);
          ThenAlike(pa, pb, a, b, oa.st, ob.st, z);
          PopSame(pa, pb, a, b, z);
        }
      }
    case _ =>
  }

  lemma {:induction false} PopSame<T>(pa: Out<T>, pb: Out<T>, a: State, b: State, z: Zone)
    requires Alike(pa, pb, a, b, z) && |a.cells| <= |pa.st.cells| && |b.cells| <= |pb.st.cells|
    ensures Alike(Out(pa.r, Pop(pa.st, |a.cells|)), Out(pb.r, Pop(pb.st, |b.cells|)), a, b, z)
  {
    hide Linked;
    if !pa.st.lost && pa.r.Ok? { LinkedPop(a, b, pa.st, pb.st, z.rule.written, z.base); }
  }

  // ----- Comprehensions -----

  lemma {:induction false} ComprehendSame(cp: Comp, keys: seq<Value>, ca: Ctx, cb: Ctx, a: State, b: State, z: Zone,
          fn: bool, fuel: nat)
    requires Ready(ca, cb, a, b, z, fn) && SteadyComp(cp, z.rule, fn) && PartsInComp(cp) <= z.parts
    ensures Alike(Comprehend(cp, keys, ca, a, fuel), Comprehend(cp, keys, cb, b, fuel), a, b, z)
    decreases fuel, cp, 1
  {
    hide Joint, Firm, Eval, EvalRaw, SteadyExpr, PartsInExpr, CompOver, TupleKey;
    match cp
    case Element(e) => EvalSame(e, ca, cb, a, b, z, fn, fuel);
    case Guard(cond, rest) =>
      EvalSame(cond, ca, cb, a, b, z, fn, fuel);
      var oa, ob := Eval(cond, ca, a, fuel), Eval(cond, cb, b, fuel);
      if !oa.st.lost {
        Onward(ca.env, cb.env, a, b, oa.st, ob.st, z, fn);
        if oa.r.value.Pending? {
          var da, db := ca.Speculate(), cb.Speculate();
          ComprehendSame(rest, keys, da, db, oa.st, ob.st, z, fn, fuel);
          ThenAlike(Comprehend(rest, keys, da, oa.st, fuel), Comprehend(rest, keys, db, ob.st, fuel), a, b, oa.st,
              ob.st, z);
        } else {
          ComprehendSame(rest, keys, ca, cb, oa.st, ob.st, z, fn, fuel);
          ThenAlike(Comprehend(rest, keys, ca, oa.st, fuel), Comprehend(rest, keys, cb, ob.st, fuel), a, b, oa.st,
              ob.st, z);
        }
      }
    case Generator(_, iter, rest) =>
      EvalSame(iter, ca, cb, a, b, z, fn, fuel);
      var oa, ob := Eval(iter, ca, a, fuel), Eval(iter, cb, b, fuel);
      if !oa.st.lost {
        Onward(ca.env, cb.env, a, b, oa.st, ob.st, z, fn);
        CompOverSame(oa.r.value, cp, keys, ca, cb, oa.st, ob.st, z, fn, fuel);
        ThenAlike(CompOver(oa.r.value, cp, keys, ca, oa.st, fuel), CompOver(oa.r.value, cp, keys, cb, ob.st, fuel), a,
            b, oa.st, ob.st, z);
      }
  }

  lemma {:induction false} CompOverSame(source: Value, cp: Comp, keys: seq<Value>, ca: Ctx, cb: Ctx, a: State,
          b: State, z: Zone, fn: bool, fuel: nat)
    requires cp.Generator? && Ready(ca, cb, a, b, z, fn) && SteadyComp(cp, z.rule, fn) && PartsInComp(cp) <= z.parts
    ensures Alike(CompOver(source, cp, keys, ca, a, fuel), CompOver(source, cp, keys, cb, b, fuel), a, b, z)
    decreases fuel, cp, 0
  {
    hide Joint, Firm, EvalRaw, Comprehend, Settled, CompLoop;
    if source.Pending? {
      var da, db := PendingBinding(ca, cp.x), PendingBinding(cb, cp.x);
      VarBound(cp.x, Pending, ca.env, cb.env, a, b, z, fn);
      ComprehendSame(cp.rest, keys + [Pending], da, db, a, b, z, fn, fuel);
      var once, once' := Comprehend(cp.rest, keys + [Pending], da, a, fuel),
          Comprehend(cp.rest, keys + [Pending], db, b, fuel);
      RecordedSame(WithPendingEntry(once), WithPendingEntry(once'),
        Comprehend(cp.rest, keys + [Pending], da, once.st, fuel),
            Comprehend(cp.rest, keys + [Pending], db, once'.st, fuel), a, b, z);
    } else if source.d.Coll? {
      CompLoopSame(cp.x, source.d.entries, cp.rest, keys, ca, cb, a, b, z, fn, fuel);
    }
  }

  lemma {:induction false} RecordedSame<T, U>(oa: Out<T>, ob: Out<T>, again: Out<U>, again': Out<U>, a: State,
          b: State, z: Zone)
    requires Alike(oa, ob, a, b, z)
    ensures Alike(Recorded(oa, again), Recorded(ob, again'), a, b, z)
  {
    hide Settled, Linked;
    if !oa.st.lost && oa.r.Ok? {
      LinkedNotes(a, b, oa.st, ob.st, Recorded(oa, again).st, Recorded(ob, again').st, z.rule.written, z.base);
    }
  }

  lemma {:induction false} CompLoopSame(x: string, entries: seq<(Data, Data)>, rest: Comp, keys: seq<Value>, ca: Ctx,
          cb: Ctx, a: State, b: State, z: Zone, fn: bool, fuel: nat)
    requires Ready(ca, cb, a, b, z, fn) && SteadyComp(rest, z.rule, fn) && PartsInComp(rest) <= z.parts
    ensures Alike(CompLoop(x, entries, rest, keys, ca, a, fuel), CompLoop(x, entries, rest, keys, cb, b, fuel), a, b, z)
    decreases fuel, rest, 2 + |entries|
  {
    hide Joint, Firm, EvalRaw, Comprehend, SteadyComp, PartsInComp;
    if |entries| == 0 {
      SameRefl(ca.env, cb.env, a, b, z, fn);
    } else {
      var v, keys' := Known(entries[0].1), keys + [Known(entries[0].0)];
      var da, db := ca.In(BindVar(ca.env, x, v)), cb.In(BindVar(cb.env, x, v));
      VarBound(x, v, ca.env, cb.env, a, b, z, fn);
      ComprehendSame(rest, keys', da, db, a, b, z, fn, fuel);
      var oa, ob := Comprehend(rest, keys', da, a, fuel), Comprehend(rest, keys', db, b, fuel);
      if !oa.st.lost && oa.r.Ok? {
        Onward(ca.env, cb.env, a, b, oa.st, ob.st, z, fn);
        CompLoopSame(x, entries[1..], rest, keys, ca, cb, oa.st, ob.st, z, fn, fuel);
        ThenAlike(CompLoop(x, entries[1..], rest, keys, ca, oa.st, fuel),
            CompLoop(x, entries[1..], rest, keys, cb, ob.st, fuel), a, b, oa.st, ob.st, z);
      }
    }
  }

  // ----- Blocks, branches and arms -----

  lemma {:induction false} RunBodySame(body: Stmts, m: Mode, ca: Ctx, cb: Ctx, a: State, b: State, z: Zone, fn: bool,
          fuel: nat)
    requires Ready(ca, cb, a, b, z, fn) && SteadyStmts(body, z.rule, fn) && PartsIn(body) <= z.parts
    ensures Alike(RunBody(body, m, ca, a, fuel), RunBody(body, m, cb, b, fuel), a, b, z)
    decreases fuel, body, 1
  {
    hide Joint, Firm, EvalRaw, ExecRaw, BlockValue, ExecStmts, SteadyStmts, PartsIn;
    match m
    case Run =>
      ExecStmtsSame(body, ca, cb, a, b, z, fn, fuel);
      var da, db := ExecStmts(body, ca, a, fuel), ExecStmts(body, cb, b, fuel);
      PopSame(Out(da.r, da.st), Out(db.r, db.st), a, b, z);
    case Denote(unit) =>
      BlockValueSame(body, unit, ca, cb, a, b, z, fn, fuel);
      PopSame(BlockValue(body, unit, ca, a, fuel), BlockValue(body, unit, cb, b, fuel), a, b, z);
  }

  lemma {:induction false} BlockValueSame(body: Stmts, unit: bool, ca: Ctx, cb: Ctx, a: State, b: State, z: Zone,
          fn: bool, fuel: nat)
    requires Ready(ca, cb, a, b, z, fn) && SteadyStmts(body, z.rule, fn) && PartsIn(body) <= z.parts
    ensures Alike(BlockValue(body, unit, ca, a, fuel), BlockValue(body, unit, cb, b, fuel), a, b, z)
    decreases fuel, body, 0
  {
    hide Joint, Firm, EvalRaw, Exec, LastValue, SteadyStmt, PartsOf;
    if body.MoreStmts? {
      if body.tail.NoStmts? {
        LastValueSame(body.head, unit, ca, cb, a, b, z, fn, fuel);
      } else {
        ExecSame(body.head, ca, cb, a, b, z, fn, fuel);
        var da, db := Exec(body.head, ca, a, fuel), Exec(body.head, cb, b, fuel);
        if !da.st.lost && da.r == Ok(None) {
          BlockValueSame(body.tail, unit, ca.In(da.env), cb.In(db.env), da.st, db.st, z, fn, fuel);
          ThenAlike(BlockValue(body.tail, unit, ca.In(da.env), da.st, fuel),
              BlockValue(body.tail, unit, cb.In(db.env), db.st, fuel), a, b, da.st, db.st, z);
        }
      }
    }
  }

  lemma {:induction false} LastValueSame(s: Stmt, unit: bool, ca: Ctx, cb: Ctx, a: State, b: State, z: Zone, fn: bool,
          fuel: nat)
    requires Ready(ca, cb, a, b, z, fn) && SteadyStmt(s, z.rule, fn) && PartsOf(s) <= z.parts
    ensures Alike(LastValue(s, unit, ca, a, fuel), LastValue(s, unit, cb, b, fuel), a, b, z)
    decreases fuel, s, 3
  {
    hide Joint, Firm, Eval, Exec, BlockValue, RunMatch, RunBranches;
    if s.ExprStmt? || s.Return? {
      EvalSame(s.e, ca, cb, a, b, z, fn, fuel);
    } else if s.Match? {
      RunMatchSame(s, Denote(unit), ca, cb, a, b, z, fn, fuel);
    } else if s.If? && HasElse(s.branches) {
      RunBranchesSame(s.branches, Denote(unit), ca, cb, a, b, z, fn, fuel);
    } else {
      ExecSame(s, ca, cb, a, b, z, fn, fuel);
    }
  }

  lemma {:induction false} RunBranchesSame(bs: Branches, m: Mode, ca: Ctx, cb: Ctx, a: State, b: State, z: Zone,
          fn: bool, fuel: nat)
    requires Ready(ca, cb, a, b, z, fn) && SteadyBranches(bs, z.rule, fn) && PartsInBranches(bs) <= z.parts
    ensures Alike(RunBranches(bs, m, ca, a, fuel), RunBranches(bs, m, cb, b, fuel), a, b, z)
    decreases fuel, bs, 2
  {
    hide Joint, Firm, Eval, RunBody, SpecConds, SpecBodies, SteadyExpr, PartsInExpr, SteadyStmts, PartsIn;
    match bs
    case NoElse => SameRefl(ca.env, cb.env, a, b, z, fn);
    case Else(body) => RunBodySame(body, m, ca, cb, a, b, z, fn, fuel);
    case Branch(cond, body, rest) =>
      EvalSame(cond, ca, cb, a, b, z, fn, fuel);
      var oa, ob := Eval(cond, ca, a, fuel), Eval(cond, cb, b, fuel);
      if !oa.st.lost {
        Onward(ca.env, cb.env, a, b, oa.st, ob.st, z, fn);
        if oa.r.value.Pending? {
          PendingBranchesSame(bs, m, ca.Speculate(), cb.Speculate(), oa.st, ob.st, z, fn, fuel);
          var sa, sb := SpecConds(rest, ca.Speculate(), oa.st, fuel), SpecConds(rest, cb.Speculate(), ob.st, fuel);
          ThenAlike(SpecBodies(bs, m, ca.Speculate(), sa, fuel), SpecBodies(bs, m, cb.Speculate(), sb, fuel), a, b,
              oa.st, ob.st, z);
        } else if oa.r.value.d == Bool(true) {
          RunBodySame(body, m, ca, cb, oa.st, ob.st, z, fn, fuel);
          ThenAlike(RunBody(body, m, ca, oa.st, fuel), RunBody(body, m, cb, ob.st, fuel), a, b, oa.st, ob.st, z);
        } else if oa.r.value.d == Bool(false) {
          RunBranchesSame(rest, m, ca, cb, oa.st, ob.st, z, fn, fuel);
          ThenAlike(RunBranches(rest, m, ca, oa.st, fuel), RunBranches(rest, m, cb, ob.st, fuel), a, b, oa.st, ob.st,
              z);
        }
      }
  }

  lemma {:induction false} PendingBranchesSame(bs: Branches, m: Mode, ca: Ctx, cb: Ctx, a: State, b: State, z: Zone,
          fn: bool, fuel: nat)
    requires bs.Branch? && Ready(ca, cb, a, b, z, fn) && SteadyBranches(bs, z.rule, fn)
             && PartsInBranches(bs) <= z.parts
    ensures var sa, sb := SpecConds(bs.rest, ca, a, fuel), SpecConds(bs.rest, cb, b, fuel);
            Alike(SpecBodies(bs, m, ca, sa, fuel), SpecBodies(bs, m, cb, sb, fuel), a, b, z)
    decreases fuel, bs, 1
  {
    hide Joint, Firm, EvalRaw, ExecRaw, SpecConds, SpecBodies;
    SpecCondsSame(bs.rest, ca, cb, a, b, z, fn, fuel);
    var sa, sb := SpecConds(bs.rest, ca, a, fuel), SpecConds(bs.rest, cb, b, fuel);
    if !sa.lost {
      Onward(ca.env, cb.env, a, b, sa, sb, z, fn);
      SpecBodiesSame(bs, m, ca, cb, sa, sb, z, fn, fuel);
      ThenAlike(SpecBodies(bs, m, ca, sa, fuel), SpecBodies(bs, m, cb, sb, fuel), a, b, sa, sb, z);
    }
  }

  lemma {:induction false} SpecCondsSame(bs: Branches, ca: Ctx, cb: Ctx, a: State, b: State, z: Zone, fn: bool,
          fuel: nat)
    requires Ready(ca, cb, a, b, z, fn) && SteadyBranches(bs, z.rule, fn) && PartsInBranches(bs) <= z.parts
    ensures Same(a, b, SpecConds(bs, ca, a, fuel), SpecConds(bs, cb, b, fuel), z)
    decreases fuel, bs, 0
  {
    hide Joint, Firm, Eval, SteadyExpr, PartsInExpr, SteadyStmts, PartsIn;
    if bs.Branch? {
      EvalSame(bs.cond, ca, cb, a, b, z, fn, fuel);
      var oa, ob := Eval(bs.cond, ca, a, fuel), Eval(bs.cond, cb, b, fuel);
      if !oa.st.lost {
        Onward(ca.env, cb.env, a, b, oa.st, ob.st, z, fn);
        SpecCondsSame(bs.rest, ca, cb, oa.st, ob.st, z, fn, fuel);
        SameTrans(a, b, oa.st, ob.st, SpecConds(bs.rest, ca, oa.st, fuel), SpecConds(bs.rest, cb, ob.st, fuel), z);
      }
    } else {
      SameRefl(ca.env, cb.env, a, b, z, fn);
    }
  }

  lemma {:induction false} SpecBodiesSame(bs: Branches, m: Mode, ca: Ctx, cb: Ctx, a: State, b: State, z: Zone,
          fn: bool, fuel: nat)
    requires Ready(ca, cb, a, b, z, fn) && SteadyBranches(bs, z.rule, fn) && PartsInBranches(bs) <= z.parts
    ensures Alike(SpecBodies(bs, m, ca, a, fuel), SpecBodies(bs, m, cb, b, fuel), a, b, z)
    decreases fuel, bs, 0
  {
    hide Joint, Firm, EvalRaw, RunBody, SteadyExpr, PartsInExpr, SteadyStmts, PartsIn;
    if bs.NoElse? {
      SameRefl(ca.env, cb.env, a, b, z, fn);
    } else {
      RunBodySame(bs.body, m, ca, cb, a, b, z, fn, fuel);
      var oa, ob := RunBody(bs.body, m, ca, a, fuel), RunBody(bs.body, m, cb, b, fuel);
      if bs.Branch? && !oa.st.lost && oa.r.Ok? {
        Onward(ca.env, cb.env, a, b, oa.st, ob.st, z, fn);
        SpecBodiesSame(bs.rest, m, ca, cb, oa.st, ob.st, z, fn, fuel);
        ThenAlike(SpecBodies(bs.rest, m, ca, oa.st, fuel), SpecBodies(bs.rest, m, cb, ob.st, fuel), a, b, oa.st, ob.st,
            z);
      }
    }
  }

  lemma {:induction false} RunMatchSame(s: Stmt, m: Mode, ca: Ctx, cb: Ctx, a: State, b: State, z: Zone, fn: bool,
          fuel: nat)
    requires s.Match? && Ready(ca, cb, a, b, z, fn) && SteadyStmt(s, z.rule, fn) && PartsOf(s) <= z.parts
    ensures Alike(RunMatch(s, m, ca, a, fuel), RunMatch(s, m, cb, b, fuel), a, b, z)
    decreases fuel, s, 0
  {
    hide Joint, Firm, Eval, RunArms, SpecArms;
    EvalSame(s.scrutinee, ca, cb, a, b, z, fn, fuel);
    var oa, ob := Eval(s.scrutinee, ca, a, fuel), Eval(s.scrutinee, cb, b, fuel);
    if !oa.st.lost {
      Onward(ca.env, cb.env, a, b, oa.st, ob.st, z, fn);
      if oa.r.value.Pending? {
        var da, db := ca.Speculate(), cb.Speculate();
        SpecArmsSame(s.arms, m, da, db, oa.st, ob.st, z, fn, fuel);
        ThenAlike(SpecArms(s.arms, m, da, oa.st, fuel), SpecArms(s.arms, m, db, ob.st, fuel), a, b, oa.st, ob.st, z);
      } else {
        RunArmsSame(s.arms, oa.r.value.d, m, ca, cb, oa.st, ob.st, z, fn, fuel);
        ThenAlike(RunArms(s.arms, oa.r.value.d, m, ca, oa.st, fuel), RunArms(s.arms, oa.r.value.d, m, cb, ob.st, fuel),
            a, b, oa.st, ob.st, z);
      }
    }
  }

  lemma {:induction false} RunArmsSame(arms: Arms, v: Data, m: Mode, ca: Ctx, cb: Ctx, a: State, b: State, z: Zone,
          fn: bool, fuel: nat)
    requires Ready(ca, cb, a, b, z, fn) && SteadyArms(arms, z.rule, fn) && PartsInArms(arms) <= z.parts
    ensures Alike(RunArms(arms, v, m, ca, a, fuel), RunArms(arms, v, m, cb, b, fuel), a, b, z)
    decreases fuel, arms, 0
  {
    hide Joint, Firm, EvalRaw, RunBody, SteadyStmts, PartsIn, MatchPattern, BindAll;
    if arms.Arm? {
      var p := MatchPattern(arms.pattern, v);
      if p.Ok? {
        if p.value.None? {
          RunArmsSame(arms.rest, v, m, ca, cb, a, b, z, fn, fuel);
        } else {
          AllBound(p.value.value, ca.env, cb.env, a, b, z, fn);
          RunBodySame(arms.body, m, ca.In(BindAll(ca.env, p.value.value)), cb.In(BindAll(cb.env, p.value.value)), a, b,
              z, fn, fuel);
        }
      }
    }
  }

  lemma {:induction false} SpecArmsSame(arms: Arms, m: Mode, ca: Ctx, cb: Ctx, a: State, b: State, z: Zone, fn: bool,
          fuel: nat)
    requires Ready(ca, cb, a, b, z, fn) && SteadyArms(arms, z.rule, fn) && PartsInArms(arms) <= z.parts
    ensures Alike(SpecArms(arms, m, ca, a, fuel), SpecArms(arms, m, cb, b, fuel), a, b, z)
    decreases fuel, arms, 0
  {
    hide Joint, Firm, EvalRaw, RunBody, SteadyStmts, PartsIn, PendingNames, BindAll;
    match arms
    case NoArms => SameRefl(ca.env, cb.env, a, b, z, fn);
    case Arm(p, body, rest) =>
      var da, db := ca.In(BindAll(ca.env, PendingNames(p))), cb.In(BindAll(cb.env, PendingNames(p)));
      AllBound(PendingNames(p), ca.env, cb.env, a, b, z, fn);
      RunBodySame(body, m, da, db, a, b, z, fn, fuel);
      var oa, ob := RunBody(body, m, da, a, fuel), RunBody(body, m, db, b, fuel);
      if !oa.st.lost && oa.r.Ok? {
        Onward(ca.env, cb.env, a, b, oa.st, ob.st, z, fn);
        SpecArmsSame(rest, m, ca, cb, oa.st, ob.st, z, fn, fuel);
        ThenAlike(SpecArms(rest, m, ca, oa.st, fuel), SpecArms(rest, m, cb, ob.st, fuel), a, b, oa.st, ob.st, z);
      }
  }

  // ----- Statements -----

  /** A statement leaves both runs in scopes that go on alike. */
  ghost predicate AlikeDone(da: Done, db: Done, a: State, b: State, z: Zone, fn: bool) {
    || da.st.lost || da.r.Err?
    || (db.r == da.r && Firm(a, b, da.st, db.st, z) && Joint(da.env, db.env, da.st, db.st, z, fn))
  }

  lemma {:induction false} ExecStmtsSame(ss: Stmts, ca: Ctx, cb: Ctx, a: State, b: State, z: Zone, fn: bool, fuel: nat)
    requires Ready(ca, cb, a, b, z, fn) && SteadyStmts(ss, z.rule, fn) && PartsIn(ss) <= z.parts
    ensures AlikeDone(ExecStmts(ss, ca, a, fuel), ExecStmts(ss, cb, b, fuel), a, b, z, fn)
    decreases fuel, ss, 0
  {
    hide Joint, Firm, EvalRaw, Exec, SteadyStmt, PartsOf;
    match ss
    case NoStmts => SameRefl(ca.env, cb.env, a, b, z, fn);
    case MoreStmts(s, rest) =>
      ExecSame(s, ca, cb, a, b, z, fn, fuel);
      var da, db := Exec(s, ca, a, fuel), Exec(s, cb, b, fuel);
      if !da.st.lost && da.r == Ok(None) {
        ExecStmtsSame(rest, ca.In(da.env), cb.In(db.env), da.st, db.st, z, fn, fuel);
        var fa, fb := ExecStmts(rest, ca.In(da.env), da.st, fuel), ExecStmts(rest, cb.In(db.env), db.st, fuel);
        if !fa.st.lost { FirmTrans(a, b, da.st, db.st, fa.st, fb.st, z); }
      }
  }

  lemma {:induction false} ExecSame(s: Stmt, ca: Ctx, cb: Ctx, a: State, b: State, z: Zone, fn: bool, fuel: nat)
    requires Ready(ca, cb, a, b, z, fn) && SteadyStmt(s, z.rule, fn) && PartsOf(s) <= z.parts
    ensures AlikeDone(Exec(s, ca, a, fuel), Exec(s, cb, b, fuel), a, b, z, fn)
    decreases fuel, s, 2
  {
    hide Joint, Firm, EvalRaw, ExecRaw, SteadyStmt, PartsOf;
    ExecRawSame(s, ca, cb, a, b, z, fn, fuel);
  }

  lemma {:induction false} ExecRawSame(s: Stmt, ca: Ctx, cb: Ctx, a: State, b: State, z: Zone, fn: bool, fuel: nat)
    requires Ready(ca, cb, a, b, z, fn) && SteadyStmt(s, z.rule, fn) && PartsOf(s) <= z.parts
    ensures AlikeDone(ExecRaw(s, ca, a, fuel), ExecRaw(s, cb, b, fuel), a, b, z, fn)
    decreases fuel, s, 1
  {
    hide Joint, Firm, Eval, RunBranches, RunMatch, ExecFor, ExecWith, BindingOf, AssignMut, AssignKey, Write, DefineAs,
        FeedInto, Lookup;
    match s
    case Assign(_, _) => AssignSame(s, ca, cb, a, b, z, fn, fuel);
    case MutAssign(_, _, _) => MutAssignSame(s, ca, cb, a, b, z, fn, fuel);
    case KeyedAssign(_, _, _) => KeyedAssignSame(s, ca, cb, a, b, z, fn, fuel);
    case AugAssign(_, _, _) => AugAssignSame(s, ca, cb, a, b, z, fn, fuel);
    case Define(_, _) => DefineStmtSame(s, ca, cb, a, b, z, fn, fuel);
    case Feed(_, _, _) => FeedStmtSame(s, ca, cb, a, b, z, fn, fuel);
    case If(bs) =>
      RunBranchesSame(bs, Run, ca, cb, a, b, z, fn, fuel);
      ScopedSame(RunBranches(bs, Run, ca, a, fuel), RunBranches(bs, Run, cb, b, fuel), ca.env, cb.env, a, b, z, fn);
    case Match(_, _) =>
      RunMatchSame(s, Run, ca, cb, a, b, z, fn, fuel);
      ScopedSame(RunMatch(s, Run, ca, a, fuel), RunMatch(s, Run, cb, b, fuel), ca.env, cb.env, a, b, z, fn);
    case For(_, _, _) =>
      ExecForSame(s, ca, cb, a, b, z, fn, fuel);
      ScopedSame(ExecFor(s, ca, a, fuel), ExecFor(s, cb, b, fuel), ca.env, cb.env, a, b, z, fn);
    case With(body, site) =>
      ExecWithSame(body, site, ca, cb, a, b, z, fn, fuel);
      ScopedSame(ExecWith(body, site, ca, a, fuel), ExecWith(body, site, cb, b, fuel), ca.env, cb.env, a, b, z, fn);
    case FunctionDef(x, params, body) =>
      SameRefl(ca.env, cb.env, a, b, z, fn);
      Closed(params, body, ca.env, cb.env, a, b, z, fn);
      PassedBound(x, Fn(Function(params, body, Capture(ca.env, a.cells))),
          Fn(Function(params, body, Capture(cb.env, b.cells))),
        ca.env, cb.env, a, b, z, fn);
    case Return(e) =>
      EvalSame(e, ca, cb, a, b, z, fn, fuel);
      ScopedSame(Eval(e, ca, a, fuel), Eval(e, cb, b, fuel), ca.env, cb.env, a, b, z, fn);
    case ReturnUnit => SameRefl(ca.env, cb.env, a, b, z, fn);
    case ExprStmt(e) =>
      EvalSame(e, ca, cb, a, b, z, fn, fuel);
      ScopedSame(Eval(e, ca, a, fuel), Eval(e, cb, b, fuel), ca.env, cb.env, a, b, z, fn);
    case Pass => SameRefl(ca.env, cb.env, a, b, z, fn);
  }

  lemma {:induction false} ScopedSame<T>(oa: Out<T>, ob: Out<T>, ea: Env, eb: Env, a: State, b: State, z: Zone,
          fn: bool)
    requires Joint(ea, eb, a, b, z, fn) && Alike(oa, ob, a, b, z) && Kept(a, oa.st)
    ensures oa.st.lost || oa.r.Err? || Joint(ea, eb, oa.st, ob.st, z, fn)
  {
    hide Joint, Firm;
    if !oa.st.lost && oa.r.Ok? { Onward(ea, eb, a, b, oa.st, ob.st, z, fn); }
  }

  lemma {:induction false} AssignSame(s: Stmt, ca: Ctx, cb: Ctx, a: State, b: State, z: Zone, fn: bool, fuel: nat)
    requires s.Assign? && Ready(ca, cb, a, b, z, fn) && SteadyStmt(s, z.rule, fn) && PartsOf(s) <= z.parts
    ensures AlikeDone(ExecRaw(s, ca, a, fuel), ExecRaw(s, cb, b, fuel), a, b, z, fn)
    decreases fuel, s, 0
  {
    hide Joint, Firm, Passed, Eval, RunBranches, RunMatch, ExecFor, ExecWith, BindingOf, Lookup;
    BindingSame(s.e, ca, cb, a, b, z, fn, fuel);
    var oa, ob := BindingOf(s.e, ca, a, fuel), BindingOf(s.e, cb, b, fuel);
    if !oa.st.lost && oa.r.Ok? {
      Onward(ca.env, cb.env, a, b, oa.st, ob.st, z, fn);
      PassedBound(s.x, oa.r.value, ob.r.value, ca.env, cb.env, oa.st, ob.st, z, fn);
    }
  }

  lemma {:induction false} AssignedSame(x: string, e: Expr, ca: Ctx, cb: Ctx, a: State, b: State, z: Zone, fn: bool,
          fuel: nat)
    requires Ready(ca, cb, a, b, z, fn) && SteadyAssigned(x, e, z.rule, fn) && PartsInExpr(e) <= z.parts
    ensures var oa, ob := Eval(e, ca, a, fuel), Eval(e, cb, b, fuel);
            AlikeData(oa, ob, a, b, z) && (oa.st.lost || x in z.rule.written || ob.r == oa.r)
    decreases fuel, e, 4
  {
    hide Joint, Firm, EvalRaw, SteadyExpr, SteadyData, PartsInExpr;
    if x in z.rule.written {
      EvalDataSame(e, ca, cb, a, b, z, fn, fuel);
    } else {
      EvalSame(e, ca, cb, a, b, z, fn, fuel);
    }
  }

  lemma {:induction false} MutAssignSame(s: Stmt, ca: Ctx, cb: Ctx, a: State, b: State, z: Zone, fn: bool, fuel: nat)
    requires s.MutAssign? && Ready(ca, cb, a, b, z, fn) && SteadyStmt(s, z.rule, fn) && PartsOf(s) <= z.parts
    ensures AlikeDone(ExecRaw(s, ca, a, fuel), ExecRaw(s, cb, b, fuel), a, b, z, fn)
    decreases fuel, s, 0
  {
    hide Joint, Firm, Eval, RunBranches, RunMatch, ExecFor, ExecWith, BindingOf, AssignMut, Lookup;
    AssignedSame(s.x, s.e, ca, cb, a, b, z, fn, fuel);
    var oa, ob := Eval(s.e, ca, a, fuel), Eval(s.e, cb, b, fuel);
    if !oa.st.lost {
      Onward(ca.env, cb.env, a, b, oa.st, ob.st, z, fn);
      AssignMutSame(s.x, s.txn, oa.r.value, ob.r.value, ca, cb, oa.st, ob.st, z, fn);
      var da, db := AssignMut(s.x, s.txn, oa.r.value, ca, oa.st), AssignMut(s.x, s.txn, ob.r.value, cb, ob.st);
      FirmTrans(a, b, oa.st, ob.st, da.st, db.st, z);
    }
  }

  lemma {:induction false} KeyedAssignSame(s: Stmt, ca: Ctx, cb: Ctx, a: State, b: State, z: Zone, fn: bool, fuel: nat)
    requires s.KeyedAssign? && Ready(ca, cb, a, b, z, fn) && SteadyStmt(s, z.rule, fn) && PartsOf(s) <= z.parts
    ensures AlikeDone(ExecRaw(s, ca, a, fuel), ExecRaw(s, cb, b, fuel), a, b, z, fn)
    decreases fuel, s, 0
  {
    hide Joint, Firm, Eval, RunBranches, RunMatch, ExecFor, ExecWith, BindingOf, AssignKey, Lookup;
    AssignedSame(s.x, s.e, ca, cb, a, b, z, fn, fuel);
    var oa, ob := Eval(s.e, ca, a, fuel), Eval(s.e, cb, b, fuel);
    if !oa.st.lost {
      Onward(ca.env, cb.env, a, b, oa.st, ob.st, z, fn);
      AssignedSame(s.x, s.index, ca, cb, oa.st, ob.st, z, fn, fuel);
      var ka, kb := Eval(s.index, ca, oa.st, fuel), Eval(s.index, cb, ob.st, fuel);
      if !ka.st.lost {
        Onward(ca.env, cb.env, oa.st, ob.st, ka.st, kb.st, z, fn);
        AssignKeySame(s.x, ka.r.value, kb.r.value, oa.r.value, ob.r.value, ca, cb, ka.st, kb.st, z, fn);
        var wa, wb := AssignKey(s.x, ka.r.value, oa.r.value, ca, ka.st),
            AssignKey(s.x, kb.r.value, ob.r.value, cb, kb.st);
        FirmTrans(a, b, oa.st, ob.st, ka.st, kb.st, z);
        ThenAlike(wa, wb, a, b, ka.st, kb.st, z);
        ScopedSame(wa, wb, ca.env, cb.env, a, b, z, fn);
      }
    }
  }

  lemma {:induction false} AugAssignSame(s: Stmt, ca: Ctx, cb: Ctx, a: State, b: State, z: Zone, fn: bool, fuel: nat)
    requires s.AugAssign? && Ready(ca, cb, a, b, z, fn) && SteadyStmt(s, z.rule, fn) && PartsOf(s) <= z.parts
    ensures AlikeDone(ExecRaw(s, ca, a, fuel), ExecRaw(s, cb, b, fuel), a, b, z, fn)
    decreases fuel, s, 0
  {
    hide Joint, Firm, Eval, RunBranches, RunMatch, ExecFor, ExecWith, BindingOf, Write, Lookup, Apply, ReadMut;
    NamedSame(s.x, ca.env, cb.env, a, b, z, fn);
    match Lookup(ca.env, s.x)
    case Some(Mut(loc)) =>
      ReadMutSame(s.x, ca.env, cb.env, a, b, z, fn);
      WritableAt(s.x, ca.env, cb.env, a, b, z, fn);
      AssignedSame(s.x, s.e, ca, cb, a, b, z, fn, fuel);
      var oa, ob := Eval(s.e, ca, a, fuel), Eval(s.e, cb, b, fuel);
      var cur, cur' := ReadMut(a, s.x, loc), ReadMut(b, s.x, loc);
      if !oa.st.lost && cur.Ok? {
        Onward(ca.env, cb.env, a, b, oa.st, ob.st, z, fn);
        var v, v' := Apply(Binary(s.op), [cur.value, oa.r.value]), Apply(Binary(s.op), [cur'.value, ob.r.value]);
        if v.Ok? {
          ApplyBelow(Binary(s.op), [cur'.value, ob.r.value], [cur.value, oa.r.value]);
          WritableAt(s.x, ca.env, cb.env, oa.st, ob.st, z, fn);
          WriteSame(ca, cb, oa.st, ob.st, loc, v.value, v'.value, ca.env, cb.env, z, fn);
          var wa, wb := Write(ca, oa.st, loc, v.value), Write(cb, ob.st, loc, v'.value);
          FirmTrans(a, b, oa.st, ob.st, wa.st, wb.st, z);
          Onward(ca.env, cb.env, a, b, wa.st, wb.st, z, fn);
        }
      }
    case _ =>
  }

  lemma {:induction false} DefineStmtSame(s: Stmt, ca: Ctx, cb: Ctx, a: State, b: State, z: Zone, fn: bool, fuel: nat)
    requires s.Define? && Ready(ca, cb, a, b, z, fn) && SteadyStmt(s, z.rule, fn) && PartsOf(s) <= z.parts
    ensures AlikeDone(ExecRaw(s, ca, a, fuel), ExecRaw(s, cb, b, fuel), a, b, z, fn)
    decreases fuel, s, 0
  {
    hide Joint, Firm, Eval, RunBranches, RunMatch, ExecFor, ExecWith, BindingOf, DefineAs, Lookup;
    EvalSame(s.e, ca, cb, a, b, z, fn, fuel);
    var oa, ob := Eval(s.e, ca, a, fuel), Eval(s.e, cb, b, fuel);
    if !oa.st.lost {
      Onward(ca.env, cb.env, a, b, oa.st, ob.st, z, fn);
      DefineSame(s.x, oa.r.value, ca, cb, oa.st, ob.st, z, fn);
      FirmTrans(a, b, oa.st, ob.st, DefineAs(s.x, oa.r.value, ca, oa.st).st, DefineAs(s.x, oa.r.value, cb, ob.st).st,
          z);
    }
  }

  lemma {:induction false} FeedStmtSame(s: Stmt, ca: Ctx, cb: Ctx, a: State, b: State, z: Zone, fn: bool, fuel: nat)
    requires s.Feed? && Ready(ca, cb, a, b, z, fn) && SteadyStmt(s, z.rule, fn) && PartsOf(s) <= z.parts
    ensures AlikeDone(ExecRaw(s, ca, a, fuel), ExecRaw(s, cb, b, fuel), a, b, z, fn)
    decreases fuel, s, 0
  {
    hide Joint, Firm, Eval, RunBranches, RunMatch, ExecFor, ExecWith, BindingOf, FeedInto, Lookup;
    NamedSame(s.x, ca.env, cb.env, a, b, z, fn);
    match Lookup(ca.env, s.x)
    case Some(Chan(key)) =>
      EvalDataSame(s.e, ca, cb, a, b, z, fn, fuel);
      var oa, ob := Eval(s.e, ca, a, fuel), Eval(s.e, cb, b, fuel);
      if !oa.st.lost {
        Onward(ca.env, cb.env, a, b, oa.st, ob.st, z, fn);
        var site := ca.calls + [s.at];
        FeedSame(key, site, oa.r.value, ob.r.value, ca, cb, oa.st, ob.st, z, fn);
        FirmTrans(a, b, oa.st, ob.st, FeedInto(key, site, oa.r.value, ca, oa.st),
            FeedInto(key, site, ob.r.value, cb, ob.st), z);
      }
    case _ =>
  }

  // ----- Loops and blocks of writes -----

  lemma {:induction false} ExecForSame(s: Stmt, ca: Ctx, cb: Ctx, a: State, b: State, z: Zone, fn: bool, fuel: nat)
    requires s.For? && Ready(ca, cb, a, b, z, fn) && SteadyStmt(s, z.rule, fn) && PartsOf(s) <= z.parts
    ensures Alike(ExecFor(s, ca, a, fuel), ExecFor(s, cb, b, fuel), a, b, z)
    decreases fuel, s, 0, 1
  {
    hide Joint, Firm, Eval, LoopOver;
    EvalSame(s.iter, ca, cb, a, b, z, fn, fuel);
    var oa, ob := Eval(s.iter, ca, a, fuel), Eval(s.iter, cb, b, fuel);
    if !oa.st.lost {
      Onward(ca.env, cb.env, a, b, oa.st, ob.st, z, fn);
      LoopOverSame(oa.r.value, s, ca, cb, oa.st, ob.st, z, fn, fuel);
      ThenAlike(LoopOver(oa.r.value, s, ca, oa.st, fuel), LoopOver(oa.r.value, s, cb, ob.st, fuel), a, b, oa.st, ob.st,
          z);
    }
  }

  lemma {:induction false} LoopOverSame(source: Value, s: Stmt, ca: Ctx, cb: Ctx, a: State, b: State, z: Zone,
          fn: bool, fuel: nat)
    requires s.For? && Ready(ca, cb, a, b, z, fn) && SteadyStmt(s, z.rule, fn) && PartsOf(s) <= z.parts
    ensures Alike(LoopOver(source, s, ca, a, fuel), LoopOver(source, s, cb, b, fuel), a, b, z)
    decreases fuel, s, 0, 0
  {
    hide Joint, Firm, EvalRaw, RunBody, ForLoop, Settled;
    if source.Pending? {
      var da, db := PendingElement(ca, s.x), PendingElement(cb, s.x);
      VarBound(s.x, Pending, ca.env, cb.env, a, b, z, fn);
      RunBodySame(s.body, Run, da, db, a, b, z, fn, fuel);
      var once, once' := RunBody(s.body, Run, da, a, fuel), RunBody(s.body, Run, db, b, fuel);
      RecordedSame(Out(Ok(Option<Value>.None), once.st), Out(Ok(Option<Value>.None), once'.st),
        RunBody(s.body, Run, da, once.st, fuel), RunBody(s.body, Run, db, once'.st, fuel), a, b, z);
    } else if source.d.Coll? {
      if Positional(source.d.entries) {
        ForLoopSame(s.x, SortEntries(source.d.entries), s.body, ca, cb, a, b, z, fn, fuel);
      } else {
        WatchedSame(ca.env, cb.env, a, b, z, fn);
        ForLoopSame(s.x, source.d.entries, s.body, ca, cb, Watched(a), Watched(b), z, fn, fuel);
        UnwatchedSame(ForLoop(s.x, source.d.entries, s.body, ca, Watched(a), fuel),
          ForLoop(s.x, source.d.entries, s.body, cb, Watched(b), fuel), a, b, |source.d.entries| > 1, z);
      }
    }
  }

  lemma {:induction false} WatchedSame(ea: Env, eb: Env, a: State, b: State, z: Zone, fn: bool)
    requires Joint(ea, eb, a, b, z, fn)
    ensures Joint(ea, eb, Watched(a), Watched(b), z, fn) && a.watches == b.watches
  {
    hide Placed, EnvTwin, ZoneOk;
  }

  lemma {:induction false} UnwatchedSame(oa: Out<Option<Value>>, ob: Out<Option<Value>>, a: State, b: State,
          several: bool, z: Zone)
    requires Alike(oa, ob, Watched(a), Watched(b), z) && |oa.st.watches| == |a.watches| + 1
             && |ob.st.watches| == |b.watches| + 1
    requires a.watches == b.watches
    ensures Alike(Unwatched(oa, |a.watches|, several), Unwatched(ob, |b.watches|, several), a, b, z)
  {
    if !oa.st.lost && oa.r.Ok? {
      var a', b' := Unwatched(oa, |a.watches|, several).st, Unwatched(ob, |b.watches|, several).st;
      assert a'.watches == a.watches && b'.watches == b.watches;
      forall k ensures ChannelTied(ChannelOf(a, k), ChannelOf(b, k), ChannelOf(a', k), ChannelOf(b', k)) {
        assert ChannelTied(ChannelOf(Watched(a), k), ChannelOf(Watched(b), k), ChannelOf(oa.st, k),
            ChannelOf(ob.st, k));
      }
    }
  }

  lemma {:induction false} ForLoopSame(x: string, entries: seq<(Data, Data)>, body: Stmts, ca: Ctx, cb: Ctx, a: State,
          b: State, z: Zone, fn: bool, fuel: nat)
    requires Ready(ca, cb, a, b, z, fn) && SteadyStmts(body, z.rule, fn) && PartsIn(body) <= z.parts
    ensures Alike(ForLoop(x, entries, body, ca, a, fuel), ForLoop(x, entries, body, cb, b, fuel), a, b, z)
    decreases fuel, body, 2 + |entries|
  {
    hide Joint, Firm, EvalRaw, RunBody, SteadyStmts, PartsIn;
    if |entries| == 0 {
      SameRefl(ca.env, cb.env, a, b, z, fn);
    } else {
      var k, v := Known(entries[0].0), Known(entries[0].1);
      var da, db := ca.AtKey(k).In(BindVar(ca.env, x, v)), cb.AtKey(k).In(BindVar(cb.env, x, v));
      VarBound(x, v, ca.env, cb.env, a, b, z, fn);
      RunBodySame(body, Run, da, db, a, b, z, fn, fuel);
      var oa, ob := RunBody(body, Run, da, a, fuel), RunBody(body, Run, db, b, fuel);
      if !oa.st.lost && oa.r == Ok(None) {
        Onward(ca.env, cb.env, a, b, oa.st, ob.st, z, fn);
        ForLoopSame(x, entries[1..], body, ca, cb, oa.st, ob.st, z, fn, fuel);
        ThenAlike(ForLoop(x, entries[1..], body, ca, oa.st, fuel), ForLoop(x, entries[1..], body, cb, ob.st, fuel), a,
            b, oa.st, ob.st, z);
      }
    }
  }

  lemma {:induction false} ExecWithSame(body: Stmts, site: nat, ca: Ctx, cb: Ctx, a: State, b: State, z: Zone,
          fn: bool, fuel: nat)
    requires Ready(ca, cb, a, b, z, fn) && SteadyStmts(body, z.rule, fn) && PartsIn(body) <= z.parts
    ensures Alike(ExecWith(body, site, ca, a, fuel), ExecWith(body, site, cb, b, fuel), a, b, z)
    decreases fuel, body, 3
  {
    hide Joint, Firm, EvalRaw, RunBody, SteadyStmts, PartsIn, Commit;
    JointTxn(ca.env, cb.env, a, b, z, fn);
    if a.txn.None? {
      var frame := TxnFrame(site, false, WrittenIn(body), [], false);
      var a0, b0 := a.(txn := Some(frame)), b.(txn := Some(frame));
      Begun(ca.env, cb.env, a, b, frame, z, fn);
      RunBodySame(body, Run, ca, cb, a0, b0, z, fn, fuel);
      var oa, ob := RunBody(body, Run, ca, a0, fuel), RunBody(body, Run, cb, b0, fuel);
      if !oa.st.lost && oa.r.Ok? { CommitSame(a, b, frame, oa.st, ob.st, z); }
    }
  }
}
