/** Normalizing a term preserves its meaning: the normalized term has a result exactly when the
    term does, the same one, and leaves the same store and output. */
module AnfMeaning {
  import opened Options
  import opened AnfTerms
  import opened AnfPass
  import opened AnfNormal
  import opened AnfRelation
  import opened AnfChains

  /** The two runs start alike. */
  ghost predicate Aligned(muts: Muts, env: Env, env': Env, st: Store, st': Store) {
    muts == MutsOf(env.vars) && VarsLike(env.vars, env'.vars) && StoreLike(st, st')
  }

  /** The bindings ran, and `a` stands for what the operand gave; or neither has a result. */
  ghost predicate Delivered(r: Option<(Value, Store)>, b: Option<(Env, Store)>, a: Expr, k: nat) {
    if r.Some? then b.Some? && StoreLike(r.value.1, b.value.1) && Stands(a, k, r.value.0, b.value.0)
    else b.None? || Lost(a, b.value.0.vars)
  }

  ghost predicate ArgDelivered(r: Option<(Operand, Store)>, b: Option<(Env, Store)>, a: Expr, k: nat) {
    if r.Some? then b.Some? && StoreLike(r.value.1, b.value.1) && ArgStands(a, k, r.value.0, b.value.0)
    else b.None? || ArgLost(a, b.value.0.vars)
  }

  ghost predicate KeyDelivered(r: Option<(Option<Value>, Store)>, b: Option<(Env, Store)>, a: Option<Expr>, k: nat) {
    if r.Some? then
      && b.Some? && StoreLike(r.value.1, b.value.1) && (r.value.0.Some? == a.Some?)
      && (a.Some? ==> Stands(a.value, k, r.value.0.value, b.value.0))
    else b.None? || (a.Some? && Lost(a.value, b.value.0.vars))
  }

  ghost predicate ListDelivered(r: Option<(seq<Value>, Store)>, b: Option<(Env, Store)>, es: Exprs, k: nat) {
    if r.Some? then b.Some? && StoreLike(r.value.1, b.value.1) && AllStand(es, k, r.value.0, b.value.0)
    else b.None? || AnyLost(es, b.value.0.vars)
  }

  ghost predicate SpineDelivered(r: Option<(seq<Operand>, Store)>, b: Option<(Env, Store)>, e: Expr, k: nat) {
    if r.Some? then b.Some? && StoreLike(r.value.1, b.value.1) && SpineStands(e, k, r.value.0, b.value.0)
    else b.None? || SpineLost(e, b.value.0.vars)
  }

  /** A term whose normal form's core is an atom is an atom. */
  lemma AtomShape(e: Expr, muts: Muts, k: nat)
    requires Unnamed(e) && IsAtomic(Peel(Normalize(e, muts, k).0).1, muts)
    ensures !IsTempLet(Normalize(e, muts, k).0) && (e.Var? ==> e.name.Src?)
    ensures e.Lit? || e.Var? || e.Builtin? || e.Lambda?
  {
    match e {
      case Lit(_) =>
      case Var(_) =>
      case Builtin(_) =>
      case Lambda(_, _, _) =>
      case Strict(op, args) =>
        var (binds, args', _) := AtomizeList(args, muts, k);
        PeelChain(binds, Strict(op, args'));
      case Apply(_, _) =>
        var (binds, spine, _) := NormalizeSpine(e, muts, k);
        PeelChain(binds, spine);
      case Let(name, annotated, bound, body) =>
        var (bound', k1) := Normalize(bound, muts, k);
        var (binds, core) := if IsAnnotatedResult(e) then ([], bound') else Peel(bound');
        PeelChain(binds, Let(name, annotated, core, Normalize(body, muts, k1).0));
      case MutDecl(_, _, _) =>
      case ExprStmt(effect, body) =>
        var (binds, effect', k1) := AtomizeEffect(effect, muts, k);
        PeelChain(binds, ExprStmt(effect', Normalize(body, muts, k1).0));
      case Case(_, _) =>
      case Begin(_) =>
      case _ =>
        MarkerCounts(e, muts, k);
        var (binds, e', _) := AtomizeMarker(e, muts, k);
        PeelChain(binds, e');
    }
  }

  lemma {:induction false} AtomMeans(e: Expr, muts: Muts, k: nat, env: Env, env': Env, st: Store, st': Store, fuel: nat)
    requires Given(e, muts) && Aligned(muts, env, env', st, st')
    ensures var (binds, a, k1) := Atomize(e, muts, k);
            Delivered(Eval(e, env, st, fuel), RunBinds(binds, env', st', fuel), a, k1)
    decreases fuel, 1, e, 2
  {
    Means(e, muts, k, env, env', st, st', fuel);
    var (n, k1) := Normalize(e, muts, k);
    var (binds, core) := Peel(n);
    Reached(e, muts, k);
    PeelUndone(n, muts);
    ChainRuns(binds, core, env', st', fuel);
    MutsLike(env.vars, env'.vars);
    if IsAtomic(core, muts) {
      AtomShape(e, muts, k);
      AtomRuns(core, env', st', fuel);
    } else {
      NamedMeans(e, binds, core, k1, env, env', st, st', fuel);
    }
  }

  /** The value of a compound operand, under its fresh name. */
  lemma NamedMeans(e: Expr, binds: Binds, core: Expr, k: nat, env: Env, env': Env, st: Store, st': Store, fuel: nat)
    requires VarsLike(env.vars, env'.vars)
    requires ResultLike(Eval(e, env, st, fuel), Then(RunBinds(binds, env', st', fuel), core, fuel))
    ensures Delivered(Eval(e, env, st, fuel), RunBinds(binds + [(k, core)], env', st', fuel), Var(Temp(k)), k + 1)
  {
    var last: Binds := [(k, core)];
    JoinedRuns(binds, last, env', st', fuel);
    var b := RunBinds(binds, env', st', fuel);
    if b.Some? {
      var r := Eval(core, b.value.0, b.value.1, fuel);
      if r.Some? {
        assert last[1..] == [];
        assert RunBinds(last, b.value.0, b.value.1, fuel) == Some((b.value.0.Bind(Temp(k), r.value.0), r.value.1));
      }
    }
  }

  lemma {:induction false} ArgMeans(e: Expr, muts: Muts, k: nat, env: Env, env': Env, st: Store, st': Store, fuel: nat)
    requires Given(e, muts) && Aligned(muts, env, env', st, st')
    ensures var (binds, a, k1) := AtomizeHandle(e, muts, k);
            ArgDelivered(EvalOperand(e, env, st, fuel), RunBinds(binds, env', st', fuel), a, k1)
    decreases fuel, 1, e, 3
  {
    if e.Var? && e.name.Src? {
      InMuts(env.vars, e.name.id);
      LookupLike(env.vars, env'.vars, e.name.id);
    }
    if !IsMutVar(e, muts) { AtomMeans(e, muts, k, env, env', st, st', fuel); }
  }

  lemma {:induction false} KeyMeans(key: Option<Expr>, muts: Muts, k: nat, env: Env, env': Env, st: Store, st': Store,
          fuel: nat)
    requires (key.Some? ==> Given(key.value, muts)) && Aligned(muts, env, env', st, st')
    ensures var (binds, a, k1) := AtomizeKey(key, muts, k);
            KeyDelivered(EvalKey(key, env, st, fuel), RunBinds(binds, env', st', fuel), a, k1)
    decreases fuel, 1, key, 3
  {
    if key.Some? { AtomMeans(key.value, muts, k, env, env', st, st', fuel); }
  }

  lemma {:induction false} ListMeans(es: Exprs, muts: Muts, k: nat, env: Env, env': Env, st: Store, st': Store,
          fuel: nat)
    requires UnnamedAll(es) && UnshadowedAll(es, muts) && Aligned(muts, env, env', st, st')
    ensures var (binds, as_, k1) := AtomizeList(es, muts, k);
            ListDelivered(EvalAll(es, env, st, fuel), RunBinds(binds, env', st', fuel), as_, k1)
    decreases fuel, 1, es, 3
  {
    if es.More? {
      AtomMeans(es.head, muts, k, env, env', st, st', fuel);
      AtomCounts(es.head, muts, k);
      var (binds, a, k1) := Atomize(es.head, muts, k);
      var (binds2, as_, k2) := AtomizeList(es.tail, muts, k1);
      ListCounts(es.tail, muts, k1);
      JoinedRuns(binds, binds2, env', st', fuel);
      var r, b := Eval(es.head, env, st, fuel), RunBinds(binds, env', st', fuel);
      if b.Some? {
        RunKeepsVars(binds, env', st', fuel);
        var (env1, st1) := b.value;
        var b2 := RunBinds(binds2, env1, st1, fuel);
        if b2.Some? { RunKeeps(binds2, k1, k2, env1, st1, fuel); }
        if r.Some? {
          ListMeans(es.tail, muts, k1, env, env1, r.value.1, st1, fuel);
          ListJoins(es.tail, r, env, fuel, b2, a, as_, k1, k2, env1);
        }
      }
    }
  }

  /** A first operand and the rest, both delivered. */
  lemma ListJoins(rest: Exprs, r: Option<(Value, Store)>, env: Env, fuel: nat, b2: Option<(Env, Store)>, a: Expr,
          as_: Exprs, k1: nat, k2: nat, env1: Env)
    requires r.Some? && Stands(a, k1, r.value.0, env1) && k1 <= k2
    requires b2.Some? ==> Kept(env1, b2.value.0, k1)
    requires ListDelivered(EvalAll(rest, env, r.value.1, fuel), b2, as_, k2)
    ensures var r2 := EvalAll(rest, env, r.value.1, fuel);
            ListDelivered(if r2.None? then None else Some(([r.value.0] + r2.value.0, r2.value.1)), b2, More(a, as_), k2)
  {
    var r2 := EvalAll(rest, env, r.value.1, fuel);
    if r2.Some? {
      StillStands(a, k1, r.value.0, env1, b2.value.0, k2);
      assert ([r.value.0] + r2.value.0)[1..] == r2.value.0;
    }
  }

  /** The argument of the lookup, which is a value. */
  lemma {:induction false} TupleMeans(e: Expr, muts: Muts, k: nat, env: Env, env': Env, st: Store, st': Store,
          fuel: nat)
    requires Given(e, muts) && Aligned(muts, env, env', st, st')
    ensures var (binds, a, k1) := AtomizeTupleElements(e, muts, k);
            var r := EvalArgument(Builtin(LookupChecked), e, env, st, fuel);
            ArgDelivered(r, RunBinds(binds, env', st', fuel), a, k1) && (r.Some? ==> r.value.0.Ready?)
    decreases fuel, 1, e, 3
  {
    if e.Strict? && e.op.MkTuple? {
      ListMeans(e.args, muts, k, env, env', st, st', fuel);
    } else {
      AtomMeans(e, muts, k, env, env', st, st', fuel);
    }
  }

  /** Only the lookup itself normalizes to it. */
  lemma LookupStays(e: Expr, muts: Muts, k: nat)
    requires Unnamed(e)
    ensures NormalizeSpine(e, muts, k).1 == Builtin(LookupChecked) <==> e == Builtin(LookupChecked)
  {
    if !e.Apply? && !IsMutVar(e, muts) {
      var core := Peel(Normalize(e, muts, k).0).1;
      assert NormalizeSpine(e, muts, k) == Atomize(e, muts, k);
      if IsAtomic(core, muts) {
        AtomShape(e, muts, k);
        assert Peel(Normalize(e, muts, k).0).1 == Normalize(e, muts, k).0;
        assert e.Lambda? || Normalize(e, muts, k).0 == e;
      } else {
        assert !e.Builtin?;
      }
    }
  }

  /** A spine and one more argument, both delivered. */
  lemma SpineJoins(r: Option<(Operand, Store)>, os: seq<Operand>, b: Option<(Env, Store)>, f: Expr, a: Expr, k1: nat,
          k2: nat, env1: Env)
    requires SpineStands(f, k1, os, env1) && os != [] && k1 <= k2 && (b.Some? ==> Kept(env1, b.value.0, k1))
    requires ArgDelivered(r, b, a, k2) && (f == Builtin(LookupChecked) && r.Some? ==> r.value.0.Ready?)
    ensures SpineDelivered(if r.None? then None else Some((os + [r.value.0], r.value.1)), b, Apply(f, a), k2)
  {
    if r.Some? {
      SpineStillStands(f, k1, os, env1, b.value.0, k2);
      assert (os + [r.value.0])[..|os|] == os;
    }
  }

  lemma {:induction false} SpineMeans(e: Expr, muts: Muts, k: nat, env: Env, env': Env, st: Store, st': Store,
          fuel: nat)
    requires Given(e, muts) && Aligned(muts, env, env', st, st')
    ensures var (binds, e', k1) := NormalizeSpine(e, muts, k);
            SpineDelivered(EvalSpine(e, env, st, fuel), RunBinds(binds, env', st', fuel), e', k1)
    decreases fuel, 1, e, if e.Apply? then 0 else 4, 0
  {
    if !e.Apply? {
      ArgMeans(e, muts, k, env, env', st, st', fuel);
    } else {
      SpineMeans(e.function_, muts, k, env, env', st, st', fuel);
      SpineCounts(e.function_, muts, k);
      LookupStays(e.function_, muts, k);
      var (binds, f, k1) := NormalizeSpine(e.function_, muts, k);
      var (binds2, a, k2) := if f == Builtin(LookupChecked) then AtomizeTupleElements(e.argument, muts, k1)
          else AtomizeHandle(e.argument, muts, k1);
      if f == Builtin(LookupChecked) { TupleCounts(e.argument, muts, k1); } else { HandleCounts(e.argument, muts, k1); }
      JoinedRuns(binds, binds2, env', st', fuel);
      var r, b := EvalSpine(e.function_, env, st, fuel), RunBinds(binds, env', st', fuel);
      if b.Some? {
        RunKeepsVars(binds, env', st', fuel);
        var (env1, st1) := b.value;
        var b2 := RunBinds(binds2, env1, st1, fuel);
        if b2.Some? { RunKeeps(binds2, k1, k2, env1, st1, fuel); }
        if r.Some? {
          if f == Builtin(LookupChecked) {
            TupleMeans(e.argument, muts, k1, env, env1, r.value.1, st1, fuel);
          } else {
            ArgMeans(e.argument, muts, k1, env, env1, r.value.1, st1, fuel);
          }
          SpineJoins(EvalArgument(e.function_, e.argument, env, r.value.1, fuel), r.value.0, b2, f, a, k1, k2, env1);
        }
      }
    }
  }

  lemma {:induction false} Means(e: Expr, muts: Muts, k: nat, env: Env, env': Env, st: Store, st': Store, fuel: nat)
    requires Given(e, muts) && Aligned(muts, env, env', st, st')
    ensures ResultLike(Eval(e, env, st, fuel), Eval(Normalize(e, muts, k).0, env', st', fuel))
    decreases fuel, 1, e, 1
  {
    match e {
      case Lit(_) =>
      case Var(name) => VarMeans(name, env, env', st, st');
      case Builtin(_) =>
      case Lambda(param, byRef, body) => assert Translated(body, Normalize(body, Under(muts, param, byRef), k).0,
          Under(muts, param, byRef));
      case Strict(op, args) => StrictMeans(e, muts, k, env, env', st, st', fuel);
      case Apply(_, _) => ApplyMeans(e, muts, k, env, env', st, st', fuel);
      case Let(_, _, _, _) => LetMeans(e, muts, k, env, env', st, st', fuel);
      case MutDecl(x, init, body) =>
        Means(init, muts, k, env, env', st, st', fuel);
        var r, r' := Eval(init, env, st, fuel), Eval(Normalize(init, muts, k).0, env', st', fuel);
        if r.Some? {
          var l := |r.value.1.cells|;
          var st1, st1' := r.value.1.(cells := r.value.1.cells + [r.value.0]),
              r'.value.1.(cells := r'.value.1.cells + [r'.value.0]);
          Means(body, Under(muts, x, true), Normalize(init, muts, k).1, env.At(x, Loc(l)), env'.At(x, Loc(l)), st1,
              st1', fuel);
        }
      case ExprStmt(_, _) => StatementMeans(e, muts, k, env, env', st, st', fuel);
      case Case(scrutinee, branches) => CaseMeans(e, muts, k, env, env', st, st', fuel);
      case Begin(body) => Means(body, muts, k, env, env', st, st', fuel);
      case _ =>
        MarkerMeans(e, muts, k, env, env', st, st', fuel);
        var (binds, e', _) := AtomizeMarker(e, muts, k);
        ChainRuns(binds, e', env', st', fuel);
    }
  }

  lemma VarMeans(name: Name, env: Env, env': Env, st: Store, st': Store)
    requires name.Src? && VarsLike(env.vars, env'.vars) && StoreLike(st, st')
    ensures ValuesLike(EvalVar(name, env, st), EvalVar(name, env', st'))
  {
    LookupLike(env.vars, env'.vars, name.id);
  }

  lemma {:induction false} StrictMeans(e: Expr, muts: Muts, k: nat, env: Env, env': Env, st: Store, st': Store,
          fuel: nat)
    requires Given(e, muts) && Aligned(muts, env, env', st, st') && e.Strict?
    ensures ResultLike(Eval(e, env, st, fuel), Eval(Normalize(e, muts, k).0, env', st', fuel))
    decreases fuel, 1, e, 0
  {
    ListMeans(e.args, muts, k, env, env', st, st', fuel);
    var (binds, args, k1) := AtomizeList(e.args, muts, k);
    ChainRuns(binds, Strict(e.op, args), env', st', fuel);
    var r, b := EvalAll(e.args, env, st, fuel), RunBinds(binds, env', st', fuel);
    if b.Some? {
      if r.Some? {
        AllStandRun(args, k1, r.value.0, b.value.0, b.value.1, fuel);
        InterpretLike(e.op, r.value.0, EvalAll(args, b.value.0, b.value.1, fuel).value.0);
      } else {
        AnyLostRun(args, b.value.0, b.value.1, fuel);
      }
    }
  }

  lemma {:induction false} ApplyMeans(e: Expr, muts: Muts, k: nat, env: Env, env': Env, st: Store, st': Store,
          fuel: nat)
    requires Given(e, muts) && Aligned(muts, env, env', st, st') && e.Apply?
    ensures ResultLike(Eval(e, env, st, fuel), Eval(Normalize(e, muts, k).0, env', st', fuel))
    decreases fuel, 1, e, 0, 1
  {
    SpineMeans(e, muts, k, env, env', st, st', fuel);
    SpineCounts(e, muts, k);
    var (binds, spine, k1) := NormalizeSpine(e, muts, k);
    ChainRuns(binds, spine, env', st', fuel);
    var r, b := EvalSpine(e, env, st, fuel), RunBinds(binds, env', st', fuel);
    if b.Some? {
      if r.Some? {
        SpineStandsRun(spine, k1, r.value.0, b.value.0, b.value.1, fuel);
        var os, os' := r.value.0, EvalSpine(spine, b.value.0, b.value.1, fuel).value.0;
        DerefLike(os[0], os'[0], r.value.1, b.value.1);
        var f, f' := Deref(os[0], r.value.1), Deref(os'[0], b.value.1);
        if f.Some? { CallMeans(f.value, f'.value, os[1..], os'[1..], r.value.1, b.value.1, fuel); }
      } else {
        SpineLostRun(spine, b.value.0, b.value.1, fuel);
      }
    }
  }

  lemma {:induction false} CallMeans(f: Value, f': Value, os: seq<Operand>, os': seq<Operand>, st: Store, st': Store,
          fuel: nat)
    requires Like(f, f') && OperandsLike(os, os') && StoreLike(st, st')
    ensures ResultLike(Call(f, os, st, fuel), Call(f', os', st', fuel))
    decreases fuel, 0, |os|
  {
    if os != [] {
      CallOneMeans(f, f', os[0], os'[0], st, st', fuel);
      var r, r' := CallOne(f, os[0], st, fuel), CallOne(f', os'[0], st', fuel);
      if r.Some? { CallMeans(r.value.0, r'.value.0, os[1..], os'[1..], r.value.1, r'.value.1, fuel); }
    }
  }

  lemma {:induction false} CallOneMeans(f: Value, f': Value, o: Operand, o': Operand, st: Store, st': Store, fuel: nat)
    requires Like(f, f') && OperandLike(o, o') && StoreLike(st, st')
    ensures ResultLike(CallOne(f, o, st, fuel), CallOne(f', o', st', fuel))
    decreases fuel, 0, 0
  {
    DerefLike(o, o', st, st');
    if f.Native? {
      if Deref(o, st).Some? { NativeLike(f.fn, Deref(o, st).value, Deref(o', st').value); }
    } else if f.Closure? && fuel > 0 {
      var muts := MutsOf(f.env.vars);
      var inner := Under(muts, f.param, f.byRef);
      var k :| Normalize(f.body, inner, k).0 == f'.body;
      if f.byRef {
        if o.Handle? {
          Means(f.body, inner, k, f.env.At(f.param, Loc(o.l)), f'.env.At(f.param, Loc(o.l)), st, st', fuel - 1);
        }
      } else if Deref(o, st).Some? {
        var v, v' := Deref(o, st).value, Deref(o', st').value;
        assert MutsOf(f.env.At(f.param, Val(v)).vars) == muts;
        Means(f.body, inner, k, f.env.At(f.param, Val(v)), f'.env.At(f.param, Val(v')), st, st', fuel - 1);
      }
    }
  }

  lemma {:induction false} LetMeans(e: Expr, muts: Muts, k: nat, env: Env, env': Env, st: Store, st': Store, fuel: nat)
    requires Given(e, muts) && Aligned(muts, env, env', st, st') && e.Let?
    ensures ResultLike(Eval(e, env, st, fuel), Eval(Normalize(e, muts, k).0, env', st', fuel))
    decreases fuel, 1, e, 0
  {
    Means(e.bound, muts, k, env, env', st, st', fuel);
    var (bound, k1) := Normalize(e.bound, muts, k);
    var (binds, core) := if IsAnnotatedResult(e) then ([], bound) else Peel(bound);
    Reached(e.bound, muts, k);
    PeelUndone(bound, muts);
    ChainRuns(binds, core, env', st', fuel);
    var body := Normalize(e.body, muts, k1).0;
    ChainRuns(binds, Let(e.name, e.annotated, core, body), env', st', fuel);
    var r, b := Eval(e.bound, env, st, fuel), RunBinds(binds, env', st', fuel);
    if r.Some? {
      RunKeepsVars(binds, env', st', fuel);
      var r' := Eval(core, b.value.0, b.value.1, fuel);
      var env1, env1' := env.Bind(e.name, r.value.0), b.value.0.Bind(e.name, r'.value.0);
      assert MutsOf(env1.vars) == muts;
      Means(e.body, muts, k1, env1, env1', r.value.1, r'.value.1, fuel);
    }
  }

  lemma {:induction false} StatementMeans(e: Expr, muts: Muts, k: nat, env: Env, env': Env, st: Store, st': Store,
          fuel: nat)
    requires Given(e, muts) && Aligned(muts, env, env', st, st') && e.ExprStmt?
    ensures ResultLike(Eval(e, env, st, fuel), Eval(Normalize(e, muts, k).0, env', st', fuel))
    decreases fuel, 1, e, 0
  {
    EffectMeans(e.effect, muts, k, env, env', st, st', fuel);
    var (binds, effect, k1) := AtomizeEffect(e.effect, muts, k);
    var body := Normalize(e.body, muts, k1).0;
    ChainRuns(binds, ExprStmt(effect, body), env', st', fuel);
    var r, b := Eval(e.effect, env, st, fuel), RunBinds(binds, env', st', fuel);
    if r.Some? {
      RunKeepsVars(binds, env', st', fuel);
      var r' := Eval(effect, b.value.0, b.value.1, fuel);
      Means(e.body, muts, k1, env, b.value.0, r.value.1, r'.value.1, fuel);
    }
  }

  lemma {:induction false} EffectMeans(e: Expr, muts: Muts, k: nat, env: Env, env': Env, st: Store, st': Store,
          fuel: nat)
    requires Given(e, muts) && Aligned(muts, env, env', st, st')
    ensures var (binds, e', _) := AtomizeEffect(e, muts, k);
            ResultLike(Eval(e, env, st, fuel), Then(RunBinds(binds, env', st', fuel), e', fuel))
    decreases fuel, 1, e, 2
  {
    if e.Case? {
      KeyMeans(e.scrutinee, muts, k, env, env', st, st', fuel);
      var (binds, scrutinee, k1) := AtomizeKey(e.scrutinee, muts, k);
      var (branches, _) := NormalizeBranches(e.branches, muts, k1);
      var r, b := EvalKey(e.scrutinee, env, st, fuel), RunBinds(binds, env', st', fuel);
      if b.Some? {
        RunKeepsVars(binds, env', st', fuel);
        KeyRuns(r, b, scrutinee, k1, fuel);
        if r.Some? {
          ChooseMeans(r.value.0, EvalKey(scrutinee, b.value.0, b.value.1, fuel).value.0, e.branches, muts, k1, env,
              b.value.0, r.value.1, b.value.1, fuel);
        }
      }
    } else if IsMarker(e) {
      MarkerMeans(e, muts, k, env, env', st, st', fuel);
    } else {
      Means(e, muts, k, env, env', st, st', fuel);
    }
  }

  /** Running the atom a key was delivered as. */
  lemma KeyRuns(r: Option<(Option<Value>, Store)>, b: Option<(Env, Store)>, a: Option<Expr>, k: nat, fuel: nat)
    requires KeyDelivered(r, b, a, k) && b.Some?
    ensures var r' := EvalKey(a, b.value.0, b.value.1, fuel);
            r.Some? == r'.Some? && (r.Some? ==> ValuesLike(r.value.0, r'.value.0) && r'.value.1 == b.value.1)
  {
    if r.Some? && a.Some? { AtomRuns(a.value, b.value.0, b.value.1, fuel); }
  }

  lemma {:induction false} CaseMeans(e: Expr, muts: Muts, k: nat, env: Env, env': Env, st: Store, st': Store, fuel: nat)
    requires Given(e, muts) && Aligned(muts, env, env', st, st') && e.Case?
    ensures ResultLike(Eval(e, env, st, fuel), Eval(Normalize(e, muts, k).0, env', st', fuel))
    decreases fuel, 1, e, 0
  {
    if e.scrutinee.Some? { Means(e.scrutinee.value, muts, k, env, env', st, st', fuel); }
    var (scrutinee, k1) := NormalizeScrutinee(e.scrutinee, muts, k);
    var r, r' := EvalKey(e.scrutinee, env, st, fuel), EvalKey(scrutinee, env', st', fuel);
    if r.Some? {
      ChooseMeans(r.value.0, r'.value.0, e.branches, muts, k1, env, env', r.value.1, r'.value.1, fuel);
    }
  }

  lemma {:induction false} ChooseMeans(v: Option<Value>, v': Option<Value>, bs: Branches, muts: Muts, k: nat, env: Env,
          env': Env, st: Store, st': Store, fuel: nat)
    requires UnnamedBranches(bs) && UnshadowedBranches(bs, muts) && Aligned(muts, env, env', st, st')
             && ValuesLike(v, v')
    ensures ResultLike(Choose(v, bs, env, st, fuel), Choose(v', NormalizeBranches(bs, muts, k).0, env', st', fuel))
    decreases fuel, 1, bs, 3
  {
    if bs.MoreBranches? {
      var k1 := Normalize(bs.guard, muts, k).1;
      var k2 := Normalize(bs.body, muts, k1).1;
      if v.Some? { MatchedLike(bs.pattern, v.value, v'.value, env, env'); }
      var inner := if v.Some? then Matched(bs.pattern, v.value, env) else Some(env);
      var inner' := if v.Some? then Matched(bs.pattern, v'.value, env') else Some(env');
      if inner.None? {
        ChooseMeans(v, v', bs.rest, muts, k2, env, env', st, st', fuel);
      } else {
        Means(bs.guard, muts, k, inner.value, inner'.value, st, st', fuel);
        var r, r' := Eval(bs.guard, inner.value, st, fuel),
            Eval(Normalize(bs.guard, muts, k).0, inner'.value, st', fuel);
        if r.Some? {
          if r.value.0 == Truth(true) {
            Means(bs.body, muts, k1, inner.value, inner'.value, r.value.1, r'.value.1, fuel);
          } else {
            ChooseMeans(v, v', bs.rest, muts, k2, env, env', r.value.1, r'.value.1, fuel);
          }
        }
      }
    }
  }

  lemma {:induction false} MarkerMeans(e: Expr, muts: Muts, k: nat, env: Env, env': Env, st: Store, st': Store,
          fuel: nat)
    requires Given(e, muts) && Aligned(muts, env, env', st, st') && IsMarker(e)
    ensures var (binds, e', _) := AtomizeMarker(e, muts, k);
            ResultLike(Eval(e, env, st, fuel), Then(RunBinds(binds, env', st', fuel), e', fuel))
    decreases fuel, 1, e, 0, 1
  {
    if e.MutWrite? {
      MutWriteMeans(e, muts, k, env, env', st, st', fuel);
    } else if e.For? {
      ForMeans(e, muts, k, env, env', st, st', fuel);
    } else {
      ArgMeans(e.value, muts, k, env, env', st, st', fuel);
      var (binds, a, k1) := AtomizeHandle(e.value, muts, k);
      var r, b := EvalOperand(e.value, env, st, fuel), RunBinds(binds, env', st', fuel);
      if b.Some? {
        if r.Some? {
          ArgStandsRun(a, k1, r.value.0, b.value.0, b.value.1, fuel);
          DerefLike(r.value.0, EvalOperand(a, b.value.0, b.value.1, fuel).value.0, r.value.1, b.value.1);
        } else {
          ArgLostRun(a, b.value.0, b.value.1, fuel);
        }
      }
    }
  }

  lemma {:induction false} ForMeans(e: Expr, muts: Muts, k: nat, env: Env, env': Env, st: Store, st': Store, fuel: nat)
    requires Given(e, muts) && Aligned(muts, env, env', st, st') && e.For?
    ensures var (binds, e', _) := AtomizeMarker(e, muts, k);
            ResultLike(Eval(e, env, st, fuel), Then(RunBinds(binds, env', st', fuel), e', fuel))
    decreases fuel, 1, e, 0, 0
  {
    AtomMeans(e.iter, muts, k, env, env', st, st', fuel);
    var (binds, a, k1) := Atomize(e.iter, muts, k);
    var r, b := Eval(e.iter, env, st, fuel), RunBinds(binds, env', st', fuel);
    if b.Some? && r.Some? {
      RunKeepsVars(binds, env', st', fuel);
      AtomRuns(a, b.value.0, b.value.1, fuel);
      var v' := AtomValue(a, b.value.0).value;
      if r.value.0.List? {
        LoopMeans(e.target, r.value.0.elements, v'.elements, e.body, muts, k1, env, b.value.0, r.value.1, b.value.1,
            fuel);
      }
    } else if b.Some? {
      LostRuns(a, b.value.0, b.value.1, fuel);
    }
  }

  lemma {:induction false} LoopMeans(x: string, vs: seq<Value>, vs': seq<Value>, body: Expr, muts: Muts, k: nat,
          env: Env, env': Env, st: Store, st': Store, fuel: nat)
    requires Given(body, muts) && x !in muts && Aligned(muts, env, env', st, st') && AllLike(vs, vs')
    ensures ResultLike(Loop(x, vs, body, env, st, fuel), Loop(x, vs', Normalize(body, muts, k).0, env', st', fuel))
    decreases fuel, 1, body, 2, |vs|
  {
    if vs != [] {
      var env1, env1' := env.At(x, Val(vs[0])), env'.At(x, Val(vs'[0]));
      assert MutsOf(env1.vars) == muts;
      Means(body, muts, k, env1, env1', st, st', fuel);
      var r, r' := Eval(body, env1, st, fuel), Eval(Normalize(body, muts, k).0, env1', st', fuel);
      if r.Some? { LoopMeans(x, vs[1..], vs'[1..], body, muts, k, env, env', r.value.1, r'.value.1, fuel); }
    }
  }

  lemma {:induction false} MutWriteMeans(e: Expr, muts: Muts, k: nat, env: Env, env': Env, st: Store, st': Store,
          fuel: nat)
    requires Given(e, muts) && Aligned(muts, env, env', st, st') && e.MutWrite?
    ensures var (binds, e', _) := AtomizeMarker(e, muts, k);
            ResultLike(Eval(e, env, st, fuel), Then(RunBinds(binds, env', st', fuel), e', fuel))
    decreases fuel, 1, e, 0, 0
  {
    hide Stands, Lost, StoreLike, Like;
    KeyMeans(e.key, muts, k, env, env', st, st', fuel);
    var (binds, key, k1) := AtomizeKey(e.key, muts, k);
    var (binds2, value, k2) := Atomize(e.value, muts, k1);
    AtomCounts(e.value, muts, k1);
    JoinedRuns(binds, binds2, env', st', fuel);
    var r, b := EvalKey(e.key, env, st, fuel), RunBinds(binds, env', st', fuel);
    if b.Some? {
      RunKeepsVars(binds, env', st', fuel);
      var (env1, st1) := b.value;
      var b2 := RunBinds(binds2, env1, st1, fuel);
      if b2.Some? { RunKeeps(binds2, k1, k2, env1, st1, fuel); }
      if r.Some? {
        AtomMeans(e.value, muts, k1, env, env1, r.value.1, st1, fuel);
        var rv := Eval(e.value, env, r.value.1, fuel);
        if rv.Some? {
          if key.Some? { StillStands(key.value, k1, r.value.0.value, env1, b2.value.0, k2); }
          WriteMeans(e.x, r.value.0, rv.value, key, value, k2, env, b2.value.0, b2.value.1, fuel);
        } else if b2.Some? {
          WriteFails(e.x, key, value, b2.value.0, b2.value.1, fuel);
        }
      } else if b2.Some? {
        WriteFails(e.x, key, value, b2.value.0, b2.value.1, fuel);
      }
    }
  }

  lemma LostRuns(a: Expr, env: Env, st: Store, fuel: nat)
    requires Lost(a, env.vars)
    ensures Eval(a, env, st, fuel).None?
  {
  }

  lemma WriteFails(x: string, key: Option<Expr>, value: Expr, env: Env, st: Store, fuel: nat)
    requires Lost(value, env.vars) || (key.Some? && Lost(key.value, env.vars))
    ensures Eval(MutWrite(x, key, value), env, st, fuel).None?
  {
    var r := EvalKey(key, env, st, fuel);
    if key.Some? && Lost(key.value, env.vars) {
      LostRuns(key.value, env, st, fuel);
    } else if r.Some? {
      LostRuns(value, env, r.value.1, fuel);
    }
  }

  /** A write whose key and value are delivered. */
  lemma WriteMeans(x: string, k: Option<Value>, r: (Value, Store), key: Option<Expr>, value: Expr, k2: nat, env: Env,
          env': Env, st': Store, fuel: nat)
    requires VarsLike(env.vars, env'.vars) && StoreLike(r.1, st') && Stands(value, k2, r.0, env')
    requires k.Some? == key.Some? && (key.Some? ==> Stands(key.value, k2, k.value, env'))
    ensures ResultLike(WriteTo(Lookup(env.vars, x), k, r.0, r.1), Eval(MutWrite(x, key, value), env', st', fuel))
  {
    AtomRuns(value, env', st', fuel);
    if key.Some? { AtomRuns(key.value, env', st', fuel); }
    var k' := if key.Some? then Some(AtomValue(key.value, env').value) else None;
    WriteLike(env.vars, env'.vars, x, k, k', r.0, AtomValue(value, env').value, r.1, st');
  }

  // ----- Whole programs -----

  const EMPTY := Env(NoVars, map[])

  /** The binders of `e`, in order. */
  function Binders(e: Expr): seq<string> {
    match e
    case Lit(_) => []
    case Var(_) => []
    case Builtin(_) => []
    case Lambda(param, _, body) => [param] + Binders(body)
    case Strict(_, args) => BindersAll(args)
    case Apply(f, a) => Binders(f) + Binders(a)
    case Let(name, _, bound, body) => (if name.Src? then [name.id] else []) + Binders(bound) + Binders(body)
    case MutDecl(x, init, body) => [x] + Binders(init) + Binders(body)
    case ExprStmt(effect, body) => Binders(effect) + Binders(body)
    case MutWrite(_, key, value) => (if key.Some? then Binders(key.value) else []) + Binders(value)
    case For(target, iter, body) => [target] + Binders(iter) + Binders(body)
    case Case(scrutinee, branches) => (if scrutinee.Some? then Binders(scrutinee.value) else [])
        + BindersBranches(branches)
    case Feed(_, value) => Binders(value)
    case Define(_, value) => Binders(value)
    case Begin(body) => Binders(body)
  }

  function BindersAll(es: Exprs): seq<string> {
    if es.NoExprs? then [] else Binders(es.head) + BindersAll(es.tail)
  }

  function BindersBranches(bs: Branches): seq<string> {
    if bs.NoBranches? then []
    else PatternBinder(bs.pattern) + Binders(bs.guard) + Binders(bs.body) + BindersBranches(bs.rest)
  }

  function PatternBinder(p: Pattern): seq<string> {
    match p
    case Wild => []
    case Named(x) => [x]
    case Tagged(_, x) => [x]
  }

  ghost predicate NoRepeats(s: seq<string>) {
    forall i, j :: 0 <= i < j < |s| ==> s[i] != s[j]
  }

  ghost predicate Apart(s: seq<string>, muts: Muts) {
    forall i :: 0 <= i < |s| ==> s[i] !in muts
  }

  lemma Halves(a: seq<string>, b: seq<string>, muts: Muts)
    requires NoRepeats(a + b) && Apart(a + b, muts)
    ensures NoRepeats(a) && NoRepeats(b) && Apart(a, muts) && Apart(b, muts)
    ensures forall x :: x in a ==> x !in b
  {
    var s := a + b;
    assert forall i :: 0 <= i < |a| ==> s[i] == a[i];
    assert forall i :: 0 <= i < |b| ==> s[|a| + i] == b[i];
  }

  /** Under unique binders no binder takes the name of a mutable variable in its scope. */
  lemma {:induction false} UniqueBinders(e: Expr, muts: Muts)
    requires NoRepeats(Binders(e)) && Apart(Binders(e), muts)
    ensures Unshadowed(e, muts)
  {
    match e {
      case Lit(_) =>
      case Var(_) =>
      case Builtin(_) =>
      case Lambda(param, byRef, body) =>
        Halves([param], Binders(body), muts);
        assert param in [param];
        UniqueBinders(body, Under(muts, param, byRef));
      case Strict(_, args) => UniqueAll(args, muts);
      case Apply(f, a) =>
        Halves(Binders(f), Binders(a), muts);
        UniqueBinders(f, muts);
        UniqueBinders(a, muts);
      case Let(name, _, bound, body) =>
        var own := if name.Src? then [name.id] else [];
        Halves(own + Binders(bound), Binders(body), muts);
        Halves(own, Binders(bound), muts);
        assert name.Src? ==> own[0] == name.id;
        UniqueBinders(bound, muts);
        UniqueBinders(body, muts);
      case MutDecl(x, init, body) =>
        Halves([x] + Binders(init), Binders(body), muts);
        Halves([x], Binders(init), muts);
        assert x in [x] + Binders(init);
        UniqueBinders(init, muts);
        UniqueBinders(body, Under(muts, x, true));
      case ExprStmt(effect, body) =>
        Halves(Binders(effect), Binders(body), muts);
        UniqueBinders(effect, muts);
        UniqueBinders(body, muts);
      case MutWrite(_, key, value) =>
        Halves(if key.Some? then Binders(key.value) else [], Binders(value), muts);
        if key.Some? { UniqueBinders(key.value, muts); }
        UniqueBinders(value, muts);
      case For(target, iter, body) =>
        Halves([target] + Binders(iter), Binders(body), muts);
        Halves([target], Binders(iter), muts);
        assert [target][0] == target;
        UniqueBinders(iter, muts);
        UniqueBinders(body, muts);
      case Case(scrutinee, branches) =>
        Halves(if scrutinee.Some? then Binders(scrutinee.value) else [], BindersBranches(branches), muts);
        if scrutinee.Some? { UniqueBinders(scrutinee.value, muts); }
        UniqueBranches(branches, muts);
      case Feed(_, value) => UniqueBinders(value, muts);
      case Define(_, value) => UniqueBinders(value, muts);
      case Begin(body) => UniqueBinders(body, muts);
    }
  }

  lemma {:induction false} UniqueAll(es: Exprs, muts: Muts)
    requires NoRepeats(BindersAll(es)) && Apart(BindersAll(es), muts)
    ensures UnshadowedAll(es, muts)
  {
    if es.More? {
      Halves(Binders(es.head), BindersAll(es.tail), muts);
      UniqueBinders(es.head, muts);
      UniqueAll(es.tail, muts);
    }
  }

  lemma {:induction false} UniqueBranches(bs: Branches, muts: Muts)
    requires NoRepeats(BindersBranches(bs)) && Apart(BindersBranches(bs), muts)
    ensures UnshadowedBranches(bs, muts)
  {
    if bs.MoreBranches? {
      var own := PatternBinder(bs.pattern);
      Halves(own + Binders(bs.guard) + Binders(bs.body), BindersBranches(bs.rest), muts);
      Halves(own + Binders(bs.guard), Binders(bs.body), muts);
      Halves(own, Binders(bs.guard), muts);
      assert own != [] ==> own[0] !in muts;
      UniqueBinders(bs.guard, muts);
      UniqueBinders(bs.body, muts);
      UniqueBranches(bs.rest, muts);
    }
  }

  /** The pass, from no mutable variables. */
  function Run(e: Expr): Expr {
    Normalize(e, {}, 0).0
  }

  ghost predicate PlainStore(st: Store) {
    && (forall i :: 0 <= i < |st.cells| ==> Plain(st.cells[i]))
    && (forall i :: 0 <= i < |st.out| ==> Plain(st.out[i].v))
  }

  lemma StoreSame(st: Store, st': Store)
    requires StoreLike(st, st') && PlainStore(st)
    ensures st == st'
  {
    AllSame(st.cells, st'.cells);
    forall i | 0 <= i < |st.out|
      ensures st.out[i] == st'.out[i]
    {
      assert EventLike(st.out[i], st'.out[i]);
      PlainSame(st.out[i].v, st'.out[i].v);
    }
  }

  /** A program with unique binders and its normalization both have a result or both have none;
      their values and final stores agree, and are equal where they hold no function. */
  lemma MeaningPreserved(e: Expr, fuel: nat)
    requires Unnamed(e) && NoRepeats(Binders(e))
    ensures var r, r' := Eval(e, EMPTY, Store([], []), fuel), Eval(Run(e), EMPTY, Store([], []), fuel);
            && ResultLike(r, r')
            && (r.Some? && Plain(r.value.0) ==> r'.value.0 == r.value.0)
            && (r.Some? && PlainStore(r.value.1) ==> r'.value.1 == r.value.1)
  {
    UniqueBinders(e, {});
    Means(e, {}, 0, EMPTY, EMPTY, Store([], []), Store([], []), fuel);
    var r, r' := Eval(e, EMPTY, Store([], []), fuel), Eval(Run(e), EMPTY, Store([], []), fuel);
    if r.Some? {
      if Plain(r.value.0) { PlainSame(r.value.0, r'.value.0); }
      if PlainStore(r.value.1) { StoreSame(r.value.1, r'.value.1); }
    }
  }
}
