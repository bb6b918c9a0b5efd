/** Running the bindings the pass puts ahead of a term, and what an atom stands for after them. */
module AnfChains {
  import opened Options
  import opened AnfTerms
  import opened AnfPass
  import opened AnfNormal
  import opened AnfRelation

  function RunBinds(binds: Binds, env: Env, st: Store, fuel: nat): Option<(Env, Store)> {
    if binds == [] then Some((env, st))
    else
      var (v, st1) :- Eval(binds[0].1, env, st, fuel);
      RunBinds(binds[1..], env.Bind(Temp(binds[0].0), v), st1, fuel)
  }

  /** `tail`, run where the bindings left off. */
  function Then(b: Option<(Env, Store)>, tail: Expr, fuel: nat): Option<(Value, Store)> {
    if b.None? then None else Eval(tail, b.value.0, b.value.1, fuel)
  }

  lemma {:induction false} ChainRuns(binds: Binds, tail: Expr, env: Env, st: Store, fuel: nat)
    ensures Eval(LetChain(binds, tail), env, st, fuel) == Then(RunBinds(binds, env, st, fuel), tail, fuel)
  {
    if binds != [] {
      var r := Eval(binds[0].1, env, st, fuel);
      if r.Some? { ChainRuns(binds[1..], tail, env.Bind(Temp(binds[0].0), r.value.0), r.value.1, fuel); }
    }
  }

  lemma {:induction false} JoinedRuns(a: Binds, b: Binds, env: Env, st: Store, fuel: nat)
    ensures var first := RunBinds(a, env, st, fuel);
            RunBinds(a + b, env, st, fuel) == if first.None? then None
                else RunBinds(b, first.value.0, first.value.1, fuel)
  {
    if a == [] {
      assert a + b == b;
    } else {
      assert (a + b)[1..] == a[1..] + b;
      var r := Eval(a[0].1, env, st, fuel);
      if r.Some? { JoinedRuns(a[1..], b, env.Bind(Temp(a[0].0), r.value.0), r.value.1, fuel); }
    }
  }

  lemma {:induction false} PeelUndone(e: Expr, muts: Muts)
    requires Normal(e, muts)
    ensures LetChain(Peel(e).0, Peel(e).1) == e
  {
    if IsTempLet(e) {
      PeelUndone(e.body, muts);
      var (binds, core) := Peel(e);
      assert binds[1..] == Peel(e.body).0;
    }
  }

  // ----- Fresh names -----

  /** The names bound are among those the counter passed over, each once and in its order. */
  ghost predicate Within(binds: Binds, k: nat, k1: nat) {
    && k <= k1 && (forall i :: 0 <= i < |binds| ==> k <= binds[i].0 < k1)
    && (forall i, j :: 0 <= i < j < |binds| ==> binds[i].0 < binds[j].0)
  }

  /** `f` has the variables of `e` and its temporaries below `k`. */
  ghost predicate Kept(e: Env, f: Env, k: nat) {
    && f.vars == e.vars
    && forall n :: 0 <= n < k ==> (n in e.temps <==> n in f.temps) && (n in e.temps ==> e.temps[n] == f.temps[n])
  }

  lemma {:induction false} RunKeeps(binds: Binds, k: nat, k1: nat, env: Env, st: Store, fuel: nat)
    requires Within(binds, k, k1) && RunBinds(binds, env, st, fuel).Some?
    ensures Kept(env, RunBinds(binds, env, st, fuel).value.0, k)
  {
    if binds != [] {
      var (v, st1) := Eval(binds[0].1, env, st, fuel).value;
      RunKeeps(binds[1..], k, k1, env.Bind(Temp(binds[0].0), v), st1, fuel);
    }
  }

  lemma {:induction false} RunKeepsVars(binds: Binds, env: Env, st: Store, fuel: nat)
    requires RunBinds(binds, env, st, fuel).Some?
    ensures RunBinds(binds, env, st, fuel).value.0.vars == env.vars
  {
    if binds != [] {
      var (v, st1) := Eval(binds[0].1, env, st, fuel).value;
      RunKeepsVars(binds[1..], env.Bind(Temp(binds[0].0), v), st1, fuel);
    }
  }

  lemma {:induction false} Counts(e: Expr, muts: Muts, k: nat)
    requires Unnamed(e)
    ensures Within(Peel(Normalize(e, muts, k).0).0, k, Normalize(e, muts, k).1)
    decreases e, 1
  {
    match e {
      case Lit(_) =>
      case Var(_) =>
      case Builtin(_) =>
      case Lambda(param, byRef, body) => Counts(body, Under(muts, param, byRef), k);
      case Strict(op, args) =>
        ListCounts(args, muts, k);
        var (binds, args', _) := AtomizeList(args, muts, k);
        PeelChain(binds, Strict(op, args'));
      case Apply(_, _) =>
        SpineCounts(e, muts, k);
        var (binds, spine, _) := NormalizeSpine(e, muts, k);
        PeelChain(binds, spine);
      case Let(name, annotated, bound, body) =>
        Counts(bound, muts, k);
        var (bound', k1) := Normalize(bound, muts, k);
        Counts(body, muts, k1);
        var (binds, core) := if IsAnnotatedResult(e) then ([], bound') else Peel(bound');
        PeelChain(binds, Let(name, annotated, core, Normalize(body, muts, k1).0));
      case MutDecl(x, init, body) =>
        Counts(init, muts, k);
        Counts(body, Under(muts, x, true), Normalize(init, muts, k).1);
      case ExprStmt(effect, body) =>
        EffectCounts(effect, muts, k);
        var (binds, effect', k1) := AtomizeEffect(effect, muts, k);
        Counts(body, muts, k1);
        PeelChain(binds, ExprStmt(effect', Normalize(body, muts, k1).0));
      case Case(scrutinee, branches) =>
        if scrutinee.Some? { Counts(scrutinee.value, muts, k); }
        BranchesCount(branches, muts, NormalizeScrutinee(scrutinee, muts, k).1);
      case Begin(body) => Counts(body, muts, k);
      case _ =>
        MarkerCounts(e, muts, k);
        var (binds, e', _) := AtomizeMarker(e, muts, k);
        PeelChain(binds, e');
    }
  }

  lemma {:induction false} EffectCounts(e: Expr, muts: Muts, k: nat)
    requires Unnamed(e)
    ensures var (binds, _, k1) := AtomizeEffect(e, muts, k); Within(binds, k, k1)
    decreases e, 2
  {
    if e.Case? {
      KeyCounts(e.scrutinee, muts, k);
      BranchesCount(e.branches, muts, AtomizeKey(e.scrutinee, muts, k).2);
    } else if IsMarker(e) {
      MarkerCounts(e, muts, k);
    } else {
      Counts(e, muts, k);
    }
  }

  lemma {:induction false} MarkerCounts(e: Expr, muts: Muts, k: nat)
    requires Unnamed(e) && IsMarker(e)
    ensures var (binds, e', k1) := AtomizeMarker(e, muts, k); Within(binds, k, k1) && IsMarker(e')
    decreases e, 0
  {
    match e {
      case MutWrite(x, key, value) =>
        KeyCounts(key, muts, k);
        AtomCounts(value, muts, AtomizeKey(key, muts, k).2);
      case For(target, iter, body) =>
        AtomCounts(iter, muts, k);
        Counts(body, muts, Atomize(iter, muts, k).2);
      case Feed(_, value) => HandleCounts(value, muts, k);
      case Define(_, value) => HandleCounts(value, muts, k);
    }
  }

  lemma {:induction false} AtomCounts(e: Expr, muts: Muts, k: nat)
    requires Unnamed(e)
    ensures var (binds, _, k1) := Atomize(e, muts, k); Within(binds, k, k1)
    decreases e, 2
  {
    Counts(e, muts, k);
  }

  lemma {:induction false} HandleCounts(e: Expr, muts: Muts, k: nat)
    requires Unnamed(e)
    ensures var (binds, _, k1) := AtomizeHandle(e, muts, k); Within(binds, k, k1)
    decreases e, 3
  {
    if !IsMutVar(e, muts) { AtomCounts(e, muts, k); }
  }

  lemma {:induction false} KeyCounts(key: Option<Expr>, muts: Muts, k: nat)
    requires key.Some? ==> Unnamed(key.value)
    ensures var (binds, _, k1) := AtomizeKey(key, muts, k); Within(binds, k, k1)
    decreases key, 3
  {
    if key.Some? { AtomCounts(key.value, muts, k); }
  }

  lemma {:induction false} ListCounts(es: Exprs, muts: Muts, k: nat)
    requires UnnamedAll(es)
    ensures var (binds, _, k1) := AtomizeList(es, muts, k); Within(binds, k, k1)
    decreases es, 3
  {
    if es.More? {
      AtomCounts(es.head, muts, k);
      ListCounts(es.tail, muts, Atomize(es.head, muts, k).2);
    }
  }

  lemma {:induction false} SpineCounts(e: Expr, muts: Muts, k: nat)
    requires Unnamed(e)
    ensures var (binds, e', k1) := NormalizeSpine(e, muts, k); Within(binds, k, k1) && (e.Apply? ==> e'.Apply?)
    decreases e, if e.Apply? then 0 else 4
  {
    if !e.Apply? {
      HandleCounts(e, muts, k);
    } else {
      SpineCounts(e.function_, muts, k);
      var (_, f, k1) := NormalizeSpine(e.function_, muts, k);
      if f == Builtin(LookupChecked) { TupleCounts(e.argument, muts, k1); } else { HandleCounts(e.argument, muts, k1); }
    }
  }

  lemma {:induction false} TupleCounts(e: Expr, muts: Muts, k: nat)
    requires Unnamed(e)
    ensures var (binds, _, k1) := AtomizeTupleElements(e, muts, k); Within(binds, k, k1)
    decreases e, 3
  {
    if e.Strict? && e.op.MkTuple? { ListCounts(e.args, muts, k); } else { AtomCounts(e, muts, k); }
  }

  lemma {:induction false} BranchesCount(bs: Branches, muts: Muts, k: nat)
    requires UnnamedBranches(bs)
    ensures k <= NormalizeBranches(bs, muts, k).1
    decreases bs, 3
  {
    if bs.MoreBranches? {
      Counts(bs.guard, muts, k);
      var k1 := Normalize(bs.guard, muts, k).1;
      Counts(bs.body, muts, k1);
      BranchesCount(bs.rest, muts, Normalize(bs.body, muts, k1).1);
    }
  }

  // ----- Atoms -----

  /** What an atom denotes: it reads no mutable variable. */
  function AtomValue(a: Expr, env: Env): Option<Value> {
    match a
    case Lit(i) => Some(Num(i))
    case Builtin(fn) => Some(Native(fn))
    case Lambda(param, byRef, body) => Some(Closure(param, byRef, body, env))
    case Var(name) =>
      if name.Temp? then (if name.n in env.temps then Some(env.temps[name.n]) else None)
      else
        var s :- Lookup(env.vars, name.id);
        if s.Val? then Some(s.v) else None
    case _ => None
  }

  lemma AtomRuns(a: Expr, env: Env, st: Store, fuel: nat)
    requires IsAtomic(a, MutsOf(env.vars))
    ensures Eval(a, env, st, fuel) == if AtomValue(a, env).None? then None else Some((AtomValue(a, env).value, st))
    ensures EvalOperand(a, env, st, fuel) == if AtomValue(a, env).None? then None
            else Some((Ready(AtomValue(a, env).value), st))
  {
    if a.Var? && a.name.Src? { InMuts(env.vars, a.name.id); }
  }

  /** `a` denotes a value like `v`, and does as long as the temporaries below `k` are kept. */
  ghost predicate Stands(a: Expr, k: nat, v: Value, env: Env) {
    && IsAtomic(a, MutsOf(env.vars)) && (a.Var? && a.name.Temp? ==> a.name.n < k)
    && AtomValue(a, env).Some? && Like(v, AtomValue(a, env).value)
  }

  /** `a` is a name nothing binds. */
  ghost predicate Lost(a: Expr, vars: Vars) {
    a.Var? && a.name.Src? && Lookup(vars, a.name.id).None?
  }

  lemma StillStands(a: Expr, k: nat, v: Value, env: Env, env1: Env, k1: nat)
    requires Stands(a, k, v, env) && Kept(env, env1, k) && k <= k1
    ensures Stands(a, k1, v, env1)
  {
  }

  /** The operand `a` of a spine stands for `o`. */
  ghost predicate ArgStands(a: Expr, k: nat, o: Operand, env: Env) {
    if o.Handle? then a.Var? && a.name.Src? && Lookup(env.vars, a.name.id) == Some(Loc(o.l))
    else if a.Strict? then a.op.MkTuple? && o.v.Tuple? && AllStand(a.args, k, o.v.elements, env)
    else Stands(a, k, o.v, env)
  }

  ghost predicate AllStand(es: Exprs, k: nat, vs: seq<Value>, env: Env) {
    if es.NoExprs? then vs == []
    else |vs| > 0 && Stands(es.head, k, vs[0], env) && AllStand(es.tail, k, vs[1..], env)
  }

  ghost predicate AnyLost(es: Exprs, vars: Vars) {
    es.More? && (Lost(es.head, vars) || AnyLost(es.tail, vars))
  }

  ghost predicate ArgLost(a: Expr, vars: Vars) {
    Lost(a, vars) || (a.Strict? && AnyLost(a.args, vars))
  }

  ghost predicate SpineStands(e: Expr, k: nat, os: seq<Operand>, env: Env) {
    if e.Apply? then
      && |os| > 1 && SpineStands(e.function_, k, os[..|os| - 1], env) && ArgStands(e.argument, k, os[|os| - 1], env)
      && (e.function_ == Builtin(LookupChecked) ==> os[|os| - 1].Ready?)
    else |os| == 1 && ArgStands(e, k, os[0], env)
  }

  ghost predicate SpineLost(e: Expr, vars: Vars) {
    if e.Apply? then SpineLost(e.function_, vars) || ArgLost(e.argument, vars) else ArgLost(e, vars)
  }

  lemma {:induction false} AllStillStand(es: Exprs, k: nat, vs: seq<Value>, env: Env, env1: Env, k1: nat)
    requires AllStand(es, k, vs, env) && Kept(env, env1, k) && k <= k1
    ensures AllStand(es, k1, vs, env1)
  {
    if es.More? {
      StillStands(es.head, k, vs[0], env, env1, k1);
      AllStillStand(es.tail, k, vs[1..], env, env1, k1);
    }
  }

  lemma ArgStillStands(a: Expr, k: nat, o: Operand, env: Env, env1: Env, k1: nat)
    requires ArgStands(a, k, o, env) && Kept(env, env1, k) && k <= k1
    ensures ArgStands(a, k1, o, env1)
  {
    if o.Ready? {
      if a.Strict? {
        AllStillStand(a.args, k, o.v.elements, env, env1, k1);
      } else {
        StillStands(a, k, o.v, env, env1, k1);
      }
    }
  }

  lemma {:induction false} SpineStillStands(e: Expr, k: nat, os: seq<Operand>, env: Env, env1: Env, k1: nat)
    requires SpineStands(e, k, os, env) && Kept(env, env1, k) && k <= k1
    ensures SpineStands(e, k1, os, env1)
  {
    if e.Apply? {
      SpineStillStands(e.function_, k, os[..|os| - 1], env, env1, k1);
      ArgStillStands(e.argument, k, os[|os| - 1], env, env1, k1);
    } else {
      ArgStillStands(e, k, os[0], env, env1, k1);
    }
  }

  lemma {:induction false} AllStandRun(es: Exprs, k: nat, vs: seq<Value>, env: Env, st: Store, fuel: nat)
    requires AllStand(es, k, vs, env)
    ensures var r := EvalAll(es, env, st, fuel); r.Some? && r.value.1 == st && AllLike(vs, r.value.0)
  {
    if es.More? {
      AtomRuns(es.head, env, st, fuel);
      AllStandRun(es.tail, k, vs[1..], env, st, fuel);
      var w, ws := AtomValue(es.head, env).value, EvalAll(es.tail, env, st, fuel).value.0;
      assert EvalAll(es, env, st, fuel).value.0 == [w] + ws;
      assert vs == [vs[0]] + vs[1..];
    }
  }

  lemma {:induction false} AnyLostRun(es: Exprs, env: Env, st: Store, fuel: nat)
    requires AnyLost(es, env.vars)
    ensures EvalAll(es, env, st, fuel).None?
  {
    if !Lost(es.head, env.vars) {
      var r := Eval(es.head, env, st, fuel);
      if r.Some? { AnyLostRun(es.tail, env, r.value.1, fuel); }
    }
  }

  lemma ArgStandsRun(a: Expr, k: nat, o: Operand, env: Env, st: Store, fuel: nat)
    requires ArgStands(a, k, o, env)
    ensures var r := EvalOperand(a, env, st, fuel); r.Some? && r.value.1 == st && OperandLike(o, r.value.0)
  {
    if o.Ready? {
      if a.Strict? { AllStandRun(a.args, k, o.v.elements, env, st, fuel); } else { AtomRuns(a, env, st, fuel); }
    }
  }

  lemma ValueStandsRun(a: Expr, k: nat, o: Operand, env: Env, st: Store, fuel: nat)
    requires ArgStands(a, k, o, env) && o.Ready?
    ensures var r := Eval(a, env, st, fuel); r.Some? && r.value.1 == st && Like(o.v, r.value.0)
  {
    if a.Strict? { AllStandRun(a.args, k, o.v.elements, env, st, fuel); } else { AtomRuns(a, env, st, fuel); }
  }

  lemma ArgLostRun(a: Expr, env: Env, st: Store, fuel: nat)
    requires ArgLost(a, env.vars)
    ensures EvalOperand(a, env, st, fuel).None? && Eval(a, env, st, fuel).None?
  {
    if a.Strict? { AnyLostRun(a.args, env, st, fuel); }
  }

  lemma {:induction false} SpineStandsRun(e: Expr, k: nat, os: seq<Operand>, env: Env, st: Store, fuel: nat)
    requires SpineStands(e, k, os, env)
    ensures var r := EvalSpine(e, env, st, fuel); r.Some? && r.value.1 == st && OperandsLike(os, r.value.0)
  {
    if e.Apply? {
      SpineStandsRun(e.function_, k, os[..|os| - 1], env, st, fuel);
      ArgStandsRun(e.argument, k, os[|os| - 1], env, st, fuel);
      if e.function_ == Builtin(LookupChecked) { ValueStandsRun(e.argument, k, os[|os| - 1], env, st, fuel); }
      assert os == os[..|os| - 1] + [os[|os| - 1]];
    } else {
      ArgStandsRun(e, k, os[0], env, st, fuel);
    }
  }

  lemma {:induction false} SpineLostRun(e: Expr, env: Env, st: Store, fuel: nat)
    requires SpineLost(e, env.vars)
    ensures EvalSpine(e, env, st, fuel).None?
  {
    if e.Apply? {
      if SpineLost(e.function_, env.vars) {
        SpineLostRun(e.function_, env, st, fuel);
      } else {
        var r := EvalSpine(e.function_, env, st, fuel);
        if r.Some? { ArgLostRun(e.argument, env, r.value.1, fuel); }
      }
    } else {
      ArgLostRun(e, env, st, fuel);
    }
  }
}
