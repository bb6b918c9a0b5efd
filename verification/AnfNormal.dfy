/** The form the normalization pass reaches, and that it changes nothing already in that form. */
module AnfNormal {
  import opened Options
  import opened AnfTerms
  import opened AnfPass

  // ----- The normal form -----

  /** Operands are atoms, a spine reaches its head directly, a marker stands directly under its
      statement, and no chain of the pass's own bindings is left at the root of a definiens, but
      for an annotated result's. */
  ghost predicate Normal(e: Expr, muts: Muts)
    decreases e, 1
  {
    match e
    case Lit(_) => true
    case Var(_) => true
    case Builtin(_) => true
    case Lambda(param, byRef, body) => Normal(body, Under(muts, param, byRef))
    case Strict(_, args) => Atoms(args, muts)
    case Apply(_, _) => NormalSpine(e, muts)
    case Let(name, annotated, bound, body) =>
      && Normal(bound, muts) && Normal(body, muts)
      && (IsAnnotatedResult(e) || !IsTempLet(bound)) && (name.Temp? ==> !annotated)
    case MutDecl(x, init, body) => Normal(init, muts) && Normal(body, Under(muts, x, true))
    case ExprStmt(effect, body) => NormalEffect(effect, muts) && Normal(body, muts)
    case MutWrite(_, key, value) => AtomKey(key, muts) && Atom(value, muts)
    case For(_, iter, body) => Atom(iter, muts) && Normal(body, muts)
    case Case(scrutinee, branches) => (scrutinee.Some? ==> Normal(scrutinee.value, muts))
        && NormalBranches(branches, muts)
    case Feed(_, value) => AtomOrHandle(value, muts)
    case Define(_, value) => AtomOrHandle(value, muts)
    case Begin(body) => Normal(body, muts)
  }

  ghost predicate Atom(e: Expr, muts: Muts)
    decreases e, 2
  {
    IsAtomic(e, muts) && Normal(e, muts)
  }

  ghost predicate AtomOrHandle(e: Expr, muts: Muts)
    decreases e, 3
  {
    IsMutVar(e, muts) || Atom(e, muts)
  }

  ghost predicate AtomKey(key: Option<Expr>, muts: Muts)
    decreases key, 3
  {
    key.Some? ==> Atom(key.value, muts)
  }

  ghost predicate Atoms(es: Exprs, muts: Muts)
    decreases es, 3
  {
    es.More? ==> Atom(es.head, muts) && Atoms(es.tail, muts)
  }

  ghost predicate NormalSpine(e: Expr, muts: Muts)
    decreases e, if e.Apply? then 0 else 4
  {
    if !e.Apply? then AtomOrHandle(e, muts)
    else
      && NormalSpine(e.function_, muts)
      && if e.function_ != Builtin(LookupChecked) then AtomOrHandle(e.argument, muts)
         else if e.argument.Strict? && e.argument.op.MkTuple? then Atoms(e.argument.args, muts)
         else Atom(e.argument, muts)
  }

  ghost predicate NormalEffect(e: Expr, muts: Muts)
    decreases e, 2
  {
    if e.Case? then AtomKey(e.scrutinee, muts) && NormalBranches(e.branches, muts) else Normal(e, muts)
  }

  ghost predicate NormalBranches(bs: Branches, muts: Muts)
    decreases bs, 3
  {
    bs.MoreBranches? ==> Normal(bs.guard, muts) && Normal(bs.body, muts) && NormalBranches(bs.rest, muts)
  }

  ghost predicate NormalBinds(binds: Binds, muts: Muts) {
    forall i :: 0 <= i < |binds| ==> Normal(binds[i].1, muts) && !IsTempLet(binds[i].1)
  }

  // ----- The pass reaches it -----

  /** The terms the pass is given: none of its own names is in them. */
  ghost predicate Unnamed(e: Expr) {
    match e
    case Lit(_) => true
    case Var(name) => name.Src?
    case Builtin(_) => true
    case Lambda(_, _, body) => Unnamed(body)
    case Strict(_, args) => UnnamedAll(args)
    case Apply(f, a) => Unnamed(f) && Unnamed(a)
    case Let(name, _, bound, body) => name.Src? && Unnamed(bound) && Unnamed(body)
    case MutDecl(_, init, body) => Unnamed(init) && Unnamed(body)
    case ExprStmt(effect, body) => Unnamed(effect) && Unnamed(body)
    case MutWrite(_, key, value) => (key.Some? ==> Unnamed(key.value)) && Unnamed(value)
    case For(_, iter, body) => Unnamed(iter) && Unnamed(body)
    case Case(scrutinee, branches) => (scrutinee.Some? ==> Unnamed(scrutinee.value)) && UnnamedBranches(branches)
    case Feed(_, value) => Unnamed(value)
    case Define(_, value) => Unnamed(value)
    case Begin(body) => Unnamed(body)
  }

  ghost predicate UnnamedAll(es: Exprs) {
    es.More? ==> Unnamed(es.head) && UnnamedAll(es.tail)
  }

  ghost predicate UnnamedBranches(bs: Branches) {
    bs.MoreBranches? ==> Unnamed(bs.guard) && Unnamed(bs.body) && UnnamedBranches(bs.rest)
  }

  lemma {:induction false} ChainNormal(binds: Binds, tail: Expr, muts: Muts)
    requires NormalBinds(binds, muts) && Normal(tail, muts)
    ensures Normal(LetChain(binds, tail), muts)
  {
    if binds != [] { ChainNormal(binds[1..], tail, muts); }
  }

  lemma {:induction false} PeelNormal(e: Expr, muts: Muts)
    requires Normal(e, muts)
    ensures NormalBinds(Peel(e).0, muts) && Normal(Peel(e).1, muts)
  {
    if IsTempLet(e) { PeelNormal(e.body, muts); }
  }

  lemma {:induction false} Reached(e: Expr, muts: Muts, k: nat)
    requires Unnamed(e)
    ensures Normal(Normalize(e, muts, k).0, muts)
    decreases e, 1
  {
    match e {
      case Lit(_) =>
      case Var(_) =>
      case Builtin(_) =>
      case Lambda(param, byRef, body) => Reached(body, Under(muts, param, byRef), k);
      case Strict(op, args) =>
        ListReached(args, muts, k);
        var (binds, args', _) := AtomizeList(args, muts, k);
        ChainNormal(binds, Strict(op, args'), muts);
      case Apply(_, _) =>
        SpineReached(e, muts, k);
        var (binds, spine, _) := NormalizeSpine(e, muts, k);
        ChainNormal(binds, spine, muts);
      case Let(name, annotated, bound, body) =>
        Reached(bound, muts, k);
        var (bound', k1) := Normalize(bound, muts, k);
        PeelNormal(bound', muts);
        Reached(body, muts, k1);
        var (binds, core) := if IsAnnotatedResult(e) then ([], bound') else Peel(bound');
        ChainNormal(binds, Let(name, annotated, core, Normalize(body, muts, k1).0), muts);
      case MutDecl(x, init, body) =>
        Reached(init, muts, k);
        Reached(body, Under(muts, x, true), Normalize(init, muts, k).1);
      case ExprStmt(effect, body) =>
        EffectReached(effect, muts, k);
        var (binds, effect', k1) := AtomizeEffect(effect, muts, k);
        Reached(body, muts, k1);
        ChainNormal(binds, ExprStmt(effect', Normalize(body, muts, k1).0), muts);
      case Case(scrutinee, branches) =>
        if scrutinee.Some? { Reached(scrutinee.value, muts, k); }
        BranchesReached(branches, muts, NormalizeScrutinee(scrutinee, muts, k).1);
      case Begin(body) => Reached(body, muts, k);
      case _ =>
        MarkerReached(e, muts, k);
        var (binds, e', _) := AtomizeMarker(e, muts, k);
        ChainNormal(binds, e', muts);
    }
  }

  lemma {:induction false} EffectReached(e: Expr, muts: Muts, k: nat)
    requires Unnamed(e)
    ensures var (binds, e', _) := AtomizeEffect(e, muts, k); NormalBinds(binds, muts) && NormalEffect(e', muts)
    decreases e, 2
  {
    if e.Case? {
      KeyReached(e.scrutinee, muts, k);
      BranchesReached(e.branches, muts, AtomizeKey(e.scrutinee, muts, k).2);
    } else if IsMarker(e) {
      MarkerReached(e, muts, k);
    } else {
      Reached(e, muts, k);
      CaseStays(e, muts, k);
    }
  }

  /** Only a `Case` normalizes to one, and only a marker to one. */
  lemma CaseStays(e: Expr, muts: Muts, k: nat)
    requires !e.Case? && !IsMarker(e)
    ensures !Normalize(e, muts, k).0.Case? && !IsMarker(Normalize(e, muts, k).0)
  {
  }

  lemma {:induction false} MarkerReached(e: Expr, muts: Muts, k: nat)
    requires Unnamed(e) && IsMarker(e)
    ensures var (binds, e', _) := AtomizeMarker(e, muts, k);
            NormalBinds(binds, muts) && Normal(e', muts) && IsMarker(e')
    decreases e, 0
  {
    match e {
      case MutWrite(x, key, value) =>
        KeyReached(key, muts, k);
        AtomReached(value, muts, AtomizeKey(key, muts, k).2);
      case For(target, iter, body) =>
        AtomReached(iter, muts, k);
        Reached(body, muts, Atomize(iter, muts, k).2);
      case Feed(_, value) => HandleReached(value, muts, k);
      case Define(_, value) => HandleReached(value, muts, k);
    }
  }

  lemma {:induction false} AtomReached(e: Expr, muts: Muts, k: nat)
    requires Unnamed(e)
    ensures var (binds, a, _) := Atomize(e, muts, k); NormalBinds(binds, muts) && Atom(a, muts)
    decreases e, 2
  {
    Reached(e, muts, k);
    PeelNormal(Normalize(e, muts, k).0, muts);
  }

  lemma {:induction false} HandleReached(e: Expr, muts: Muts, k: nat)
    requires Unnamed(e)
    ensures var (binds, a, _) := AtomizeHandle(e, muts, k); NormalBinds(binds, muts) && AtomOrHandle(a, muts)
    decreases e, 3
  {
    if !IsMutVar(e, muts) { AtomReached(e, muts, k); }
  }

  lemma {:induction false} KeyReached(key: Option<Expr>, muts: Muts, k: nat)
    requires key.Some? ==> Unnamed(key.value)
    ensures var (binds, a, _) := AtomizeKey(key, muts, k); NormalBinds(binds, muts) && AtomKey(a, muts)
    decreases key, 3
  {
    if key.Some? { AtomReached(key.value, muts, k); }
  }

  lemma {:induction false} ListReached(es: Exprs, muts: Muts, k: nat)
    requires UnnamedAll(es)
    ensures var (binds, as_, _) := AtomizeList(es, muts, k); NormalBinds(binds, muts) && Atoms(as_, muts)
    decreases es, 3
  {
    if es.More? {
      AtomReached(es.head, muts, k);
      ListReached(es.tail, muts, Atomize(es.head, muts, k).2);
    }
  }

  lemma {:induction false} SpineReached(e: Expr, muts: Muts, k: nat)
    requires Unnamed(e)
    ensures var (binds, e', _) := NormalizeSpine(e, muts, k);
            NormalBinds(binds, muts) && NormalSpine(e', muts) && (e.Apply? ==> e'.Apply?)
    decreases e, if e.Apply? then 0 else 4
  {
    if !e.Apply? {
      HandleReached(e, muts, k);
      var (binds, e', _) := NormalizeSpine(e, muts, k);
      assert !e'.Apply?;
    } else {
      SpineReached(e.function_, muts, k);
      var (_, f, k1) := NormalizeSpine(e.function_, muts, k);
      var a := e.argument;
      if f == Builtin(LookupChecked) {
        if a.Strict? && a.op.MkTuple? { ListReached(a.args, muts, k1); } else { AtomReached(a, muts, k1); }
      } else {
        HandleReached(a, muts, k1);
      }
    }
  }

  lemma {:induction false} BranchesReached(bs: Branches, muts: Muts, k: nat)
    requires UnnamedBranches(bs)
    ensures NormalBranches(NormalizeBranches(bs, muts, k).0, muts)
    decreases bs, 3
  {
    if bs.MoreBranches? {
      Reached(bs.guard, muts, k);
      var k1 := Normalize(bs.guard, muts, k).1;
      Reached(bs.body, muts, k1);
      BranchesReached(bs.rest, muts, Normalize(bs.body, muts, k1).1);
    }
  }

  ghost predicate SameMarker(e: Expr, f: Expr) {
    && (e.MutWrite? <==> f.MutWrite?) && (e.For? <==> f.For?) && (e.Case? <==> f.Case?)
    && (e.Feed? <==> f.Feed?) && (e.Define? <==> f.Define?)
  }

  lemma EffectStays(e: Expr, muts: Muts, k: nat)
    ensures SameMarker(e, AtomizeEffect(e, muts, k).1)
  {
    if IsMarker(e) {
      assert AtomizeEffect(e, muts, k) == AtomizeMarker(e, muts, k);
    } else if !e.Case? {
      CaseStays(e, muts, k);
    }
  }

  /** A statement's marker is still directly under it, and an annotated result still outermost. */
  lemma MarkersStay(e: Expr, muts: Muts, k: nat)
    requires Unnamed(e)
    ensures e.ExprStmt? ==>
              var core := Peel(Normalize(e, muts, k).0).1;
              && core.ExprStmt?
              && SameMarker(e.effect, core.effect)
    ensures IsAnnotatedResult(e) ==> IsAnnotatedResult(Normalize(e, muts, k).0)
  {
    if e.ExprStmt? {
      EffectStays(e.effect, muts, k);
      var (binds, effect, k1) := AtomizeEffect(e.effect, muts, k);
      PeelChain(binds, ExprStmt(effect, Normalize(e.body, muts, k1).0));
    }
  }

  lemma {:induction false} PeelChain(binds: Binds, tail: Expr)
    requires !IsTempLet(tail)
    ensures Peel(LetChain(binds, tail)) == (binds, tail)
  {
    if binds != [] {
      PeelChain(binds[1..], tail);
      assert [binds[0]] + binds[1..] == binds;
    }
  }

  // ----- It changes nothing there -----

  lemma Nothing()
    ensures var none: Binds := []; none + none == none
  {
  }

  lemma {:induction false} Unchanged(e: Expr, muts: Muts, k: nat)
    requires Normal(e, muts)
    ensures Normalize(e, muts, k) == (e, k)
    decreases e, 1
  {
    match e {
      case Lit(_) =>
      case Var(_) =>
      case Builtin(_) =>
      case Lambda(param, byRef, body) => Unchanged(body, Under(muts, param, byRef), k);
      case Strict(_, args) => AtomsUnchanged(args, muts, k);
      case Apply(_, _) => SpineUnchanged(e, muts, k);
      case Let(_, _, bound, body) =>
        Unchanged(bound, muts, k);
        Unchanged(body, muts, k);
      case MutDecl(x, init, body) =>
        Unchanged(init, muts, k);
        Unchanged(body, Under(muts, x, true), k);
      case ExprStmt(effect, body) =>
        EffectUnchanged(effect, muts, k);
        Unchanged(body, muts, k);
      case Case(scrutinee, branches) =>
        if scrutinee.Some? { Unchanged(scrutinee.value, muts, k); }
        BranchesUnchanged(branches, muts, k);
      case Begin(body) => Unchanged(body, muts, k);
      case _ => MarkerUnchanged(e, muts, k);
    }
  }

  lemma {:induction false} EffectUnchanged(e: Expr, muts: Muts, k: nat)
    requires NormalEffect(e, muts)
    ensures AtomizeEffect(e, muts, k) == ([], e, k)
    decreases e, 2
  {
    if e.Case? {
      assert AtomKey(e.scrutinee, muts);
      if e.scrutinee.Some? { AtomUnchanged(e.scrutinee.value, muts, k); }
      BranchesUnchanged(e.branches, muts, k);
    } else if IsMarker(e) {
      MarkerUnchanged(e, muts, k);
    } else {
      Unchanged(e, muts, k);
    }
  }

  lemma {:induction false} MarkerUnchanged(e: Expr, muts: Muts, k: nat)
    requires Normal(e, muts) && IsMarker(e)
    ensures AtomizeMarker(e, muts, k) == ([], e, k)
    decreases e, 0
  {
    match e {
      case MutWrite(_, key, value) =>
        if key.Some? { AtomUnchanged(key.value, muts, k); }
        AtomUnchanged(value, muts, k);
        Nothing();
      case For(_, iter, body) =>
        AtomUnchanged(iter, muts, k);
        Unchanged(body, muts, k);
      case Feed(_, value) => HandleUnchanged(value, muts, k);
      case Define(_, value) => HandleUnchanged(value, muts, k);
    }
  }

  lemma {:induction false} AtomUnchanged(e: Expr, muts: Muts, k: nat)
    requires Atom(e, muts)
    ensures Atomize(e, muts, k) == ([], e, k)
    decreases e, 2
  {
    Unchanged(e, muts, k);
  }

  lemma {:induction false} HandleUnchanged(e: Expr, muts: Muts, k: nat)
    requires AtomOrHandle(e, muts)
    ensures AtomizeHandle(e, muts, k) == ([], e, k)
    decreases e, 3
  {
    if !IsMutVar(e, muts) { AtomUnchanged(e, muts, k); }
  }

  lemma {:induction false} AtomsUnchanged(es: Exprs, muts: Muts, k: nat)
    requires Atoms(es, muts)
    ensures AtomizeList(es, muts, k) == ([], es, k)
    decreases es, 3
  {
    if es.More? {
      AtomUnchanged(es.head, muts, k);
      AtomsUnchanged(es.tail, muts, k);
      Nothing();
    }
  }

  lemma {:induction false} SpineUnchanged(e: Expr, muts: Muts, k: nat)
    requires NormalSpine(e, muts)
    ensures NormalizeSpine(e, muts, k) == ([], e, k)
    decreases e, if e.Apply? then 0 else 4
  {
    if !e.Apply? {
      HandleUnchanged(e, muts, k);
    } else {
      SpineUnchanged(e.function_, muts, k);
      Nothing();
      var a := e.argument;
      if e.function_ != Builtin(LookupChecked) {
        HandleUnchanged(a, muts, k);
      } else if a.Strict? && a.op.MkTuple? {
        AtomsUnchanged(a.args, muts, k);
      } else {
        AtomUnchanged(a, muts, k);
      }
    }
  }

  lemma {:induction false} BranchesUnchanged(bs: Branches, muts: Muts, k: nat)
    requires NormalBranches(bs, muts)
    ensures NormalizeBranches(bs, muts, k) == (bs, k)
    decreases bs, 3
  {
    if bs.MoreBranches? {
      Unchanged(bs.guard, muts, k);
      Unchanged(bs.body, muts, k);
      BranchesUnchanged(bs.rest, muts, k);
    }
  }

  /** The pass applied to its own output mints no name and changes nothing. */
  lemma Idempotent(e: Expr, muts: Muts, k: nat, k': nat)
    requires Unnamed(e)
    ensures var once := Normalize(e, muts, k).0; Normalize(once, muts, k') == (once, k')
  {
    Reached(e, muts, k);
    Unchanged(Normalize(e, muts, k).0, muts, k');
  }
}
