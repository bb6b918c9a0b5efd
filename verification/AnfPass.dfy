/** The normalization pass: every compound operand gets a name, bound ahead of the term in the
    order the operands run. Fresh names come from a counter threaded through the pass. */
module AnfPass {
  import opened Options
  import opened AnfTerms

  type Muts = set<string>

  type Binds = seq<(nat, Expr)>

  predicate IsMutVar(e: Expr, muts: Muts) {
    e.Var? && e.name.Src? && e.name.id in muts
  }

  /** Can `e` stand in an operand position? A read of a mutable variable cannot: it denotes the
      value the variable holds where the read is performed. */
  predicate IsAtomic(e: Expr, muts: Muts) {
    !IsMutVar(e, muts) && (e.Lit? || e.Var? || e.Builtin? || e.Lambda?)
  }

  /** `let y: T = e in y`. */
  predicate IsAnnotatedResult(e: Expr) {
    e.Let? && e.annotated && e.body == Var(e.name)
  }

  predicate IsTempLet(e: Expr) {
    e.Let? && e.name.Temp?
  }

  function Under(muts: Muts, x: string, mutable: bool): Muts {
    if mutable then muts + {x} else muts
  }

  /** Wraps `tail` in `binds`, the first outermost. */
  function LetChain(binds: Binds, tail: Expr): Expr {
    if binds == [] then tail else Let(Temp(binds[0].0), false, binds[0].1, LetChain(binds[1..], tail))
  }

  /** Takes the pass's own bindings off the root of `e`. */
  function Peel(e: Expr): (r: (Binds, Expr))
    ensures !IsTempLet(r.1)
  {
    if IsTempLet(e) then
      var (binds, core) := Peel(e.body);
      ([(e.name.n, e.bound)] + binds, core)
    else ([], e)
  }

  // ----- The pass -----

  function Normalize(e: Expr, muts: Muts, k: nat): (Expr, nat)
    decreases e, 1
  {
    match e
    case Lit(_) => (e, k)
    case Var(_) => (e, k)
    case Builtin(_) => (e, k)
    case Lambda(param, byRef, body) =>
      var (body', k1) := Normalize(body, Under(muts, param, byRef), k);
      (Lambda(param, byRef, body'), k1)
    case Strict(op, args) =>
      var (binds, args', k1) := AtomizeList(args, muts, k);
      (LetChain(binds, Strict(op, args')), k1)
    case Apply(_, _) =>
      var (binds, spine, k1) := NormalizeSpine(e, muts, k);
      (LetChain(binds, spine), k1)
    case Let(name, annotated, bound, body) =>
      var (bound', k1) := Normalize(bound, muts, k);
      var (binds, core) := if IsAnnotatedResult(e) then ([], bound') else Peel(bound');
      var (body', k2) := Normalize(body, muts, k1);
      (LetChain(binds, Let(name, annotated, core, body')), k2)
    case MutDecl(x, init, body) =>
      var (init', k1) := Normalize(init, muts, k);
      var (body', k2) := Normalize(body, Under(muts, x, true), k1);
      (MutDecl(x, init', body'), k2)
    case ExprStmt(effect, body) =>
      var (binds, effect', k1) := AtomizeEffect(effect, muts, k);
      var (body', k2) := Normalize(body, muts, k1);
      (LetChain(binds, ExprStmt(effect', body')), k2)
    case Case(scrutinee, branches) =>
      var (scrutinee', k1) := NormalizeScrutinee(scrutinee, muts, k);
      var (branches', k2) := NormalizeBranches(branches, muts, k1);
      (Case(scrutinee', branches'), k2)
    case Begin(body) =>
      var (body', k1) := Normalize(body, muts, k);
      (Begin(body'), k1)
    case _ =>
      var (binds, e', k1) := AtomizeMarker(e, muts, k);
      (LetChain(binds, e'), k1)
  }

  /** A statement's effect. The forms a later pass recognizes under a statement keep their place,
      and their bindings go ahead of the statement. */
  function AtomizeEffect(e: Expr, muts: Muts, k: nat): (Binds, Expr, nat)
    decreases e, 2
  {
    if e.Case? then
      var (binds, scrutinee, k1) := AtomizeKey(e.scrutinee, muts, k);
      var (branches, k2) := NormalizeBranches(e.branches, muts, k1);
      (binds, Case(scrutinee, branches), k2)
    else if IsMarker(e) then AtomizeMarker(e, muts, k)
    else
      var (e', k1) := Normalize(e, muts, k);
      ([], e', k1)
  }

  predicate IsMarker(e: Expr) {
    e.MutWrite? || e.For? || e.Feed? || e.Define?
  }

  function AtomizeMarker(e: Expr, muts: Muts, k: nat): (Binds, Expr, nat)
    requires IsMarker(e)
    decreases e, 0
  {
    match e
    case MutWrite(x, key, value) =>
      var (binds, key', k1) := AtomizeKey(key, muts, k);
      var (valueBinds, value', k2) := Atomize(value, muts, k1);
      (binds + valueBinds, MutWrite(x, key', value'), k2)
    case For(target, iter, body) =>
      var (binds, iter', k1) := Atomize(iter, muts, k);
      var (body', k2) := Normalize(body, muts, k1);
      (binds, For(target, iter', body'), k2)
    case Feed(channel, value) =>
      var (binds, value', k1) := AtomizeHandle(value, muts, k);
      (binds, Feed(channel, value'), k1)
    case Define(channel, value) =>
      var (binds, value', k1) := AtomizeHandle(value, muts, k);
      (binds, Define(channel, value'), k1)
  }

  /** An operand: its bindings and the atom that stands for it. */
  function Atomize(e: Expr, muts: Muts, k: nat): (Binds, Expr, nat)
    decreases e, 2
  {
    var (e', k1) := Normalize(e, muts, k);
    var (binds, core) := Peel(e');
    if IsAtomic(core, muts) then (binds, core, k1)
    else (binds + [(k1, core)], Var(Temp(k1)), k1 + 1)
  }

  /** A position that may hold a mutable variable rather than its value: a bare one stays. */
  function AtomizeHandle(e: Expr, muts: Muts, k: nat): (Binds, Expr, nat)
    decreases e, 3
  {
    if IsMutVar(e, muts) then ([], e, k) else Atomize(e, muts, k)
  }

  function AtomizeKey(key: Option<Expr>, muts: Muts, k: nat): (Binds, Option<Expr>, nat)
    decreases key, 3
  {
    if key.None? then ([], None, k)
    else
      var (binds, e, k1) := Atomize(key.value, muts, k);
      (binds, Some(e), k1)
  }

  function AtomizeList(es: Exprs, muts: Muts, k: nat): (Binds, Exprs, nat)
    decreases es, 3
  {
    match es
    case NoExprs => ([], NoExprs, k)
    case More(e, rest) =>
      var (binds, e', k1) := Atomize(e, muts, k);
      var (restBinds, rest', k2) := AtomizeList(rest, muts, k1);
      (binds + restBinds, More(e', rest'), k2)
  }

  /** A spine as one unit: the head and every argument, with all their bindings ahead of it. */
  function NormalizeSpine(e: Expr, muts: Muts, k: nat): (Binds, Expr, nat)
    decreases e, if e.Apply? then 0 else 4
  {
    if !e.Apply? then AtomizeHandle(e, muts, k)
    else
      var (binds, f, k1) := NormalizeSpine(e.function_, muts, k);
      var (argBinds, a, k2) :=
        if f == Builtin(LookupChecked) then AtomizeTupleElements(e.argument, muts, k1)
        else AtomizeHandle(e.argument, muts, k1);
      (binds + argBinds, Apply(f, a), k2)
  }

  /** The lookup's argument stays a pair term; its elements are named. */
  function AtomizeTupleElements(e: Expr, muts: Muts, k: nat): (Binds, Expr, nat)
    decreases e, 3
  {
    if e.Strict? && e.op.MkTuple? then
      var (binds, args, k1) := AtomizeList(e.args, muts, k);
      (binds, Strict(MkTuple, args), k1)
    else Atomize(e, muts, k)
  }

  function NormalizeScrutinee(scrutinee: Option<Expr>, muts: Muts, k: nat): (Option<Expr>, nat)
    decreases scrutinee, 3
  {
    if scrutinee.None? then (None, k)
    else
      var (e, k1) := Normalize(scrutinee.value, muts, k);
      (Some(e), k1)
  }

  function NormalizeBranches(bs: Branches, muts: Muts, k: nat): (Branches, nat)
    decreases bs, 3
  {
    match bs
    case NoBranches => (NoBranches, k)
    case MoreBranches(pattern, guard, body, rest) =>
      var (guard', k1) := Normalize(guard, muts, k);
      var (body', k2) := Normalize(body, muts, k1);
      var (rest', k3) := NormalizeBranches(rest, muts, k2);
      (MoreBranches(pattern, guard', body', rest'), k3)
  }

  // ----- The loops -----

  method PeelOff(e: Expr) returns (binds: Binds, core: Expr)
    ensures (binds, core) == Peel(e)
  {
    binds, core := [], e;
    assert binds + Peel(core).0 == Peel(core).0;
    while IsTempLet(core)
      invariant Peel(e) == (binds + Peel(core).0, Peel(core).1)
      decreases core
    {
      ghost var rest := Peel(core).0;
      assert binds + rest == (binds + [(core.name.n, core.bound)]) + rest[1..];
      binds := binds + [(core.name.n, core.bound)];
      core := core.body;
    }
    assert binds + [] == binds;
  }

  method Seal(binds: Binds, tail: Expr) returns (e: Expr)
    ensures e == LetChain(binds, tail)
  {
    e := tail;
    for i := |binds| downto 0
      invariant e == LetChain(binds[i..], tail)
    {
      assert binds[i..][1..] == binds[i + 1..];
      e := Let(Temp(binds[i].0), false, binds[i].1, e);
    }
  }

  function Append(es: Exprs, e: Expr): Exprs {
    if es.NoExprs? then More(e, NoExprs) else More(es.head, Append(es.tail, e))
  }

  function Joined(es: Exprs, fs: Exprs): Exprs {
    if es.NoExprs? then fs else More(es.head, Joined(es.tail, fs))
  }

  lemma AppendJoined(es: Exprs, e: Expr, fs: Exprs)
    ensures Joined(Append(es, e), fs) == Joined(es, More(e, fs))
  {
  }

  lemma JoinedNone(es: Exprs)
    ensures Joined(es, NoExprs) == es
  {
  }

  method AtomizeEach(es: Exprs, muts: Muts, k: nat) returns (binds: Binds, out: Exprs, k1: nat)
    ensures (binds, out, k1) == AtomizeList(es, muts, k)
  {
    binds, out, k1 := [], NoExprs, k;
    var rest := es;
    assert binds + AtomizeList(es, muts, k).0 == AtomizeList(es, muts, k).0;
    while rest.More?
      invariant var (b, o, k2) := AtomizeList(rest, muts, k1);
                AtomizeList(es, muts, k) == (binds + b, Joined(out, o), k2)
      decreases rest
    {
      var (b, a, k2) := Atomize(rest.head, muts, k1);
      ghost var (b', o', k3) := AtomizeList(rest.tail, muts, k2);
      assert binds + (b + b') == (binds + b) + b';
      AppendJoined(out, a, o');
      binds, out, k1, rest := binds + b, Append(out, a), k2, rest.tail;
    }
    JoinedNone(out);
    assert binds + [] == binds;
  }
}
