/** When a run of a normalized term agrees with a run of the term it came from. */
module AnfRelation {
  import opened Options
  import opened AnfTerms
  import opened AnfPass
  import opened AnfNormal

  /** The names `vars` binds to mutable variables. */
  function MutsOf(vars: Vars): Muts {
    match vars
    case NoVars => {}
    case Bound(x, s, rest) => if s.Loc? then MutsOf(rest) + {x} else MutsOf(rest) - {x}
  }

  /** No immutable binder of `e` takes the name of a mutable variable in its scope. */
  ghost predicate Unshadowed(e: Expr, muts: Muts) {
    match e
    case Lit(_) => true
    case Var(_) => true
    case Builtin(_) => true
    case Lambda(param, byRef, body) => (byRef || param !in muts) && Unshadowed(body, Under(muts, param, byRef))
    case Strict(_, args) => UnshadowedAll(args, muts)
    case Apply(f, a) => Unshadowed(f, muts) && Unshadowed(a, muts)
    case Let(name, _, bound, body) => (name.Src? ==> name.id !in muts) && Unshadowed(bound, muts)
        && Unshadowed(body, muts)
    case MutDecl(x, init, body) => Unshadowed(init, muts) && Unshadowed(body, Under(muts, x, true))
    case ExprStmt(effect, body) => Unshadowed(effect, muts) && Unshadowed(body, muts)
    case MutWrite(_, key, value) => (key.Some? ==> Unshadowed(key.value, muts)) && Unshadowed(value, muts)
    case For(target, iter, body) => target !in muts && Unshadowed(iter, muts) && Unshadowed(body, muts)
    case Case(scrutinee, branches) => (scrutinee.Some? ==> Unshadowed(scrutinee.value, muts))
        && UnshadowedBranches(branches, muts)
    case Feed(_, value) => Unshadowed(value, muts)
    case Define(_, value) => Unshadowed(value, muts)
    case Begin(body) => Unshadowed(body, muts)
  }

  ghost predicate UnshadowedAll(es: Exprs, muts: Muts) {
    es.More? ==> Unshadowed(es.head, muts) && UnshadowedAll(es.tail, muts)
  }

  ghost predicate UnshadowedBranches(bs: Branches, muts: Muts) {
    bs.MoreBranches? ==>
      && PatternNames(bs.pattern) !! muts && Unshadowed(bs.guard, muts) && Unshadowed(bs.body, muts)
      && UnshadowedBranches(bs.rest, muts)
  }

  function PatternNames(p: Pattern): set<string> {
    match p
    case Wild => {}
    case Named(x) => {x}
    case Tagged(_, x) => {x}
  }

  /** `e` is a term the pass is given, under the mutable variables `muts`. */
  ghost predicate Given(e: Expr, muts: Muts) {
    Unnamed(e) && Unshadowed(e, muts)
  }

  /** `f` is what the pass makes of `e`. */
  ghost predicate Translated(e: Expr, f: Expr, muts: Muts) {
    Given(e, muts) && exists k :: Normalize(e, muts, k).0 == f
  }

  // ----- Values -----

  /** The same value, but that a function's body is normalized. */
  ghost predicate Like(v: Value, w: Value)
    decreases v
  {
    match v
    case Num(_) => w == v
    case Unit => w == v
    case Native(_) => w == v
    case Tuple(vs) => w.Tuple? && AllLike(vs, w.elements)
    case List(vs) => w.List? && AllLike(vs, w.elements)
    case Record(fields, vs) => w.Record? && w.fields == fields && AllLike(vs, w.elements)
    case Variant(tag, p) => w.Variant? && w.tag == tag && Like(p, w.payload)
    case Table(es) => w.Table? && EntriesLike(es, w.entries)
    case Closure(param, byRef, body, env) =>
      && w.Closure? && w.param == param && w.byRef == byRef && VarsLike(env.vars, w.env.vars)
      && (byRef || param !in MutsOf(env.vars)) && Translated(body, w.body, Under(MutsOf(env.vars), param, byRef))
  }

  ghost predicate AllLike(vs: seq<Value>, ws: seq<Value>)
    decreases vs
  {
    |vs| == |ws| && forall i :: 0 <= i < |vs| ==> Like(vs[i], ws[i])
  }

  ghost predicate EntriesLike(es: seq<(int, Value)>, fs: seq<(int, Value)>)
    decreases es
  {
    |es| == |fs| && forall i :: 0 <= i < |es| ==> EntryLike(es[i], fs[i])
  }

  ghost predicate EntryLike(e: (int, Value), f: (int, Value))
    decreases e
  {
    e.0 == f.0 && Like(e.1, f.1)
  }

  ghost predicate SlotLike(s: Slot, t: Slot)
    decreases s
  {
    if s.Loc? then t == s else t.Val? && Like(s.v, t.v)
  }

  ghost predicate VarsLike(vars: Vars, ws: Vars)
    decreases vars
  {
    if vars.NoVars? then ws.NoVars?
    else ws.Bound? && ws.x == vars.x && SlotLike(vars.slot, ws.slot) && VarsLike(vars.rest, ws.rest)
  }

  ghost predicate EventLike(a: Event, b: Event) {
    && a.channel == b.channel && a.Fed? == b.Fed? && Like(a.v, b.v)
  }

  ghost predicate StoreLike(s: Store, t: Store) {
    && AllLike(s.cells, t.cells) && |s.out| == |t.out|
    && forall i :: 0 <= i < |s.out| ==> EventLike(s.out[i], t.out[i])
  }

  ghost predicate OperandLike(o: Operand, p: Operand) {
    if o.Handle? then p == o else p.Ready? && Like(o.v, p.v)
  }

  ghost predicate OperandsLike(os: seq<Operand>, ps: seq<Operand>) {
    |os| == |ps| && forall i :: 0 <= i < |os| ==> OperandLike(os[i], ps[i])
  }

  ghost predicate ValuesLike(a: Option<Value>, b: Option<Value>) {
    a.Some? == b.Some? && (a.Some? ==> Like(a.value, b.value))
  }

  /** Both runs have no result, or like results and like stores. */
  ghost predicate ResultLike(a: Option<(Value, Store)>, b: Option<(Value, Store)>) {
    a.Some? == b.Some? && (a.Some? ==> Like(a.value.0, b.value.0) && StoreLike(a.value.1, b.value.1))
  }

  lemma LookupLike(vars: Vars, ws: Vars, x: string)
    requires VarsLike(vars, ws)
    ensures Lookup(vars, x).Some? == Lookup(ws, x).Some?
    ensures Lookup(vars, x).Some? ==> SlotLike(Lookup(vars, x).value, Lookup(ws, x).value)
  {
  }

  lemma MutsLike(vars: Vars, ws: Vars)
    requires VarsLike(vars, ws)
    ensures MutsOf(vars) == MutsOf(ws)
  {
  }

  lemma InMuts(vars: Vars, x: string)
    ensures x in MutsOf(vars) <==> Lookup(vars, x).Some? && Lookup(vars, x).value.Loc?
  {
  }

  // ----- Operators respect it -----

  lemma {:induction false} TotalLike(vs: seq<Value>, ws: seq<Value>)
    requires AllLike(vs, ws)
    ensures Total(vs) == Total(ws)
  {
    if vs != [] {
      assert Like(vs[0], ws[0]);
      TotalLike(vs[1..], ws[1..]);
    }
  }

  lemma InterpretLike(op: Op, vs: seq<Value>, ws: seq<Value>)
    requires AllLike(vs, ws)
    ensures ValuesLike(Interpret(op, vs), Interpret(op, ws))
  {
    if op.Aggregate? && |vs| == 1 && vs[0].List? {
      assert Like(vs[0], ws[0]);
      TotalLike(vs[0].elements, ws[0].elements);
    }
  }

  lemma {:induction false} FindLike(es: seq<(int, Value)>, fs: seq<(int, Value)>, k: int)
    requires EntriesLike(es, fs)
    ensures Like(Find(es, k), Find(fs, k))
  {
    if es != [] {
      assert EntryLike(es[0], fs[0]);
      FindLike(es[1..], fs[1..], k);
    }
  }

  lemma NativeLike(fn: Fn, v: Value, w: Value)
    requires Like(v, w)
    ensures ValuesLike(CallNative(fn, v), CallNative(fn, w))
  {
    if fn.LookupChecked? && v.Tuple? && |v.elements| == 2 {
      assert Like(v.elements[0], w.elements[0]) && Like(v.elements[1], w.elements[1]);
      if v.elements[0].Table? && v.elements[1].Num? {
        FindLike(v.elements[0].entries, w.elements[0].entries, v.elements[1].i);
      }
    }
  }

  lemma WrittenLike(a: Value, b: Value, k: Option<Value>, l: Option<Value>, v: Value, w: Value)
    requires Like(a, b) && ValuesLike(k, l) && Like(v, w)
    ensures ValuesLike(Written(a, k, v), Written(b, l, w))
  {
  }

  lemma DerefLike(o: Operand, p: Operand, st: Store, st': Store)
    requires OperandLike(o, p) && StoreLike(st, st')
    ensures ValuesLike(Deref(o, st), Deref(p, st'))
  {
  }

  lemma WriteLike(vars: Vars, ws: Vars, x: string, k: Option<Value>, l: Option<Value>, v: Value, w: Value, st: Store,
          st': Store)
    requires VarsLike(vars, ws) && ValuesLike(k, l) && Like(v, w) && StoreLike(st, st')
    ensures ResultLike(WriteTo(Lookup(vars, x), k, v, st), WriteTo(Lookup(ws, x), l, w, st'))
  {
    LookupLike(vars, ws, x);
    var s := Lookup(vars, x);
    if s.Some? && s.value.Loc? && s.value.l < |st.cells| {
      WrittenLike(st.cells[s.value.l], st'.cells[s.value.l], k, l, v, w);
    }
  }

  /** A matching pattern binds like values, and no mutable variable. */
  lemma MatchedLike(p: Pattern, v: Value, w: Value, env: Env, env': Env)
    requires Like(v, w) && VarsLike(env.vars, env'.vars) && PatternNames(p) !! MutsOf(env.vars)
    ensures Matched(p, v, env).Some? == Matched(p, w, env').Some?
    ensures Matched(p, v, env).Some? ==>
              && VarsLike(Matched(p, v, env).value.vars, Matched(p, w, env').value.vars)
              && MutsOf(Matched(p, v, env).value.vars) == MutsOf(env.vars)
  {
    match p {
      case Wild =>
      case Named(x) => assert x !in MutsOf(env.vars);
      case Tagged(_, x) => assert x !in MutsOf(env.vars);
    }
  }

  /** A value that holds no function is the same value. */
  ghost predicate Plain(v: Value)
    decreases v
  {
    match v
    case Closure(_, _, _, _) => false
    case Tuple(vs) => forall i :: 0 <= i < |vs| ==> Plain(vs[i])
    case List(vs) => forall i :: 0 <= i < |vs| ==> Plain(vs[i])
    case Record(_, vs) => forall i :: 0 <= i < |vs| ==> Plain(vs[i])
    case Variant(_, p) => Plain(p)
    case Table(es) => forall i :: 0 <= i < |es| ==> Plain(es[i].1)
    case _ => true
  }

  lemma {:induction false} PlainSame(v: Value, w: Value)
    requires Like(v, w) && Plain(v)
    ensures v == w
    decreases v
  {
    match v {
      case Num(_) =>
      case Unit =>
      case Native(_) =>
      case Tuple(vs) => AllSame(vs, w.elements);
      case List(vs) => AllSame(vs, w.elements);
      case Record(_, vs) => AllSame(vs, w.elements);
      case Variant(_, p) => PlainSame(p, w.payload);
      case Table(es) =>
        forall i | 0 <= i < |es|
          ensures es[i] == w.entries[i]
        {
          assert EntryLike(es[i], w.entries[i]);
          PlainSame(es[i].1, w.entries[i].1);
        }
    }
  }

  lemma {:induction false} AllSame(vs: seq<Value>, ws: seq<Value>)
    requires AllLike(vs, ws) && forall i :: 0 <= i < |vs| ==> Plain(vs[i])
    ensures vs == ws
    decreases vs
  {
    forall i | 0 <= i < |vs|
      ensures vs[i] == ws[i]
    {
      PlainSame(vs[i], ws[i]);
    }
  }
}
