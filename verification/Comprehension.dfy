/** The encoding of a comprehension as curried levels under `uncurry`, with its guards as a second
    nest read at the key, against the interpreter's walk over the clauses.

    Sources, guards and the element are effect-free here, so each is its value as a function of the
    variables in scope. */
module Comprehension {
  import opened Options

  datatype Val = Num(i: int) | Bool(b: bool) | Tup(elements: seq<Val>) | Coll(entries: seq<(Val, Val)>)

  type Vars = map<string, Val>

  type Meaning = Vars -> Val

  /** `for target in source if guard …`. Whether the encoding binds the source ahead of its level
      turns on the source's form. */
  datatype Generator = Generator(target: string, source: Meaning, boundAhead: bool, guards: seq<Meaning>)

  // ----- The interpreter's walk -----

  function TupleKey(keys: seq<Val>): Val {
    if |keys| == 1 then keys[0] else Tup(keys)
  }

  predicate AllTrue(guards: seq<Meaning>, vars: Vars) {
    forall i :: 0 <= i < |guards| ==> guards[i](vars) == Bool(true)
  }

  /** The entries of the comprehension, each under the tuple of the positions it came from. */
  function Walk(gs: seq<Generator>, element: Meaning, vars: Vars, keys: seq<Val>): seq<(Val, Val)>
    decreases |gs|, 1
  {
    if gs == [] then [(TupleKey(keys), element(vars))]
    else if gs[0].source(vars).Coll? then WalkEntries(gs, gs[0].source(vars).entries, element, vars, keys)
    else []
  }

  function WalkEntries(gs: seq<Generator>, entries: seq<(Val, Val)>, element: Meaning, vars: Vars,
          keys: seq<Val>): seq<(Val, Val)>
    requires gs != []
    decreases |gs|, 0, |entries|
  {
    if entries == [] then []
    else
      var inner := vars[gs[0].target := entries[0].1];
      (if AllTrue(gs[0].guards, inner) then Walk(gs[1..], element, inner, keys + [entries[0].0]) else [])
      + WalkEntries(gs, entries[1..], element, vars, keys)
  }

  // ----- Terms -----

  /** A name of the program, one the encoding makes up, or the element of a refinement. */
  datatype Name = Src(x: string) | Synth(n: nat) | Elem

  datatype Term =
    | Leaf(meaning: Meaning)
    | Var(name: Name)
    | Lambda(name: Name, body: Term)
    | Apply(argument: Term, function_: Term)
    | Unbox
    | Uncurry(arity: nat)
    | And(left: Term, right: Term)
    | Cast(value: Term, predicate_: Term)
    | Let(name: Name, bound: Term, body: Term)

  datatype Env = Env(vars: Vars, synth: map<nat, Val>, elem: Option<Val>) {
    function Bind(name: Name, v: Val): Env {
      match name
      case Src(x) => Env(vars[x := v], synth, elem)
      case Synth(n) => Env(vars, synth[n := v], elem)
      case Elem => Env(vars, synth, Some(v))
    }
  }

  /** A value, or a collection as the partial function from its positions to its elements. */
  datatype Den = Datum(v: Val) | Data(at: Val -> Option<Den>)

  function Find(entries: seq<(Val, Val)>, k: Val): Option<Val> {
    if entries == [] then None
    else if entries[0].0 == k then Some(entries[0].1)
    else Find(entries[1..], k)
  }

  function Element(entries: seq<(Val, Val)>, k: Val): Option<Den> {
    var v :- Find(entries, k);
    Some(Datum(v))
  }

  /** A nest of collections read at a sequence of positions. */
  function AtAll(d: Den, keys: seq<Val>): Option<Den>
    decreases |keys|
  {
    if keys == [] then Some(d)
    else if d.Datum? then None
    else
      var inner :- d.at(keys[0]);
      AtAll(inner, keys[1..])
  }

  function Lookup(name: Name, env: Env): Option<Den> {
    match name
    case Src(x) => if x in env.vars then Some(Datum(env.vars[x])) else None
    case Synth(n) => if n in env.synth then Some(Datum(env.synth[n])) else None
    case Elem =>
      var v :- env.elem;
      Some(Datum(v))
  }

  function Holds(d: Option<Den>): bool {
    d.Some? && d.value.Datum? && d.value.v == Bool(true)
  }

  function Denote(t: Term, env: Env): Option<Den>
    decreases t
  {
    match t
    case Leaf(meaning) => Some(Datum(meaning(env.vars)))
    case Var(name) => Lookup(name, env)
    case Lambda(name, body) => Some(Data(v => Denote(body, env.Bind(name, v))))
    case Apply(argument, f) =>
      var a :- Denote(argument, env);
      if f.Unbox? then (if a.Datum? && a.v.Coll? then Some(Data(k => Element(a.v.entries, k))) else None)
      else if f.Uncurry? then
        (if a.Data? then Some(Data((k: Val) => if k.Tup? && |k.elements| == f.arity then AtAll(a, k.elements)
            else None)) else None)
      else
        var d :- Denote(f, env);
        if a.Datum? && d.Data? then d.at(a.v) else None
    case Unbox => None
    case Uncurry(_) => None
    case And(l, r) =>
      var a :- Denote(l, env);
      var b :- Denote(r, env);
      if a.Datum? && a.v.Bool? && b.Datum? && b.v.Bool? then Some(Datum(Bool(a.v.b && b.v.b))) else None
    case Cast(value, predicate_) =>
      var d :- Denote(value, env);
      if d.Data? then Some(Data(k => if Holds(Denote(predicate_, env.Bind(Elem, k))) then d.at(k) else None)) else None
    case Let(name, bound, body) =>
      var d :- Denote(bound, env);
      if d.Datum? then Denote(body, env.Bind(name, d.v)) else None
  }

  // ----- The encoding -----

  /** `λ position → position ▷ (source ▷ unbox) ▷ (λ target → element)`. */
  function Level(target: string, source: Term, element: Term, position: nat): Term {
    Lambda(Synth(position), Apply(Apply(Var(Synth(position)), Apply(source, Unbox)), Lambda(Src(target), element)))
  }

  /** All the guards as one conjunction, in order. */
  function Conjoined(guards: seq<Meaning>): Term
    requires guards != []
  {
    if |guards| == 1 then Leaf(guards[0]) else And(Conjoined(guards[..|guards| - 1]), Leaf(guards[|guards| - 1]))
  }

  /** One generator: the level, under a cast to the positions its guards keep. */
  function EncodeOne(g: Generator, element: Term, fresh_: nat): Term {
    var level := Level(g.target, Leaf(g.source), element, fresh_);
    if g.guards == [] then level
    else Cast(level, Apply(Apply(Var(Elem), Apply(Leaf(g.source), Unbox)), Lambda(Src(g.target), Conjoined(g.guards))))
  }

  /** The nest of levels from the `i`th generator on; each takes two fresh names. */
  function Nest(gs: seq<Generator>, i: nat, element: Term, ahead: bool, fresh_: nat): Term
    requires i <= |gs|
    decreases |gs| - i
  {
    if i == |gs| then element
    else
      var g := gs[i];
      var inner := Nest(gs, i + 1, element, ahead, fresh_ + 2);
      if ahead && i > 0 && g.boundAhead then
        Let(Synth(fresh_ + 1), Leaf(g.source), Level(g.target, Var(Synth(fresh_ + 1)), inner, fresh_))
      else Level(g.target, Leaf(g.source), inner, fresh_)
  }

  function AllGuards(gs: seq<Generator>): seq<Meaning> {
    if gs == [] then [] else gs[0].guards + AllGuards(gs[1..])
  }

  function EncodeCurried(gs: seq<Generator>, element: Term): Term {
    var flat := Apply(Nest(gs, 0, element, true, 0), Uncurry(|gs|));
    var guards := AllGuards(gs);
    if guards == [] then flat
    else Cast(flat, Apply(Var(Elem), Apply(Nest(gs, 0, Conjoined(guards), false, 0), Uncurry(|gs|))))
  }

  function Encode(gs: seq<Generator>, element: Meaning): Term {
    if |gs| == 1 then EncodeOne(gs[0], Leaf(element), 0) else EncodeCurried(gs, Leaf(element))
  }

  // ----- What they agree on -----

  /** The variables at a tuple of positions, where every source has its position. */
  function BoundAt(gs: seq<Generator>, keys: seq<Val>, vars: Vars): Option<Vars>
    requires |keys| == |gs|
    decreases |gs|
  {
    if gs == [] then Some(vars)
    else if !gs[0].source(vars).Coll? then None
    else
      var v :- Find(gs[0].source(vars).entries, keys[0]);
      BoundAt(gs[1..], keys[1..], vars[gs[0].target := v])
  }

  /** The value at a tuple of positions, where every guard holds on the way. */
  function Survivor(gs: seq<Generator>, keys: seq<Val>, element: Meaning, vars: Vars): Option<Val>
    requires |keys| == |gs|
    decreases |gs|
  {
    if gs == [] then Some(element(vars))
    else if !gs[0].source(vars).Coll? then None
    else
      var v :- Find(gs[0].source(vars).entries, keys[0]);
      var inner := vars[gs[0].target := v];
      if AllTrue(gs[0].guards, inner) then Survivor(gs[1..], keys[1..], element, inner) else None
  }

  ghost predicate DistinctKeys(entries: seq<(Val, Val)>) {
    forall i, j :: 0 <= i < j < |entries| ==> entries[i].0 != entries[j].0
  }

  /** A source is a collection, whose positions are distinct. */
  ghost predicate Sources(gs: seq<Generator>) {
    forall i, vars :: 0 <= i < |gs| ==> gs[i].source(vars).Coll? && DistinctKeys(gs[i].source(vars).entries)
  }

  ghost predicate Truths(guards: seq<Meaning>) {
    forall i, vars :: 0 <= i < |guards| ==> guards[i](vars).Bool?
  }

  /** What `x` is bound to makes no difference to the guards. */
  ghost predicate Ignores(guards: seq<Meaning>, x: string) {
    forall i, vars, v :: 0 <= i < |guards| ==> SameAt(guards[i], x, vars, v)
  }

  predicate SameAt(m: Meaning, x: string, vars: Vars, v: Val) {
    m(vars[x := v]) == m(vars)
  }

  /** No guard mentions the target of a later generator: binders are unique. */
  ghost predicate UniqueTargets(gs: seq<Generator>) {
    forall i, j :: 0 <= i < j < |gs| ==> Ignores(gs[i].guards, gs[j].target)
  }

  ghost predicate Sound(gs: seq<Generator>) {
    Sources(gs) && UniqueTargets(gs) && forall i :: 0 <= i < |gs| ==> Truths(gs[i].guards)
  }

  // ----- The walk -----

  lemma {:induction false} FindJoined(a: seq<(Val, Val)>, b: seq<(Val, Val)>, k: Val)
    ensures Find(a + b, k) == if Find(a, k).Some? then Find(a, k) else Find(b, k)
  {
    if a == [] {
      assert a + b == b;
    } else {
      assert (a + b)[1..] == a[1..] + b;
      if a[0].0 != k { FindJoined(a[1..], b, k); }
    }
  }

  lemma SameTuple(a: seq<Val>, b: seq<Val>)
    requires |a| == |b| && TupleKey(a) == TupleKey(b)
    ensures a == b
  {
    if |a| == 1 { assert a == [a[0]] && b == [b[0]]; }
  }

  /** The walk's keys are the tuples of that many positions, after those already passed. */
  ghost predicate Prefixed(out: seq<(Val, Val)>, prefix: seq<Val>, n: nat) {
    forall i :: 0 <= i < |out| ==> exists keys :: |keys| == n && out[i].0 == TupleKey(prefix + keys)
  }

  lemma KeyOf(out: seq<(Val, Val)>, prefix: seq<Val>, n: nat, i: nat) returns (keys: seq<Val>)
    requires Prefixed(out, prefix, n) && i < |out|
    ensures |keys| == n && out[i].0 == TupleKey(prefix + keys)
  {
    var k := out[i].0;
    keys :| |keys| == n && k == TupleKey(prefix + keys);
  }

  lemma {:induction false} FindNone(out: seq<(Val, Val)>, k: Val)
    requires forall i :: 0 <= i < |out| ==> out[i].0 != k
    ensures Find(out, k) == None
  {
    if out != [] { FindNone(out[1..], k); }
  }

  lemma {:induction false} WalkPrefixed(gs: seq<Generator>, element: Meaning, vars: Vars, prefix: seq<Val>)
    ensures Prefixed(Walk(gs, element, vars, prefix), prefix, |gs|)
    decreases |gs|, 1
  {
    if gs == [] {
      assert prefix + [] == prefix;
    } else if gs[0].source(vars).Coll? {
      EntriesPrefixed(gs, gs[0].source(vars).entries, element, vars, prefix);
    }
  }

  lemma {:induction false} EntriesPrefixed(gs: seq<Generator>, entries: seq<(Val, Val)>, element: Meaning, vars: Vars,
          prefix: seq<Val>)
    requires gs != []
    ensures Prefixed(WalkEntries(gs, entries, element, vars, prefix), prefix, |gs|)
    decreases |gs|, 0, |entries|
  {
    if entries != [] {
      var k, inner := entries[0].0, vars[gs[0].target := entries[0].1];
      var first := Walk(gs[1..], element, inner, prefix + [k]);
      WalkPrefixed(gs[1..], element, inner, prefix + [k]);
      forall i | 0 <= i < |first|
        ensures exists keys :: |keys| == |gs| && first[i].0 == TupleKey(prefix + keys)
      {
        var keys := KeyOf(first, prefix + [k], |gs| - 1, i);
        assert prefix + [k] + keys == prefix + ([k] + keys);
      }
      EntriesPrefixed(gs, entries[1..], element, vars, prefix);
    }
  }

  /** What the walk collects at a tuple of positions. */
  lemma {:induction false} WalkFinds(gs: seq<Generator>, element: Meaning, vars: Vars, prefix: seq<Val>, keys: seq<Val>)
    requires Sources(gs) && |keys| == |gs|
    ensures Find(Walk(gs, element, vars, prefix), TupleKey(prefix + keys)) == Survivor(gs, keys, element, vars)
    decreases |gs|, 1
  {
    if gs == [] {
      assert prefix + keys == prefix;
    } else {
      EntriesFind(gs, gs[0].source(vars).entries, element, vars, prefix, keys);
    }
  }

  lemma {:induction false} EntriesFind(gs: seq<Generator>, entries: seq<(Val, Val)>, element: Meaning, vars: Vars,
          prefix: seq<Val>, keys: seq<Val>)
    requires gs != [] && Sources(gs) && |keys| == |gs| && DistinctKeys(entries)
    ensures Find(WalkEntries(gs, entries, element, vars, prefix), TupleKey(prefix + keys))
         == (var v := Find(entries, keys[0]);
             if v.None? then None
             else
               var inner := vars[gs[0].target := v.value];
               if AllTrue(gs[0].guards, inner) then Survivor(gs[1..], keys[1..], element, inner) else None)
    decreases |gs|, 0, |entries|
  {
    if entries != [] {
      var k, inner := entries[0].0, vars[gs[0].target := entries[0].1];
      var first: seq<(Val, Val)> := if AllTrue(gs[0].guards, inner) then Walk(gs[1..], element, inner, prefix + [k])
          else [];
      var rest := WalkEntries(gs, entries[1..], element, vars, prefix);
      FindJoined(first, rest, TupleKey(prefix + keys));
      EntriesFind(gs, entries[1..], element, vars, prefix, keys);
      if k == keys[0] {
        assert prefix + keys == prefix + [k] + keys[1..];
        WalkFinds(gs[1..], element, inner, prefix + [k], keys[1..]);
        FindNone(entries[1..], k);
      } else {
        OtherFirst(gs, element, inner, prefix, k, keys);
      }
    }
  }

  lemma OtherFirst(gs: seq<Generator>, element: Meaning, inner: Vars, prefix: seq<Val>, k: Val, keys: seq<Val>)
    requires gs != [] && |keys| == |gs| && k != keys[0]
    ensures Find(Walk(gs[1..], element, inner, prefix + [k]), TupleKey(prefix + keys)) == None
  {
    var first := Walk(gs[1..], element, inner, prefix + [k]);
    WalkPrefixed(gs[1..], element, inner, prefix + [k]);
    forall i | 0 <= i < |first|
      ensures first[i].0 != TupleKey(prefix + keys)
    {
      var tail := KeyOf(first, prefix + [k], |gs| - 1, i);
      assert (prefix + [k] + tail)[|prefix|] == k && (prefix + keys)[|prefix|] == keys[0];
      if first[i].0 == TupleKey(prefix + keys) { SameTuple(prefix + [k] + tail, prefix + keys); }
    }
    FindNone(first, TupleKey(prefix + keys));
  }

  /** The key is of an element at one of the source's positions. */
  ghost predicate CameFrom(k: Val, prefix: seq<Val>, n: nat, entries: seq<(Val, Val)>) {
    exists j, tail :: 0 <= j < |entries| && |tail| == n && k == TupleKey(prefix + [entries[j].0] + tail)
  }

  ghost predicate From(out: seq<(Val, Val)>, prefix: seq<Val>, n: nat, entries: seq<(Val, Val)>) {
    forall i :: 0 <= i < |out| ==> CameFrom(out[i].0, prefix, n, entries)
  }

  lemma SourceOf(out: seq<(Val, Val)>, prefix: seq<Val>, n: nat, entries: seq<(Val, Val)>, i: nat) returns (j: nat,
          tail: seq<Val>)
    requires From(out, prefix, n, entries) && i < |out|
    ensures j < |entries| && |tail| == n && out[i].0 == TupleKey(prefix + [entries[j].0] + tail)
  {
    var k := out[i].0;
    assert CameFrom(k, prefix, n, entries);
    j, tail :| j < |entries| && |tail| == n && k == TupleKey(prefix + [entries[j].0] + tail);
  }

  lemma CameLater(k: Val, prefix: seq<Val>, n: nat, entries: seq<(Val, Val)>)
    requires entries != [] && CameFrom(k, prefix, n, entries[1..])
    ensures CameFrom(k, prefix, n, entries)
  {
    var j, tail :| 0 <= j < |entries[1..]| && |tail| == n && k == TupleKey(prefix + [entries[1..][j].0] + tail);
    assert entries[1..][j] == entries[j + 1];
  }

  lemma CameFirst(out: seq<(Val, Val)>, prefix: seq<Val>, n: nat, entries: seq<(Val, Val)>, i: nat)
    requires entries != [] && Prefixed(out, prefix + [entries[0].0], n) && i < |out|
    ensures CameFrom(out[i].0, prefix, n, entries)
  {
    var tail := KeyOf(out, prefix + [entries[0].0], n, i);
  }

  lemma {:induction false} EntriesFrom(gs: seq<Generator>, entries: seq<(Val, Val)>, element: Meaning, vars: Vars,
          prefix: seq<Val>)
    requires gs != []
    ensures From(WalkEntries(gs, entries, element, vars, prefix), prefix, |gs| - 1, entries)
    decreases |entries|
  {
    hide CameFrom, Prefixed, AllTrue, Walk;
    if entries != [] {
      var inner := vars[gs[0].target := entries[0].1];
      var first: seq<(Val, Val)> := if AllTrue(gs[0].guards, inner)
          then Walk(gs[1..], element, inner, prefix + [entries[0].0]) else [];
      var rest := WalkEntries(gs, entries[1..], element, vars, prefix);
      WalkPrefixed(gs[1..], element, inner, prefix + [entries[0].0]);
      EntriesFrom(gs, entries[1..], element, vars, prefix);
      forall i | 0 <= i < |first + rest| ensures CameFrom((first + rest)[i].0, prefix, |gs| - 1, entries) {
        if i < |first| {
          CameFirst(first, prefix, |gs| - 1, entries, i);
        } else {
          CameLater(rest[i - |first|].0, prefix, |gs| - 1, entries);
        }
      }
    }
  }

  /** The walk collects at most one entry under a key. */
  lemma {:induction false} WalkDistinct(gs: seq<Generator>, element: Meaning, vars: Vars, prefix: seq<Val>)
    requires Sources(gs)
    ensures DistinctKeys(Walk(gs, element, vars, prefix))
    decreases |gs|, 1
  {
    if gs != [] { EntriesDistinct(gs, gs[0].source(vars).entries, element, vars, prefix); }
  }

  lemma {:induction false} EntriesDistinct(gs: seq<Generator>, entries: seq<(Val, Val)>, element: Meaning, vars: Vars,
          prefix: seq<Val>)
    requires gs != [] && Sources(gs) && DistinctKeys(entries)
    ensures DistinctKeys(WalkEntries(gs, entries, element, vars, prefix))
    decreases |gs|, 0, |entries|
  {
    if entries != [] {
      var k, inner := entries[0].0, vars[gs[0].target := entries[0].1];
      var first: seq<(Val, Val)> := if AllTrue(gs[0].guards, inner) then Walk(gs[1..], element, inner, prefix + [k])
          else [];
      var rest := WalkEntries(gs, entries[1..], element, vars, prefix);
      WalkDistinct(gs[1..], element, inner, prefix + [k]);
      EntriesDistinct(gs, entries[1..], element, vars, prefix);
      WalkPrefixed(gs[1..], element, inner, prefix + [k]);
      EntriesFrom(gs, entries[1..], element, vars, prefix);
      forall i, j | 0 <= i < |first| && 0 <= j < |rest|
        ensures first[i].0 != rest[j].0
      {
        var a := KeyOf(first, prefix + [k], |gs| - 1, i);
        var l, b := SourceOf(rest, prefix, |gs| - 1, entries[1..], j);
        assert entries[1..][l] == entries[l + 1];
        assert (prefix + [k] + a)[|prefix|] == k && (prefix + [entries[l + 1].0] + b)[|prefix|] == entries[l + 1].0;
        if first[i].0 == rest[j].0 { SameTuple(prefix + [k] + a, prefix + [entries[l + 1].0] + b); }
      }
    }
  }

  // ----- Guards, all at the end -----

  /** The guards of a generator hold at its own binding exactly when they hold at the end. */
  lemma {:induction false} GuardsKept(guards: seq<Meaning>, gs: seq<Generator>, keys: seq<Val>, vars: Vars)
    requires |keys| == |gs| && (forall j :: 0 <= j < |gs| ==> Ignores(guards, gs[j].target))
             && BoundAt(gs, keys, vars).Some?
    ensures AllTrue(guards, BoundAt(gs, keys, vars).value) == AllTrue(guards, vars)
    decreases |gs|
  {
    if gs != [] {
      var v := Find(gs[0].source(vars).entries, keys[0]).value;
      assert Ignores(guards, gs[0].target);
      assert forall i :: 0 <= i < |guards| ==> SameAt(guards[i], gs[0].target, vars, v);
      GuardsKept(guards, gs[1..], keys[1..], vars[gs[0].target := v]);
    }
  }

  lemma TrueJoined(a: seq<Meaning>, b: seq<Meaning>, vars: Vars)
    ensures AllTrue(a + b, vars) == (AllTrue(a, vars) && AllTrue(b, vars))
  {
    assert forall i :: 0 <= i < |a| ==> (a + b)[i] == a[i];
    assert forall i :: 0 <= i < |b| ==> (a + b)[|a| + i] == b[i];
  }

  lemma {:induction false} SurvivorAtEnd(gs: seq<Generator>, keys: seq<Val>, element: Meaning, vars: Vars)
    requires |keys| == |gs| && UniqueTargets(gs)
    ensures Survivor(gs, keys, element, vars)
         == (var end := BoundAt(gs, keys, vars);
             if end.None? || !AllTrue(AllGuards(gs), end.value) then None else Some(element(end.value)))
    decreases |gs|
  {
    if gs != [] && gs[0].source(vars).Coll? && Find(gs[0].source(vars).entries, keys[0]).Some? {
      var inner := vars[gs[0].target := Find(gs[0].source(vars).entries, keys[0]).value];
      assert forall j :: 0 <= j < |gs[1..]| ==> gs[1..][j] == gs[j + 1];
      SurvivorAtEnd(gs[1..], keys[1..], element, inner);
      var end := BoundAt(gs[1..], keys[1..], inner);
      if end.Some? {
        GuardsKept(gs[0].guards, gs[1..], keys[1..], inner);
        TrueJoined(gs[0].guards, AllGuards(gs[1..]), end.value);
      }
    }
  }

  // ----- The encoding -----

  /** `t` denotes `m` of the variables in scope, whatever else is. */
  ghost predicate Means(t: Term, m: Meaning) {
    forall env :: Denote(t, env) == Some(Datum(m(env.vars)))
  }

  lemma {:induction false} ConjoinedMeans(guards: seq<Meaning>, env: Env)
    requires guards != [] && Truths(guards)
    ensures Denote(Conjoined(guards), env) == Some(Datum(Bool(AllTrue(guards, env.vars))))
    decreases |guards|
  {
    var n := |guards| - 1;
    assert guards[n](env.vars).Bool?;
    if n > 0 {
      var front := guards[..n];
      assert forall i :: 0 <= i < n ==> front[i] == guards[i];
      ConjoinedMeans(front, env);
      assert AllTrue(guards, env.vars) == (AllTrue(front, env.vars) && guards[n](env.vars) == Bool(true));
    }
  }

  lemma UnboxAt(source: Term, env: Env, c: Val, k: Val)
    requires c.Coll? && Denote(source, env) == Some(Datum(c))
    ensures var d := Denote(Apply(source, Unbox), env);
            d.Some? && d.value.Data? && d.value.at(k) == Element(c.entries, k)
  {
  }

  lemma ReadAt(source: Term, p: nat, env: Env, c: Val, k: Val)
    requires c.Coll? && Denote(source, env) == Some(Datum(c)) && p in env.synth && env.synth[p] == k
    ensures Denote(Apply(Var(Synth(p)), Apply(source, Unbox)), env) == Element(c.entries, k)
  {
    UnboxAt(source, env, c, k);
    assert Denote(Var(Synth(p)), env) == Some(Datum(k));
  }

  lemma LambdaAt(name: Name, body: Term, env: Env, v: Val)
    ensures var d := Denote(Lambda(name, body), env);
            d.Some? && d.value.Data? && d.value.at(v) == Denote(body, env.Bind(name, v))
  {
  }

  /** A level read at a position, whatever term its source is. */
  lemma LevelAt(target: string, source: Term, element: Term, p: nat, env: Env, c: Val, k: Val)
    requires c.Coll? && Denote(source, env.Bind(Synth(p), k)) == Some(Datum(c))
    ensures var d := Denote(Level(target, source, element, p), env);
            && d.Some? && d.value.Data?
            && d.value.at(k) == (var v := Find(c.entries, k);
                                 if v.None? then None else Denote(element,
                                     env.Bind(Synth(p), k).Bind(Src(target), v.value)))
  {
    var env1 := env.Bind(Synth(p), k);
    var read, step := Apply(Var(Synth(p)), Apply(source, Unbox)), Lambda(Src(target), element);
    LambdaAt(Synth(p), Apply(read, step), env, k);
    ReadAt(source, p, env1, c, k);
    var v := Find(c.entries, k);
    if v.Some? { LambdaAt(Src(target), element, env1, v.value); }
    StepAt(read, step, env1, v);
  }

  lemma StepAt(read: Term, step: Term, env: Env, v: Option<Val>)
    requires Denote(read, env) == (if v.None? then None else Some(Datum(v.value)))
    requires step.Lambda? && Denote(step, env).Some? && Denote(step, env).value.Data?
    ensures Denote(Apply(read, step), env) == if v.None? then None else Denote(step, env).value.at(v.value)
  {
  }

  /** The `i`th level of a nest, read at a position. */
  lemma NestAt(gs: seq<Generator>, i: nat, element: Term, ahead: bool, p: nat, env: Env, k: Val) returns (inner: Env)
    requires i < |gs| && Sources(gs)
    ensures var d := Denote(Nest(gs, i, element, ahead, p), env);
            var v := Find(gs[i].source(env.vars).entries, k);
            && d.Some? && d.value.Data?
            && d.value.at(k) == (if v.None? then None else Denote(Nest(gs, i + 1, element, ahead, p + 2), inner))
            && (v.Some? ==> inner.vars == env.vars[gs[i].target := v.value])
  {
    var g := gs[i];
    var c := g.source(env.vars);
    var rest := Nest(gs, i + 1, element, ahead, p + 2);
    var v := Find(c.entries, k);
    var named := ahead && i > 0 && g.boundAhead;
    var env0 := if named then env.Bind(Synth(p + 1), c) else env;
    var source := if named then Var(Synth(p + 1)) else Leaf(g.source);
    SourceDenotes(g, named, p, env, k);
    LevelAt(g.target, source, rest, p, env0, c, k);
    inner := env0.Bind(Synth(p), k).Bind(Src(g.target), if v.Some? then v.value else k);
    if named { LetDenotes(g, p, env, Level(g.target, source, rest, p)); }
  }

  /** The source of a level, in place or by the name it is bound to ahead. */
  lemma SourceDenotes(g: Generator, named: bool, p: nat, env: Env, k: Val)
    ensures var c := g.source(env.vars);
            var env0 := if named then env.Bind(Synth(p + 1), c) else env;
            Denote(if named then Var(Synth(p + 1)) else Leaf(g.source), env0.Bind(Synth(p), k)) == Some(Datum(c))
  {
  }

  lemma LetDenotes(g: Generator, p: nat, env: Env, body: Term)
    ensures Denote(Let(Synth(p + 1), Leaf(g.source), body), env)
            == Denote(body, env.Bind(Synth(p + 1), g.source(env.vars)))
  {
  }

  /** A nest read at a tuple of positions. */
  lemma {:induction false} NestMeans(gs: seq<Generator>, i: nat, element: Term, m: Meaning, ahead: bool, p: nat,
          env: Env, keys: seq<Val>)
    requires i <= |gs| && |keys| == |gs| - i && Sources(gs) && Means(element, m)
    ensures var d := Denote(Nest(gs, i, element, ahead, p), env);
            var end := BoundAt(gs[i..], keys, env.vars);
            d.Some? && AtAll(d.value, keys) == (if end.None? then None else Some(Datum(m(end.value))))
    decreases |gs| - i
  {
    if i == |gs| {
      assert Denote(element, env) == Some(Datum(m(env.vars)));
    } else {
      assert gs[i..][0] == gs[i] && gs[i..][1..] == gs[i + 1..];
      var inner := NestAt(gs, i, element, ahead, p, env, keys[0]);
      if Find(gs[i].source(env.vars).entries, keys[0]).Some? {
        NestMeans(gs, i + 1, element, m, ahead, p + 2, inner, keys[1..]);
      }
    }
  }

  /** `uncurry` of a nest, read at a key. */
  lemma UncurriedAt(gs: seq<Generator>, element: Term, m: Meaning, ahead: bool, env: Env, k: Val)
    requires gs != [] && Sources(gs) && Means(element, m)
    ensures var d := Denote(Apply(Nest(gs, 0, element, ahead, 0), Uncurry(|gs|)), env);
            && d.Some? && d.value.Data?
            && d.value.at(k) == (if !k.Tup? || |k.elements| != |gs| then None
                                 else var end := BoundAt(gs, k.elements, env.vars);
                                      if end.None? then None else Some(Datum(m(end.value))))
  {
    var any := NestAt(gs, 0, element, ahead, 0, env, k);
    if k.Tup? && |k.elements| == |gs| {
      NestMeans(gs, 0, element, m, ahead, 0, env, k.elements);
      assert gs[0..] == gs;
    }
  }

  lemma GuardsMean(guards: seq<Meaning>)
    requires guards != [] && Truths(guards)
    ensures Means(Conjoined(guards), vars => Bool(AllTrue(guards, vars)))
  {
    forall env: Env
      ensures Denote(Conjoined(guards), env) == Some(Datum((vars => Bool(AllTrue(guards, vars)))(env.vars)))
    {
      ConjoinedMeans(guards, env);
    }
  }

  lemma {:induction false} AllGuardsTruths(gs: seq<Generator>)
    requires forall i :: 0 <= i < |gs| ==> Truths(gs[i].guards)
    ensures Truths(AllGuards(gs))
  {
    if gs != [] {
      AllGuardsTruths(gs[1..]);
      var a, b := gs[0].guards, AllGuards(gs[1..]);
      assert Truths(a);
      assert forall i :: 0 <= i < |a| + |b| ==> (a + b)[i] == if i < |a| then a[i] else b[i - |a|];
    }
  }

  lemma CastAt(value: Term, predicate_: Term, env: Env, k: Val)
    requires Denote(value, env).Some? && Denote(value, env).value.Data?
    ensures var d := Denote(Cast(value, predicate_), env);
            && d.Some? && d.value.Data?
            && d.value.at(k) == if Holds(Denote(predicate_, env.Bind(Elem, k))) then Denote(value, env).value.at(k)
                else None
  {
  }

  /** A filter read at the refinement's element. */
  lemma FilterAt(filter: Term, env: Env, k: Val)
    requires filter.Apply? && env.elem == Some(k) && Denote(filter, env).Some? && Denote(filter, env).value.Data?
    ensures Denote(Apply(Var(Elem), filter), env) == Denote(filter, env).value.at(k)
  {
    assert Denote(Var(Elem), env) == Some(Datum(k));
  }

  /** Several generators: the curried levels, and the guards' nest read at the key. */
  lemma CurriedMeans(gs: seq<Generator>, element: Meaning, env: Env, k: Val)
    requires gs != [] && Sound(gs)
    ensures var d := Denote(EncodeCurried(gs, Leaf(element)), env);
            && d.Some? && d.value.Data?
            && d.value.at(k) == (if !k.Tup? || |k.elements| != |gs| then None
                                 else var v := Survivor(gs, k.elements, element, env.vars);
                                      if v.None? then None else Some(Datum(v.value)))
  {
    var flat := Apply(Nest(gs, 0, Leaf(element), true, 0), Uncurry(|gs|));
    UncurriedAt(gs, Leaf(element), element, true, env, k);
    var guards := AllGuards(gs);
    if k.Tup? && |k.elements| == |gs| { SurvivorAtEnd(gs, k.elements, element, env.vars); }
    if guards != [] {
      var filter := Apply(Nest(gs, 0, Conjoined(guards), false, 0), Uncurry(|gs|));
      var env1 := env.Bind(Elem, k);
      AllGuardsTruths(gs);
      GuardsMean(guards);
      UncurriedAt(gs, Conjoined(guards), vars => Bool(AllTrue(guards, vars)), false, env1, k);
      FilterAt(filter, env1, k);
      CastAt(flat, Apply(Var(Elem), filter), env, k);
    }
  }

  /** One generator: its own encoding, keyed by the position alone. */
  lemma OneMeans(g: Generator, element: Meaning, env: Env, k: Val)
    requires Sound([g])
    ensures var d := Denote(EncodeOne(g, Leaf(element), 0), env);
            && d.Some? && d.value.Data?
            && d.value.at(k) == (var v := Survivor([g], [k], element, env.vars);
                                 if v.None? then None else Some(Datum(v.value)))
  {
    var gs := [g];
    assert gs[0] == g;
    var c := g.source(env.vars);
    LevelAt(g.target, Leaf(g.source), Leaf(element), 0, env, c, k);
    if g.guards != [] {
      var env1 := env.Bind(Elem, k);
      var read, step := Apply(Var(Elem), Apply(Leaf(g.source), Unbox)), Lambda(Src(g.target), Conjoined(g.guards));
      UnboxAt(Leaf(g.source), env1, c, k);
      FilterAt(Apply(Leaf(g.source), Unbox), env1, k);
      var v := Find(c.entries, k);
      if v.Some? {
        LambdaAt(Src(g.target), Conjoined(g.guards), env1, v.value);
        ConjoinedMeans(g.guards, env1.Bind(Src(g.target), v.value));
      }
      LambdaAt(Src(g.target), Conjoined(g.guards), env1, k);
      StepAt(read, step, env1, v);
      CastAt(Level(g.target, Leaf(g.source), Leaf(element), 0), Apply(read, step), env, k);
    }
  }

  /** The encoding denotes the map that the interpreter's walk collects: at every key, the element
      the walk collected there, or nothing where it collected none. */
  lemma EncodingWalks(gs: seq<Generator>, element: Meaning, env: Env, k: Val)
    requires gs != [] && Sound(gs)
    ensures var d := Denote(Encode(gs, element), env);
            d.Some? && d.value.Data? && d.value.at(k) == Element(Walk(gs, element, env.vars, []), k)
  {
    var out := Walk(gs, element, env.vars, []);
    if |gs| == 1 {
      assert gs == [gs[0]];
      OneMeans(gs[0], element, env, k);
      WalkFinds(gs, element, env.vars, [], [k]);
      assert [] + [k] == [k];
    } else {
      CurriedMeans(gs, element, env, k);
      if k.Tup? && |k.elements| == |gs| {
        WalkFinds(gs, element, env.vars, [], k.elements);
        assert [] + k.elements == k.elements;
      } else {
        var none: seq<Val> := [];
        WalkPrefixed(gs, element, env.vars, none);
        forall i | 0 <= i < |out|
          ensures out[i].0 != k
        {
          var keys := KeyOf(out, none, |gs|, i);
          assert none + keys == keys;
        }
        FindNone(out, k);
      }
    }
  }

  // ----- The loops -----

  method FlattenedNest(gs: seq<Generator>, element: Term, ahead: bool) returns (t: Term)
    ensures t == Apply(Nest(gs, 0, element, ahead, 0), Uncurry(|gs|))
  {
    var body := element;
    for i := |gs| downto 0
      invariant body == Nest(gs, i, element, ahead, 2 * i)
    {
      var g := gs[i];
      if ahead && i > 0 && g.boundAhead {
        body := Let(Synth(2 * i + 1), Leaf(g.source), Level(g.target, Var(Synth(2 * i + 1)), body, 2 * i));
      } else {
        body := Level(g.target, Leaf(g.source), body, 2 * i);
      }
    }
    t := Apply(body, Uncurry(|gs|));
  }

  method ConjoinGuards(gs: seq<Generator>) returns (filter: Option<Term>)
    ensures filter == if AllGuards(gs) == [] then None else Some(Conjoined(AllGuards(gs)))
  {
    filter := None;
    ghost var done := [];
    for i := 0 to |gs|
      invariant filter == if done == [] then None else Some(Conjoined(done))
      invariant AllGuards(gs) == done + AllGuards(gs[i..])
    {
      assert gs[i..][0] == gs[i] && gs[i..][1..] == gs[i + 1..];
      ghost var before := done;
      for j := 0 to |gs[i].guards|
        invariant done == before + gs[i].guards[..j]
        invariant filter == if done == [] then None else Some(Conjoined(done))
      {
        var guard := gs[i].guards[j];
        assert (done + [guard])[..|done|] == done;
        filter := Some(if filter.Some? then And(filter.value, Leaf(guard)) else Leaf(guard));
        done := done + [guard];
      }
      assert before + (gs[i].guards + AllGuards(gs[i + 1..])) == done + AllGuards(gs[i + 1..]);
    }
    assert done + [] == done;
  }

  method EncodeSeveral(gs: seq<Generator>, element: Term) returns (t: Term)
    ensures t == EncodeCurried(gs, element)
  {
    var filter := ConjoinGuards(gs);
    t := FlattenedNest(gs, element, true);
    if filter.Some? {
      var nest := FlattenedNest(gs, filter.value, false);
      t := Cast(t, Apply(Var(Elem), nest));
    }
  }
}
