/** When two decided values are equal. A collection compares as a multiset of entries, with each
    commit time in a key replaced by its rank among those that share the rest of the key. */
module ValueEquality {
  import opened Options
  import opened InterpSyntax

  type Entry = (Data, Data)
  type Field = (string, Data)

  function Size(d: Data): (n: nat)
    ensures n > 0
    decreases d
  {
    match d
    case Record(fields) => 1 + FieldsSize(fields)
    case Variant(_, payload) => 1 + Size(payload)
    case Nominal(_, _, arg) => 1 + Size(arg)
    case Coll(entries) => 1 + EntriesSize(entries)
    case _ => 1
  }

  function FieldSize(f: Field): (n: nat)
    ensures n == Size(f.1)
    decreases f
  {
    Size(f.1)
  }

  function FieldsSize(fs: seq<Field>): nat
    decreases fs
  {
    if fs == [] then 0 else FieldSize(fs[0]) + FieldsSize(fs[1..])
  }

  function EntrySize(e: Entry): (n: nat)
    ensures n == Size(e.0) + Size(e.1)
    decreases e
  {
    Size(e.0) + Size(e.1)
  }

  function EntriesSize(es: seq<Entry>): nat
    decreases es
  {
    if es == [] then 0 else EntrySize(es[0]) + EntriesSize(es[1..])
  }

  // ----- The canonical order -----

  function Compare(a: int, b: int): int {
    if a < b then -1 else if a > b then 1 else 0
  }

  function CompareText(a: string, b: string): int {
    if a == [] || b == [] then Compare(|a|, |b|)
    else if a[0] != b[0] then Compare(a[0] as int, b[0] as int)
    else CompareText(a[1..], b[1..])
  }

  /** The order of the kinds of values. */
  function KindOf(d: Data): nat {
    match d
    case Unit => 0
    case Bool(_) => 1
    case Int(_) => 2
    case Str(_) => 3
    case Record(_) => 4
    case Variant(_, _) => 5
    case Coll(_) => 6
    case CommitTime(_) => 7
    case Nominal(_, _, _) => 9
  }

  /** A total order, used only to pair entries up. Records and collections order by how they are
      shown, which shows commit times as they are. */
  function TotalCompare(a: Data, b: Data): int
    decreases Size(a) + Size(b), 1
  {
    if KindOf(a) != KindOf(b) then Compare(KindOf(a), KindOf(b))
    else if a.Int? then Compare(a.i, b.i)
    else if a.Str? then CompareText(a.s, b.s)
    else if a.Bool? then Compare(if a.b then 1 else 0, if b.b then 1 else 0)
    else if a.CommitTime? then Compare(a.t, b.t)
    else if a.Variant? then
      if CompareText(a.tag, b.tag) != 0 then CompareText(a.tag, b.tag) else TotalCompare(a.payload, b.payload)
    else if a.Nominal? then
      if CompareText(a.ty, b.ty) != 0 then CompareText(a.ty, b.ty)
      else if CompareText(a.ctor, b.ctor) != 0 then CompareText(a.ctor, b.ctor)
      else TotalCompare(a.arg, b.arg)
    else CompareText(Show(a), Show(b))
  }

  function CompareEntries(a: Entry, b: Entry): int
    decreases EntrySize(a) + EntrySize(b), 2
  {
    if TotalCompare(a.0, b.0) != 0 then TotalCompare(a.0, b.0) else TotalCompare(a.1, b.1)
  }

  function Insert(e: Entry, es: seq<Entry>): (r: seq<Entry>)
    ensures multiset(r) == multiset([e]) + multiset(es) && EntriesSize(r) == EntrySize(e) + EntriesSize(es)
            && |r| == |es| + 1
    decreases EntrySize(e) + EntriesSize(es), 3
  {
    if es == [] || CompareEntries(e, es[0]) <= 0 then
      assert ([e] + es)[1..] == es;
      [e] + es
    else
      var rest := Insert(e, es[1..]);
      assert es == [es[0]] + es[1..];
      assert ([es[0]] + rest)[1..] == rest;
      [es[0]] + rest
  }

  function Sorted(es: seq<Entry>): (r: seq<Entry>)
    ensures multiset(r) == multiset(es) && EntriesSize(r) == EntriesSize(es) && |r| == |es|
    decreases EntriesSize(es), 4
  {
    if es == [] then []
    else
      assert es == [es[0]] + es[1..];
      Insert(es[0], Sorted(es[1..]))
  }

  function InsertField(f: Field, fs: seq<Field>): (r: seq<Field>)
    ensures FieldsSize(r) == Size(f.1) + FieldsSize(fs) && |r| == |fs| + 1
  {
    if fs == [] || CompareText(f.0, fs[0].0) <= 0 then
      assert ([f] + fs)[1..] == fs;
      [f] + fs
    else
      var rest := InsertField(f, fs[1..]);
      assert ([fs[0]] + rest)[1..] == rest;
      [fs[0]] + rest
  }

  function SortedFields(fs: seq<Field>): (r: seq<Field>)
    ensures FieldsSize(r) == FieldsSize(fs) && |r| == |fs|
  {
    if fs == [] then [] else InsertField(fs[0], SortedFields(fs[1..]))
  }

  // ----- How a value is shown -----

  function Digits(n: nat): string {
    if n < 10 then [('0' as int + n) as char] else Digits(n / 10) + [('0' as int + n % 10) as char]
  }

  function ShowInt(n: int): string {
    if n < 0 then "-" + Digits(-n) else Digits(n)
  }

  function Show(d: Data): string
    decreases Size(d), 0
  {
    match d
    case Int(i) => ShowInt(i)
    case Str(s) => "\"" + s + "\""
    case Bool(b) => if b then "true" else "false"
    case Unit => "()"
    case CommitTime(t) => "t" + ShowInt(t)
    case Record(fields) => "(" + ShowFields(SortedFields(fields)) + ")"
    case Variant(tag, payload) => "`" + tag + "(" + Show(payload) + ")"
    case Nominal(ty, ctor, arg) => ty + "::" + ctor + "(" + Show(arg) + ")"
    case Coll(entries) =>
      var es := Sorted(entries);
      "[" + ShowEntries(es, Dense(es, 0)) + "]"
  }

  predicate Dense(es: seq<Entry>, i: nat) {
    es == [] || (es[0].0 == Int(i) && Dense(es[1..], i + 1))
  }

  function ShowFields(fs: seq<Field>): string
    decreases FieldsSize(fs), 1
  {
    if fs == [] then ""
    else fs[0].0 + ": " + Show(fs[0].1) + (if |fs| == 1 then "" else ", " + ShowFields(fs[1..]))
  }

  function ShowEntries(es: seq<Entry>, dense: bool): string
    decreases EntriesSize(es), 1
  {
    if es == [] then ""
    else
      (if dense then "" else Show(es[0].0) + " -> ") + Show(es[0].1)
      + (if |es| == 1 then "" else ", " + ShowEntries(es[1..], dense))
  }

  // ----- Ranks -----

  /** A key with its commit time taken out. */
  function Context(key: Data): Option<Data> {
    match key
    case CommitTime(_) => Some(Unit)
    case Variant(tag, payload) =>
      var c :- Context(payload);
      Some(Variant(tag, c))
    case _ => None
  }

  function TimeOf(key: Data): Option<int> {
    match key
    case CommitTime(t) => Some(t)
    case Variant(_, payload) => TimeOf(payload)
    case _ => None
  }

  function Replace(key: Data, t: int): Data {
    match key
    case CommitTime(_) => CommitTime(t)
    case Variant(tag, payload) => Variant(tag, Replace(payload, t))
    case _ => key
  }

  /** The commit times under one context, in the order of the entries. */
  function Times(es: seq<Entry>, c: Data): seq<int> {
    if es == [] then []
    else
      (if Context(es[0].0) == Some(c) && TimeOf(es[0].0).Some? then [TimeOf(es[0].0).value] else [])
      + Times(es[1..], c)
  }

  function Below(ts: seq<int>, t: int): nat {
    if ts == [] then 0 else (if ts[0] < t then 1 else 0) + Below(ts[1..], t)
  }

  /** A key with its commit time's rank, among the times of `all` under its context. */
  function RankedKey(key: Data, all: seq<Entry>): Data {
    if Context(key).Some? && TimeOf(key).Some? then Replace(key,
        Below(Times(all, Context(key).value), TimeOf(key).value)) else key
  }

  function Ranks(es: seq<Entry>, all: seq<Entry>): seq<Entry> {
    if es == [] then [] else [(RankedKey(es[0].0, all), es[0].1)] + Ranks(es[1..], all)
  }

  function Ranked(es: seq<Entry>): seq<Entry> {
    Ranks(es, es)
  }

  lemma {:induction false} ReplaceSize(key: Data, t: int)
    ensures Size(Replace(key, t)) == Size(key)
  {
    if key.Variant? { ReplaceSize(key.payload, t); }
  }

  lemma {:induction false} RanksSize(es: seq<Entry>, all: seq<Entry>)
    ensures EntriesSize(Ranks(es, all)) == EntriesSize(es) && |Ranks(es, all)| == |es|
  {
    if es != [] {
      RanksSize(es[1..], all);
      if Context(es[0].0).Some? && TimeOf(es[0].0).Some? {
        ReplaceSize(es[0].0, Below(Times(all, Context(es[0].0).value), TimeOf(es[0].0).value));
      }
      var first := (RankedKey(es[0].0, all), es[0].1);
      assert Ranks(es, all)[0] == first && Ranks(es, all)[1..] == Ranks(es[1..], all);
    }
  }

  // ----- Equality -----

  predicate Equal(a: Data, b: Data)
    decreases Size(a), 0
  {
    match (a, b)
    case (Record(fs), Record(gs)) => |fs| == |gs| && EqualFields(SortedFields(fs), SortedFields(gs))
    case (Variant(t, p), Variant(u, q)) => t == u && Equal(p, q)
    case (Nominal(n, c, p), Nominal(m, d, q)) => n == m && c == d && Equal(p, q)
    case (Coll(es), Coll(fs)) =>
      RanksSize(es, es);
      RanksSize(fs, fs);
      |es| == |fs| && EqualEntries(Sorted(Ranked(es)), Sorted(Ranked(fs)))
    case (_, _) => a == b
  }

  predicate EqualFields(fs: seq<Field>, gs: seq<Field>)
    requires |fs| == |gs|
    decreases FieldsSize(fs), 1
  {
    fs == [] || (fs[0].0 == gs[0].0 && Equal(fs[0].1, gs[0].1) && EqualFields(fs[1..], gs[1..]))
  }

  predicate EqualEntries(es: seq<Entry>, fs: seq<Entry>)
    requires |es| == |fs|
    decreases EntriesSize(es), 1
  {
    es == [] || (Equal(es[0].0, fs[0].0) && Equal(es[0].1, fs[0].1) && EqualEntries(es[1..], fs[1..]))
  }

  // ----- An equivalence -----

  lemma {:induction false} Reflexive(a: Data)
    ensures Equal(a, a)
    decreases Size(a), 0
  {
    match a {
      case Record(fs) => FieldsReflexive(SortedFields(fs));
      case Variant(_, p) => Reflexive(p);
      case Nominal(_, _, p) => Reflexive(p);
      case Coll(es) =>
        RanksSize(es, es);
        EntriesReflexive(Sorted(Ranked(es)));
      case _ =>
    }
  }

  lemma {:induction false} FieldsReflexive(fs: seq<Field>)
    ensures EqualFields(fs, fs)
    decreases FieldsSize(fs), 1
  {
    if fs != [] {
      Reflexive(fs[0].1);
      FieldsReflexive(fs[1..]);
    }
  }

  lemma {:induction false} EntriesReflexive(es: seq<Entry>)
    ensures EqualEntries(es, es)
    decreases EntriesSize(es), 1
  {
    if es != [] {
      Reflexive(es[0].0);
      Reflexive(es[0].1);
      EntriesReflexive(es[1..]);
    }
  }

  lemma {:induction false} Symmetric(a: Data, b: Data)
    requires Equal(a, b)
    ensures Equal(b, a)
    decreases Size(a), 0
  {
    if a.Record? {
      FieldsSymmetric(SortedFields(a.fields), SortedFields(b.fields));
    } else if a.Variant? {
      Symmetric(a.payload, b.payload);
    } else if a.Nominal? {
      Symmetric(a.arg, b.arg);
    } else if a.Coll? {
      RanksSize(a.entries, a.entries);
      RanksSize(b.entries, b.entries);
      EntriesSymmetric(Sorted(Ranked(a.entries)), Sorted(Ranked(b.entries)));
    }
  }

  lemma {:induction false} FieldsSymmetric(fs: seq<Field>, gs: seq<Field>)
    requires |fs| == |gs| && EqualFields(fs, gs)
    ensures EqualFields(gs, fs)
    decreases FieldsSize(fs), 1
  {
    if fs != [] {
      Symmetric(fs[0].1, gs[0].1);
      FieldsSymmetric(fs[1..], gs[1..]);
    }
  }

  lemma {:induction false} EntriesSymmetric(es: seq<Entry>, fs: seq<Entry>)
    requires |es| == |fs| && EqualEntries(es, fs)
    ensures EqualEntries(fs, es)
    decreases EntriesSize(es), 1
  {
    if es != [] {
      Symmetric(es[0].0, fs[0].0);
      Symmetric(es[0].1, fs[0].1);
      EntriesSymmetric(es[1..], fs[1..]);
    }
  }

  lemma {:induction false} Transitive(a: Data, b: Data, c: Data)
    requires Equal(a, b) && Equal(b, c)
    ensures Equal(a, c)
    decreases Size(a), 0
  {
    if a.Record? {
      FieldsTransitive(SortedFields(a.fields), SortedFields(b.fields), SortedFields(c.fields));
    } else if a.Variant? {
      Transitive(a.payload, b.payload, c.payload);
    } else if a.Nominal? {
      Transitive(a.arg, b.arg, c.arg);
    } else if a.Coll? {
      RanksSize(a.entries, a.entries);
      RanksSize(b.entries, b.entries);
      RanksSize(c.entries, c.entries);
      EntriesTransitive(Sorted(Ranked(a.entries)), Sorted(Ranked(b.entries)), Sorted(Ranked(c.entries)));
    }
  }

  lemma {:induction false} FieldsTransitive(fs: seq<Field>, gs: seq<Field>, hs: seq<Field>)
    requires |fs| == |gs| == |hs| && EqualFields(fs, gs) && EqualFields(gs, hs)
    ensures EqualFields(fs, hs)
    decreases FieldsSize(fs), 1
  {
    if fs != [] {
      Transitive(fs[0].1, gs[0].1, hs[0].1);
      FieldsTransitive(fs[1..], gs[1..], hs[1..]);
    }
  }

  lemma {:induction false} EntriesTransitive(es: seq<Entry>, fs: seq<Entry>, gs: seq<Entry>)
    requires |es| == |fs| == |gs| && EqualEntries(es, fs) && EqualEntries(fs, gs)
    ensures EqualEntries(es, gs)
    decreases EntriesSize(es), 1
  {
    if es != [] {
      Transitive(es[0].0, fs[0].0, gs[0].0);
      Transitive(es[0].1, fs[0].1, gs[0].1);
      EntriesTransitive(es[1..], fs[1..], gs[1..]);
    }
  }

  // ----- No false agreement -----

  /** The entries of `es` and `fs` pair up one to one, equal in key and value. */
  ghost predicate PairUp(es: seq<Entry>, fs: seq<Entry>) {
    exists xs, ys :: Arranged(es, xs) && Arranged(fs, ys) && Pairwise(xs, ys)
  }

  ghost predicate Arranged(es: seq<Entry>, xs: seq<Entry>) {
    multiset(xs) == multiset(es)
  }

  ghost predicate Pairwise(xs: seq<Entry>, ys: seq<Entry>) {
    |xs| == |ys| && forall i :: 0 <= i < |xs| ==> Equal(xs[i].0, ys[i].0) && Equal(xs[i].1, ys[i].1)
  }

  lemma {:induction false} EntriesPairwise(xs: seq<Entry>, ys: seq<Entry>)
    requires |xs| == |ys| && EqualEntries(xs, ys)
    ensures Pairwise(xs, ys)
  {
    if xs != [] {
      EntriesPairwise(xs[1..], ys[1..]);
      forall i | 0 <= i < |xs|
        ensures Equal(xs[i].0, ys[i].0) && Equal(xs[i].1, ys[i].1)
      {
        if i > 0 { assert xs[i] == xs[1..][i - 1] && ys[i] == ys[1..][i - 1]; }
      }
    }
  }

  /** Two collections reported equal have the same entries, up to the ranks of commit times. */
  lemma NoFalseAgreement(es: seq<Entry>, fs: seq<Entry>)
    requires Equal(Coll(es), Coll(fs))
    ensures PairUp(Ranked(es), Ranked(fs))
  {
    RanksSize(es, es);
    RanksSize(fs, fs);
    var xs, ys := Sorted(Ranked(es)), Sorted(Ranked(fs));
    EntriesPairwise(xs, ys);
    assert Arranged(Ranked(es), xs) && Arranged(Ranked(fs), ys);
  }

  // ----- Renumbering commit times -----

  /** A new number for each commit time, by the context of its key. */
  type Numbering = (Data, int) -> int

  /** Within one context, later commits get larger numbers. */
  ghost predicate Increasing(f: Numbering) {
    forall c, s, t :: s < t ==> f(c, s) < f(c, t)
  }

  function RenumberedKey(key: Data, f: Numbering): Data {
    if Context(key).Some? && TimeOf(key).Some? then Replace(key, f(Context(key).value, TimeOf(key).value)) else key
  }

  function Renumbered(es: seq<Entry>, f: Numbering): seq<Entry> {
    if es == [] then [] else [(RenumberedKey(es[0].0, f), es[0].1)] + Renumbered(es[1..], f)
  }

  lemma {:induction false} Replaced(key: Data, t: int, u: int)
    ensures Context(Replace(key, t)) == Context(key) && Replace(Replace(key, t), u) == Replace(key, u)
    ensures TimeOf(Replace(key, t)) == if TimeOf(key).Some? then Some(t) else None
  {
    if key.Variant? { Replaced(key.payload, t, u); }
  }

  function Mapped(ts: seq<int>, f: Numbering, c: Data): seq<int> {
    if ts == [] then [] else [f(c, ts[0])] + Mapped(ts[1..], f, c)
  }

  lemma {:induction false} MappedJoined(a: seq<int>, b: seq<int>, f: Numbering, c: Data)
    ensures Mapped(a + b, f, c) == Mapped(a, f, c) + Mapped(b, f, c)
  {
    if a == [] {
      assert a + b == b;
    } else {
      assert (a + b)[1..] == a[1..] + b;
      MappedJoined(a[1..], b, f, c);
    }
  }

  lemma {:induction false} TimesRenumbered(es: seq<Entry>, f: Numbering, c: Data)
    ensures Times(Renumbered(es, f), c) == Mapped(Times(es, c), f, c)
  {
    if es != [] {
      var key, rest := es[0].0, Renumbered(es[1..], f);
      assert Renumbered(es, f)[1..] == rest;
      TimesRenumbered(es[1..], f, c);
      var own: seq<int> := if Context(key) == Some(c) && TimeOf(key).Some? then [TimeOf(key).value] else [];
      MappedJoined(own, Times(es[1..], c), f, c);
      if Context(key).Some? && TimeOf(key).Some? { Replaced(key, f(Context(key).value, TimeOf(key).value), 0); }
      assert own != [] ==> Mapped(own, f, c) == [f(c, own[0])];
    }
  }

  lemma {:induction false} BelowMapped(ts: seq<int>, t: int, f: Numbering, c: Data)
    requires Increasing(f)
    ensures Below(Mapped(ts, f, c), f(c, t)) == Below(ts, t)
  {
    if ts != [] {
      BelowMapped(ts[1..], t, f, c);
      assert ts[0] < t <==> f(c, ts[0]) < f(c, t) by {
        if t < ts[0] { assert f(c, t) < f(c, ts[0]); }
      }
    }
  }

  lemma {:induction false} RanksRenumbered(es: seq<Entry>, all: seq<Entry>, f: Numbering)
    requires Increasing(f)
    ensures Ranks(Renumbered(es, f), Renumbered(all, f)) == Ranks(es, all)
  {
    if es != [] {
      var key := es[0].0;
      assert Renumbered(es, f)[1..] == Renumbered(es[1..], f);
      RanksRenumbered(es[1..], all, f);
      if Context(key).Some? && TimeOf(key).Some? {
        var c, t := Context(key).value, TimeOf(key).value;
        Replaced(key, f(c, t), Below(Times(all, c), t));
        TimesRenumbered(all, f, c);
        BelowMapped(Times(all, c), t, f, c);
      }
    }
  }

  /** Renumbering commit times changes no comparison, as long as it keeps their order within each
      context. */
  lemma RenumberingUnseen(es: seq<Entry>, f: Numbering, b: Data)
    requires Increasing(f)
    ensures Equal(Coll(Renumbered(es, f)), b) == Equal(Coll(es), b)
    ensures Equal(b, Coll(Renumbered(es, f))) == Equal(b, Coll(es))
  {
    var fs := Renumbered(es, f);
    RanksRenumbered(es, es, f);
    RanksSize(es, es);
    RanksSize(fs, fs);
  }

  // ----- The ranking, step by step -----

  ghost predicate DistinctKeys(es: seq<Entry>) {
    forall i, j :: 0 <= i < j < |es| ==> es[i].0 != es[j].0
  }

  ghost predicate Ascending(ts: seq<int>) {
    forall i, j :: 0 <= i < j < |ts| ==> ts[i] < ts[j]
  }

  lemma {:induction false} SameKey(a: Data, b: Data)
    requires Context(a) == Context(b) && Context(a).Some? && TimeOf(a) == TimeOf(b)
    ensures a == b
  {
    if a.Variant? { SameKey(a.payload, b.payload); }
  }

  lemma {:induction false} HasTime(key: Data)
    ensures Context(key).Some? <==> TimeOf(key).Some?
  {
    if key.Variant? { HasTime(key.payload); }
  }

  lemma {:induction false} TimesFrom(es: seq<Entry>, c: Data, t: int)
    requires t in Times(es, c)
    ensures exists i :: 0 <= i < |es| && Context(es[i].0) == Some(c) && TimeOf(es[i].0) == Some(t)
  {
    if Context(es[0].0) == Some(c) && TimeOf(es[0].0) == Some(t) {
    } else {
      TimesFrom(es[1..], c, t);
      var i :| 0 <= i < |es[1..]| && Context(es[1..][i].0) == Some(c) && TimeOf(es[1..][i].0) == Some(t);
      assert es[1..][i] == es[i + 1];
    }
  }

  lemma {:induction false} TimesOne(es: seq<Entry>, e: Entry, c: Data)
    ensures Times(es + [e], c) == Times(es, c) + (if Context(e.0) == Some(c) && TimeOf(e.0).Some?
            then [TimeOf(e.0).value] else [])
  {
    if es == [] {
      assert es + [e] == [e] && [e][1..] == [];
    } else {
      assert (es + [e])[1..] == es[1..] + [e];
      TimesOne(es[1..], e, c);
    }
  }

  /** `ts` holds the times of `all`, sorted. */
  ghost predicate Sorts(ts: seq<int>, all: seq<int>) {
    Ascending(ts) && (forall t :: t in ts <==> t in all) && (forall t :: Below(ts, t) == Below(all, t))
  }

  /** Places `t` in a sorted run of other times. */
  method Place(ts: seq<int>, t: int, ghost all: seq<int>) returns (r: seq<int>)
    requires Sorts(ts, all) && t !in ts
    ensures Sorts(r, all + [t])
  {
    var i := 0;
    while i < |ts| && ts[i] < t
      invariant 0 <= i <= |ts| && forall j :: 0 <= j < i ==> ts[j] < t
    {
      i := i + 1;
    }
    r := ts[..i] + [t] + ts[i..];
    assert ts == ts[..i] + ts[i..];
    forall u
      ensures Below(r, u) == Below(all + [t], u)
    {
      BelowJoined(ts[..i], ts[i..], u);
      BelowJoined(ts[..i] + [t], ts[i..], u);
      BelowJoined(ts[..i], [t], u);
      BelowJoined(all, [t], u);
    }
  }

  lemma {:induction false} BelowJoined(a: seq<int>, b: seq<int>, t: int)
    ensures Below(a + b, t) == Below(a, t) + Below(b, t)
  {
    if a == [] {
      assert a + b == b;
    } else {
      assert (a + b)[1..] == a[1..] + b;
      BelowJoined(a[1..], b, t);
    }
  }

  lemma {:induction false} BelowAll(ts: seq<int>, t: int)
    requires (forall i :: 0 <= i < |ts| ==> ts[i] < t) || (forall i :: 0 <= i < |ts| ==> ts[i] >= t)
    ensures Below(ts, t) == if ts != [] && ts[0] < t then |ts| else 0
  {
    if |ts| > 1 {
      assert forall i :: 0 <= i < |ts[1..]| ==> ts[1..][i] == ts[i + 1];
      BelowAll(ts[1..], t);
    }
  }

  /** The position of a time in a sorted run is its rank. */
  method Position(ts: seq<int>, t: int) returns (r: nat)
    requires Ascending(ts) && t in ts
    ensures r == Below(ts, t)
  {
    var lo, hi := 0, |ts|;
    while lo < hi && ts[(lo + hi) / 2] != t
      invariant 0 <= lo <= hi <= |ts|
      invariant (forall i :: 0 <= i < lo ==> ts[i] < t) && (forall i :: hi <= i < |ts| ==> ts[i] > t)
      decreases hi - lo
    {
      var mid := (lo + hi) / 2;
      if ts[mid] < t { lo := mid + 1; } else { hi := mid; }
    }
    r := (lo + hi) / 2;
    BelowJoined(ts[..r], ts[r..], t);
    assert ts == ts[..r] + ts[r..];
    BelowAll(ts[..r], t);
    BelowAll(ts[r..], t);
  }

  /** The sorted times of each context. */
  ghost predicate Grouped(groups: map<Data, seq<int>>, es: seq<Entry>) {
    forall c :: if c in groups then Sorts(groups[c], Times(es, c)) else Times(es, c) == []
  }

  method GroupTimes(entries: seq<Entry>) returns (groups: map<Data, seq<int>>)
    requires DistinctKeys(entries)
    ensures Grouped(groups, entries)
  {
    groups := map[];
    for i := 0 to |entries|
      invariant Grouped(groups, entries[..i])
    {
      var key := entries[i].0;
      assert entries[..i + 1] == entries[..i] + [entries[i]];
      ghost var was := groups;
      if Context(key).Some? && TimeOf(key).Some? {
        var c, t := Context(key).value, TimeOf(key).value;
        NewTime(entries, i);
        var before := if c in groups then groups[c] else [];
        assert Sorts(before, Times(entries[..i], c));
        var after := Place(before, t, Times(entries[..i], c));
        groups := groups[c := after];
      }
      GroupedOne(was, groups, entries[..i], entries[i]);
    }
    assert entries[..|entries|] == entries;
  }

  lemma GroupedOne(was: map<Data, seq<int>>, groups: map<Data, seq<int>>, es: seq<Entry>, e: Entry)
    requires Grouped(was, es)
    requires if Context(e.0).Some? && TimeOf(e.0).Some?
             then var c := Context(e.0).value;
                  c in groups && groups == was[c := groups[c]] && Sorts(groups[c], Times(es, c) + [TimeOf(e.0).value])
             else groups == was
    ensures Grouped(groups, es + [e])
  {
    hide Sorts;
    forall c
      ensures if c in groups then Sorts(groups[c], Times(es + [e], c)) else Times(es + [e], c) == []
    {
      TimesOne(es, e, c);
      assert Times(es, c) + [] == Times(es, c);
    }
  }

  lemma NewTime(entries: seq<Entry>, i: nat)
    requires i < |entries| && DistinctKeys(entries) && Context(entries[i].0).Some? && TimeOf(entries[i].0).Some?
    ensures TimeOf(entries[i].0).value !in Times(entries[..i], Context(entries[i].0).value)
  {
    var c, t := Context(entries[i].0).value, TimeOf(entries[i].0).value;
    if t in Times(entries[..i], c) {
      TimesFrom(entries[..i], c, t);
      var j :| 0 <= j < i && Context(entries[..i][j].0) == Some(c) && TimeOf(entries[..i][j].0) == Some(t);
      SameKey(entries[j].0, entries[i].0);
    }
  }

  lemma {:induction false} RanksOne(es: seq<Entry>, e: Entry, all: seq<Entry>)
    ensures Ranks(es + [e], all) == Ranks(es, all) + [(RankedKey(e.0, all), e.1)]
  {
    if es == [] {
      assert es + [e] == [e] && [e][1..] == [];
    } else {
      assert (es + [e])[1..] == es[1..] + [e];
      RanksOne(es[1..], e, all);
    }
  }

  lemma {:induction false} TimesIn(es: seq<Entry>, i: nat)
    requires i < |es| && Context(es[i].0).Some? && TimeOf(es[i].0).Some?
    ensures TimeOf(es[i].0).value in Times(es, Context(es[i].0).value)
  {
    if i > 0 { TimesIn(es[1..], i - 1); }
  }

  /** Every commit time in a key becomes its rank among those that share the rest of the key. */
  method RankCommitTimes(entries: seq<Entry>) returns (out: seq<Entry>)
    requires DistinctKeys(entries)
    ensures out == Ranked(entries)
  {
    var groups := GroupTimes(entries);
    out := [];
    for i := 0 to |entries|
      invariant out == Ranks(entries[..i], entries)
    {
      var (key, value) := entries[i];
      assert entries[..i + 1] == entries[..i] + [entries[i]];
      RanksOne(entries[..i], entries[i], entries);
      if Context(key).Some? && TimeOf(key).Some? {
        var c, t := Context(key).value, TimeOf(key).value;
        TimesIn(entries, i);
        assert c in groups && Sorts(groups[c], Times(entries, c));
        var rank := Position(groups[c], t);
        key := Replace(key, rank);
      }
      out := out + [(key, value)];
    }
    assert entries[..|entries|] == entries;
  }
}
