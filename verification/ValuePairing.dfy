/** When equality of collections finds the pairing that exists: it sorts both and compares entry by
    entry, which agrees with every other pairing as long as equal values sort alike. */
module ValuePairing {
  import opened Options
  import opened InterpSyntax
  import opened ValueEquality

  // ----- The canonical order is a total preorder -----

  lemma {:induction false} TextFlip(a: string, b: string)
    ensures CompareText(a, b) == -CompareText(b, a)
  {
    if a != [] && b != [] && a[0] == b[0] { TextFlip(a[1..], b[1..]); }
  }

  lemma {:induction false} TextZero(a: string, b: string)
    ensures CompareText(a, b) == 0 <==> a == b
  {
    if a != [] && b != [] && a[0] == b[0] {
      TextZero(a[1..], b[1..]);
      assert a == [a[0]] + a[1..] && b == [b[0]] + b[1..];
    }
  }

  lemma {:induction false} TextChain(a: string, b: string, c: string)
    requires CompareText(a, b) <= 0 && CompareText(b, c) <= 0
    ensures CompareText(a, c) <= 0
  {
    if a != [] && b != [] && c != [] && a[0] == b[0] == c[0] { TextChain(a[1..], b[1..], c[1..]); }
  }

  lemma {:induction false} Flip(a: Data, b: Data)
    ensures TotalCompare(a, b) == -TotalCompare(b, a)
    decreases a
  {
    if KindOf(a) == KindOf(b) {
      if a.Str? {
        TextFlip(a.s, b.s);
      } else if a.Variant? {
        TextFlip(a.tag, b.tag);
        Flip(a.payload, b.payload);
      } else if a.Nominal? {
        TextFlip(a.ty, b.ty);
        TextFlip(a.ctor, b.ctor);
        Flip(a.arg, b.arg);
      } else if a.Record? || a.Coll? || a.Unit? {
        TextFlip(Show(a), Show(b));
      }
    }
  }

  /** Two texts at or below a third, compared in turn: where the first step is strict, so is both. */
  lemma TextStrict(a: string, b: string, c: string)
    requires CompareText(a, b) <= 0 && CompareText(b, c) <= 0
    ensures CompareText(a, c) == 0 ==> a == b == c
  {
    TextZero(a, c);
    if a == c {
      TextFlip(a, b);
      TextZero(a, b);
    }
  }

  lemma {:induction false} Transits(a: Data, b: Data, c: Data)
    requires TotalCompare(a, b) <= 0 && TotalCompare(b, c) <= 0
    ensures TotalCompare(a, c) <= 0
    decreases a
  {
    if KindOf(a) == KindOf(b) == KindOf(c) {
      if a.Str? {
        TextChain(a.s, b.s, c.s);
      } else if a.Variant? {
        TextChain(a.tag, b.tag, c.tag);
        TextStrict(a.tag, b.tag, c.tag);
        TextZero(a.tag, b.tag);
        TextZero(b.tag, c.tag);
        if CompareText(a.tag, c.tag) == 0 { Transits(a.payload, b.payload, c.payload); }
      } else if a.Nominal? {
        NominalTransits(a, b, c);
        if a.ty == c.ty && a.ctor == c.ctor { Transits(a.arg, b.arg, c.arg); }
      } else if a.Record? || a.Coll? || a.Unit? {
        TextChain(Show(a), Show(b), Show(c));
      }
    }
  }

  lemma NominalTransits(a: Data, b: Data, c: Data)
    requires a.Nominal? && b.Nominal? && c.Nominal? && TotalCompare(a, b) <= 0 && TotalCompare(b, c) <= 0
    ensures CompareText(a.ty, c.ty) <= 0 && (a.ty == c.ty ==> a.ty == b.ty && CompareText(a.ctor, c.ctor) <= 0)
    ensures a.ty == c.ty && a.ctor == c.ctor ==>
              a.ctor == b.ctor && TotalCompare(a.arg, b.arg) <= 0 && TotalCompare(b.arg, c.arg) <= 0
    ensures CompareText(a.ty, c.ty) == 0 <==> a.ty == c.ty
    ensures CompareText(a.ctor, c.ctor) == 0 <==> a.ctor == c.ctor
  {
    TextZero(a.ty, b.ty);
    TextZero(b.ty, c.ty);
    TextZero(a.ty, c.ty);
    TextZero(a.ctor, b.ctor);
    TextZero(b.ctor, c.ctor);
    TextZero(a.ctor, c.ctor);
    TextChain(a.ty, b.ty, c.ty);
    TextStrict(a.ty, b.ty, c.ty);
    if a.ty == c.ty {
      TextChain(a.ctor, b.ctor, c.ctor);
      TextStrict(a.ctor, b.ctor, c.ctor);
    }
  }

  lemma EntryFlip(a: Entry, b: Entry)
    ensures CompareEntries(a, b) == -CompareEntries(b, a)
  {
    Flip(a.0, b.0);
    Flip(a.1, b.1);
  }

  lemma EntryTransits(a: Entry, b: Entry, c: Entry)
    requires CompareEntries(a, b) <= 0 && CompareEntries(b, c) <= 0
    ensures CompareEntries(a, c) <= 0
  {
    Transits(a.0, b.0, c.0);
    if TotalCompare(a.0, c.0) == 0 {
      Flip(a.0, c.0);
      Flip(a.0, b.0);
      Flip(b.0, c.0);
      if TotalCompare(a.0, b.0) < 0 { Transits(b.0, c.0, a.0); }
      if TotalCompare(b.0, c.0) < 0 { Transits(c.0, a.0, b.0); }
      Transits(a.1, b.1, c.1);
    }
  }

  // ----- Where equal values sort alike -----

  /** No commit time anywhere in a value. */
  ghost predicate Timeless(d: Data)
    decreases d
  {
    match d
    case CommitTime(_) => false
    case Record(fields) => TimelessFields(fields)
    case Variant(_, payload) => Timeless(payload)
    case Nominal(_, _, arg) => Timeless(arg)
    case Coll(entries) => TimelessEntries(entries)
    case _ => true
  }

  ghost predicate TimelessField(f: Field)
    decreases f
  {
    Timeless(f.1)
  }

  ghost predicate TimelessFields(fs: seq<Field>)
    decreases fs
  {
    fs == [] || (TimelessField(fs[0]) && TimelessFields(fs[1..]))
  }

  ghost predicate TimelessEntry(e: Entry)
    decreases e
  {
    Timeless(e.0) && Timeless(e.1)
  }

  ghost predicate TimelessEntries(es: seq<Entry>)
    decreases es
  {
    es == [] || (TimelessEntry(es[0]) && TimelessEntries(es[1..]))
  }

  /** No record or collection in a value holds a commit time. */
  ghost predicate Steady(d: Data) {
    match d
    case Variant(_, payload) => Steady(payload)
    case Nominal(_, _, arg) => Steady(arg)
    case Record(_) => Timeless(d)
    case Coll(_) => Timeless(d)
    case _ => true
  }

  ghost predicate SteadyEntry(e: Entry) {
    Steady(e.0) && Steady(e.1)
  }

  ghost predicate SteadyAll(es: seq<Entry>) {
    forall e :: e in es ==> SteadyEntry(e)
  }

  lemma {:induction false} TimelessEach(es: seq<Entry>)
    ensures TimelessEntries(es) <==> forall e :: e in es ==> TimelessEntry(e)
  {
    if es != [] {
      TimelessEach(es[1..]);
      assert es[0] in es && forall e :: e in es[1..] ==> e in es;
      if TimelessEntries(es) {
        forall e | e in es ensures TimelessEntry(e) {
          assert e == es[0] || e in es[1..];
        }
      }
    }
  }

  lemma TimelessSorted(es: seq<Entry>)
    requires TimelessEntries(es)
    ensures TimelessEntries(Sorted(es))
  {
    TimelessEach(es);
    TimelessEach(Sorted(es));
    forall e | e in Sorted(es) ensures e in es {
      assert e in multiset(Sorted(es)) && multiset(Sorted(es)) == multiset(es);
    }
  }

  lemma {:induction false} TimelessInsertField(f: Field, fs: seq<Field>)
    requires TimelessField(f) && TimelessFields(fs)
    ensures TimelessFields(InsertField(f, fs))
  {
    if fs == [] || CompareText(f.0, fs[0].0) <= 0 {
      assert ([f] + fs)[1..] == fs;
    } else {
      TimelessInsertField(f, fs[1..]);
      assert ([fs[0]] + InsertField(f, fs[1..]))[1..] == InsertField(f, fs[1..]);
    }
  }

  lemma {:induction false} TimelessSortedFields(fs: seq<Field>)
    requires TimelessFields(fs)
    ensures TimelessFields(SortedFields(fs))
  {
    if fs != [] {
      TimelessSortedFields(fs[1..]);
      TimelessInsertField(fs[0], SortedFields(fs[1..]));
    }
  }

  lemma {:induction false} TimelessContext(key: Data)
    requires Timeless(key)
    ensures Context(key).None?
  {
    if key.Variant? { TimelessContext(key.payload); }
  }

  lemma {:induction false} TimelessRanks(es: seq<Entry>, all: seq<Entry>)
    requires TimelessEntries(es)
    ensures Ranks(es, all) == es
  {
    if es != [] {
      TimelessRanks(es[1..], all);
      TimelessContext(es[0].0);
      assert es == [es[0]] + es[1..];
    }
  }

  /** Equal values without commit times show alike. */
  lemma {:induction false} ShownAlike(a: Data, b: Data)
    requires Timeless(a) && Timeless(b) && Equal(a, b)
    ensures Show(a) == Show(b)
    decreases Size(a), 0
  {
    if a.Record? {
      TimelessSortedFields(a.fields);
      TimelessSortedFields(b.fields);
      FieldsShownAlike(SortedFields(a.fields), SortedFields(b.fields));
    } else if a.Variant? {
      ShownAlike(a.payload, b.payload);
    } else if a.Nominal? {
      ShownAlike(a.arg, b.arg);
    } else if a.Coll? {
      TimelessRanks(a.entries, a.entries);
      TimelessRanks(b.entries, b.entries);
      TimelessSorted(a.entries);
      TimelessSorted(b.entries);
      DenseAlike(Sorted(a.entries), Sorted(b.entries), 0);
      EntriesShownAlike(Sorted(a.entries), Sorted(b.entries), Dense(Sorted(a.entries), 0));
    }
  }

  lemma {:induction false} FieldsShownAlike(fs: seq<Field>, gs: seq<Field>)
    requires |fs| == |gs| && EqualFields(fs, gs) && TimelessFields(fs) && TimelessFields(gs)
    ensures ShowFields(fs) == ShowFields(gs)
    decreases FieldsSize(fs), 1
  {
    if fs != [] {
      ShownAlike(fs[0].1, gs[0].1);
      FieldsShownAlike(fs[1..], gs[1..]);
    }
  }

  lemma {:induction false} EntriesShownAlike(es: seq<Entry>, fs: seq<Entry>, dense: bool)
    requires |es| == |fs| && EqualEntries(es, fs) && TimelessEntries(es) && TimelessEntries(fs)
    ensures ShowEntries(es, dense) == ShowEntries(fs, dense)
    decreases EntriesSize(es), 1
  {
    if es != [] {
      ShownAlike(es[0].0, fs[0].0);
      ShownAlike(es[0].1, fs[0].1);
      EntriesShownAlike(es[1..], fs[1..], dense);
    }
  }

  lemma {:induction false} DenseAlike(es: seq<Entry>, fs: seq<Entry>, i: nat)
    requires |es| == |fs| && EqualEntries(es, fs)
    ensures Dense(es, i) == Dense(fs, i)
    decreases |es|
  {
    if es != [] { DenseAlike(es[1..], fs[1..], i + 1); }
  }

  lemma {:induction false} SortAlike(a: Data, b: Data, z: Data)
    requires Steady(a) && Steady(b) && Equal(a, b)
    ensures TotalCompare(a, z) == TotalCompare(b, z)
    decreases a
  {
    if a.Record? || a.Coll? {
      ShownAlike(a, b);
    } else if a.Variant? {
      if z.Variant? { SortAlike(a.payload, b.payload, z.payload); }
    } else if a.Nominal? {
      if z.Nominal? { SortAlike(a.arg, b.arg, z.arg); }
    }
  }

  ghost predicate Same(a: Entry, b: Entry) {
    Equal(a.0, b.0) && Equal(a.1, b.1)
  }

  lemma EntrySortAlike(a: Entry, b: Entry, x: Entry, y: Entry)
    requires SteadyEntry(a) && SteadyEntry(b) && SteadyEntry(x) && SteadyEntry(y) && Same(a, b) && Same(x, y)
    ensures CompareEntries(a, x) == CompareEntries(b, y)
  {
    SortAlike(a.0, b.0, x.0);
    SortAlike(a.1, b.1, x.1);
    EntryFlip(b, x);
    SortAlike(x.0, y.0, b.0);
    SortAlike(x.1, y.1, b.1);
    EntryFlip(b, y);
  }

  // ----- Sorting -----

  lemma SameTwice(xs: seq<Entry>, ys: seq<Entry>, zs: seq<Entry>)
    requires Pairwise(xs, ys) && Pairwise(ys, zs)
    ensures Pairwise(xs, zs)
  {
    forall i | 0 <= i < |xs| ensures Equal(xs[i].0, zs[i].0) && Equal(xs[i].1, zs[i].1) {
      Transitive(xs[i].0, ys[i].0, zs[i].0);
      Transitive(xs[i].1, ys[i].1, zs[i].1);
    }
  }

  lemma SameItself(xs: seq<Entry>)
    ensures Pairwise(xs, xs)
  {
    forall i | 0 <= i < |xs| ensures Equal(xs[i].0, xs[i].0) && Equal(xs[i].1, xs[i].1) {
      Reflexive(xs[i].0);
      Reflexive(xs[i].1);
    }
  }

  lemma SameBack(xs: seq<Entry>, ys: seq<Entry>)
    requires Pairwise(xs, ys)
    ensures Pairwise(ys, xs)
  {
    forall i | 0 <= i < |xs| ensures Equal(ys[i].0, xs[i].0) && Equal(ys[i].1, xs[i].1) {
      Symmetric(xs[i].0, ys[i].0);
      Symmetric(xs[i].1, ys[i].1);
    }
  }

  lemma SameMore(x: Entry, y: Entry, xs: seq<Entry>, ys: seq<Entry>)
    requires Same(x, y) && Pairwise(xs, ys)
    ensures Pairwise([x] + xs, [y] + ys)
  {
  }

  lemma {:induction false} InsertAlike(x: Entry, y: Entry, xs: seq<Entry>, ys: seq<Entry>)
    requires Same(x, y) && Pairwise(xs, ys) && SteadyEntry(x) && SteadyEntry(y) && SteadyAll(xs) && SteadyAll(ys)
    ensures Pairwise(Insert(x, xs), Insert(y, ys))
    decreases |xs|
  {
    hide CompareEntries, Equal, Steady;
    if xs == [] {
      SameMore(x, y, xs, ys);
    } else {
      EntrySortAlike(x, y, xs[0], ys[0]);
      if CompareEntries(x, xs[0]) <= 0 {
        SameMore(x, y, xs, ys);
      } else {
        InsertAlike(x, y, xs[1..], ys[1..]);
        SameMore(xs[0], ys[0], Insert(x, xs[1..]), Insert(y, ys[1..]));
      }
    }
  }

  lemma SteadySorted(es: seq<Entry>)
    requires SteadyAll(es)
    ensures SteadyAll(Sorted(es))
  {
    forall e | e in Sorted(es) ensures e in es {
      assert e in multiset(Sorted(es)) && multiset(Sorted(es)) == multiset(es);
    }
  }

  lemma {:induction false} SortedAlike(xs: seq<Entry>, ys: seq<Entry>)
    requires Pairwise(xs, ys) && SteadyAll(xs) && SteadyAll(ys)
    ensures Pairwise(Sorted(xs), Sorted(ys))
  {
    if xs != [] {
      SortedAlike(xs[1..], ys[1..]);
      SteadySorted(xs[1..]);
      SteadySorted(ys[1..]);
      InsertAlike(xs[0], ys[0], Sorted(xs[1..]), Sorted(ys[1..]));
    }
  }

  /** Entries that sort alike are equal. */
  ghost predicate Told(es: seq<Entry>) {
    forall x, y :: x in es && y in es && CompareEntries(x, y) == 0 ==> Same(x, y)
  }

  /** Two insertions, in either order. */
  lemma {:induction false} InsertSwap(x: Entry, y: Entry, es: seq<Entry>)
    requires CompareEntries(x, y) == 0 ==> Same(x, y)
    ensures Pairwise(Insert(x, Insert(y, es)), Insert(y, Insert(x, es)))
    decreases |es|
  {
    EntryFlip(x, y);
    if es == [] {
      InsertBoth(x, y, es);
    } else {
      var h, t := es[0], es[1..];
      EntryFlip(x, h);
      EntryFlip(y, h);
      if CompareEntries(x, h) > 0 && CompareEntries(y, h) > 0 {
        InsertSwap(x, y, t);
        Reflexive(h.0);
        Reflexive(h.1);
        assert ([h] + Insert(y, t))[1..] == Insert(y, t) && ([h] + Insert(x, t))[1..] == Insert(x, t);
        SameMore(h, h, Insert(x, Insert(y, t)), Insert(y, Insert(x, t)));
      } else {
        InsertBoth(x, y, es);
      }
    }
  }

  lemma InsertBoth(x: Entry, y: Entry, es: seq<Entry>)
    requires CompareEntries(x, y) == 0 ==> Same(x, y)
    requires es != [] ==> CompareEntries(x, es[0]) <= 0 || CompareEntries(y, es[0]) <= 0
    ensures Pairwise(Insert(x, Insert(y, es)), Insert(y, Insert(x, es)))
  {
    hide CompareEntries, Pairwise, Same;
    EntryFlip(x, y);
    if CompareEntries(x, y) < 0 {
      InsertFirst(x, y, es);
      SameItself(Insert(y, Insert(x, es)));
    } else if CompareEntries(x, y) > 0 {
      InsertFirst(y, x, es);
      SameItself(Insert(y, Insert(x, es)));
    } else {
      InsertTie(x, y, es);
      InsertTie(y, x, es);
      SameItself(es);
      SwapSame(x, y, es);
    }
  }

  lemma SwapSame(x: Entry, y: Entry, es: seq<Entry>)
    requires Same(x, y) && Pairwise(es, es)
    ensures Pairwise([x] + ([y] + es), [y] + ([x] + es))
  {
    Symmetric(x.0, y.0);
    Symmetric(x.1, y.1);
    SameMore(y, x, es, es);
    SameMore(x, y, [y] + es, [x] + es);
  }

  /** `x` sorts before `y`, and one of them before `es`. */
  lemma InsertFirst(x: Entry, y: Entry, es: seq<Entry>)
    requires CompareEntries(x, y) < 0
    requires es != [] ==> CompareEntries(x, es[0]) <= 0 || CompareEntries(y, es[0]) <= 0
    ensures Insert(x, Insert(y, es)) == Insert(y, Insert(x, es)) == [x] + Insert(y, es)
  {
    hide CompareEntries;
    EntryFlip(x, y);
    if es != [] && CompareEntries(y, es[0]) <= 0 { EntryTransits(x, y, es[0]); }
    assert ([x] + es)[1..] == es;
  }

  lemma InsertTie(x: Entry, y: Entry, es: seq<Entry>)
    requires CompareEntries(x, y) == 0
    requires es != [] ==> CompareEntries(x, es[0]) <= 0 || CompareEntries(y, es[0]) <= 0
    ensures Insert(x, Insert(y, es)) == [x] + ([y] + es)
  {
    hide CompareEntries;
    EntryFlip(x, y);
    if es != [] && CompareEntries(x, es[0]) <= 0 { EntryTransits(y, x, es[0]); }
  }

  lemma SortedHolds(es: seq<Entry>)
    ensures forall e :: e in Sorted(es) <==> e in es
  {
    forall e ensures e in Sorted(es) <==> e in es {
      assert e in multiset(Sorted(es)) <==> e in multiset(es);
    }
  }

  lemma Fewer(all: seq<Entry>, part: seq<Entry>)
    requires SteadyAll(all) && Told(all) && forall e :: e in part ==> e in all
    ensures SteadyAll(part) && Told(part)
  {
  }

  /** Sorting finds the place of an entry wherever it stood. */
  lemma {:induction false} SortedMove(a: seq<Entry>, x: Entry, b: seq<Entry>)
    requires SteadyAll(a + [x] + b) && Told(a + [x] + b)
    ensures Pairwise(Sorted(a + [x] + b), Insert(x, Sorted(a + b)))
    decreases |a|
  {
    hide Steady, SteadyAll, Told, Pairwise, Insert, CompareEntries;
    var all := a + [x] + b;
    if a == [] {
      assert all[0] == x && all[1..] == b && a + b == b;
      SameItself(Sorted(all));
    } else {
      var y, rest := a[0], a[1..];
      assert all[0] == y && all[1..] == rest + [x] + b && (a + b)[0] == y && (a + b)[1..] == rest + b;
      Fewer(all, rest + [x] + b);
      SortedMove(rest, x, b);
      SortedHolds(rest + [x] + b);
      SortedHolds(rest + b);
      Moved(y, x, Sorted(rest + [x] + b), Sorted(rest + b), all);
    }
  }

  lemma Moved(y: Entry, x: Entry, moved: seq<Entry>, es: seq<Entry>, all: seq<Entry>)
    requires Pairwise(moved, Insert(x, es)) && SteadyAll(all) && Told(all) && x in all && y in all
    requires (forall e :: e in moved ==> e in all) && forall e :: e in es ==> e in all
    ensures Pairwise(Insert(y, moved), Insert(x, Insert(y, es)))
  {
    hide Equal, CompareEntries, Steady, Pairwise;
    forall e | e in Insert(x, es) ensures e in all {
      assert e in multiset(Insert(x, es)) && multiset(Insert(x, es)) == multiset([x]) + multiset(es);
    }
    Reflexive(y.0);
    Reflexive(y.1);
    InsertAlike(y, y, moved, Insert(x, es));
    EntryFlip(x, y);
    InsertSwap(y, x, es);
    SameTwice(Insert(y, moved), Insert(y, Insert(x, es)), Insert(x, Insert(y, es)));
  }

  lemma WithoutIt(x: Entry, rest: seq<Entry>, a: seq<Entry>, b: seq<Entry>)
    requires multiset([x] + rest) == multiset(a + [x] + b)
    ensures multiset(rest) == multiset(a + b) && forall e :: e in rest ==> e in a + [x] + b
  {
    assert multiset([x] + rest) == multiset([x]) + multiset(rest);
    assert multiset(a + [x] + b) == multiset(a) + multiset([x]) + multiset(b);
    assert multiset(a + b) == multiset(a) + multiset(b);
    assert forall e :: multiset(rest)[e] == multiset([x] + rest)[e] - multiset([x])[e];
    assert forall e :: multiset(a + b)[e] == multiset(a + [x] + b)[e] - multiset([x])[e];
    assert forall e :: multiset(rest)[e] == multiset(a + b)[e];
    forall e | e in rest ensures e in a + [x] + b {
      assert e in multiset([x] + rest);
      assert e in multiset(a + [x] + b);
    }
  }

  lemma PlaceOf(x: Entry, rest: seq<Entry>, ys: seq<Entry>) returns (k: nat)
    requires multiset([x] + rest) == multiset(ys)
    ensures k < |ys| && ys == ys[..k] + [x] + ys[k + 1..]
  {
    assert x in multiset([x] + rest);
    assert x in multiset(ys);
    k :| k < |ys| && ys[k] == x;
    assert ys == ys[..k] + [ys[k]] + ys[k + 1..];
  }

  /** Two arrangements of the same entries sort alike. */
  lemma {:induction false} ArrangedAlike(xs: seq<Entry>, ys: seq<Entry>)
    requires multiset(xs) == multiset(ys) && SteadyAll(ys) && Told(ys)
    ensures Pairwise(Sorted(xs), Sorted(ys))
    decreases |xs|
  {
    hide Steady, SteadyAll, Told, Pairwise, Insert, CompareEntries, Equal;
    assert |xs| == |multiset(xs)| == |multiset(ys)| == |ys|;
    if xs == [] {
      SameItself(Sorted(xs));
    } else {
      var x, rest := xs[0], xs[1..];
      assert xs == [x] + rest;
      var k := PlaceOf(x, rest, ys);
      var a, b := ys[..k], ys[k + 1..];
      WithoutIt(x, rest, a, b);
      SortedMove(a, x, b);
      Fewer(ys, a + b);
      Fewer(ys, rest);
      ArrangedAlike(rest, a + b);
      InsertedAlike(x, rest, a + b, ys);
      SameBack(Sorted(ys), Insert(x, Sorted(a + b)));
      SameTwice(Insert(x, Sorted(rest)), Insert(x, Sorted(a + b)), Sorted(ys));
    }
  }

  lemma InsertedAlike(x: Entry, us: seq<Entry>, vs: seq<Entry>, all: seq<Entry>)
    requires Pairwise(Sorted(us), Sorted(vs)) && SteadyAll(us) && SteadyAll(vs) && SteadyAll(all) && x in all
    ensures Pairwise(Insert(x, Sorted(us)), Insert(x, Sorted(vs)))
  {
    hide Sorted, Insert;
    Reflexive(x.0);
    Reflexive(x.1);
    SteadySorted(us);
    SteadySorted(vs);
    InsertAlike(x, x, Sorted(us), Sorted(vs));
  }

  // ----- The exact agreement -----

  lemma {:induction false} PairwiseEntries(xs: seq<Entry>, ys: seq<Entry>)
    requires Pairwise(xs, ys)
    ensures |xs| == |ys| && EqualEntries(xs, ys)
    decreases |xs|
  {
    if xs != [] { PairwiseEntries(xs[1..], ys[1..]); }
  }

  lemma {:induction false} ReplaceSteady(key: Data, t: int)
    requires Steady(key)
    ensures Steady(Replace(key, t))
  {
    if key.Variant? { ReplaceSteady(key.payload, t); }
  }

  lemma {:induction false} SteadyRanks(es: seq<Entry>, all: seq<Entry>)
    requires SteadyAll(es)
    ensures SteadyAll(Ranks(es, all))
  {
    if es != [] {
      var key := es[0].0;
      assert SteadyEntry(es[0]);
      assert forall e :: e in es[1..] ==> e in es;
      SteadyRanks(es[1..], all);
      if Context(key).Some? && TimeOf(key).Some? {
        ReplaceSteady(key, Below(Times(all, Context(key).value), TimeOf(key).value));
      }
    }
  }

  lemma SteadyArranged(es: seq<Entry>, xs: seq<Entry>)
    requires SteadyAll(es) && Arranged(es, xs)
    ensures SteadyAll(xs)
  {
    forall e | e in xs ensures e in es {
      assert e in multiset(xs);
    }
  }

  /** Where no record or collection in a key or value holds a commit time, and entries that sort
      alike are equal, collections are reported equal exactly if their entries pair up one to one,
      with each commit time by its rank. */
  lemma AgreementExact(es: seq<Entry>, fs: seq<Entry>)
    requires SteadyAll(es) && SteadyAll(fs) && Told(Ranked(es)) && Told(Ranked(fs))
    ensures Equal(Coll(es), Coll(fs)) <==> PairUp(Ranked(es), Ranked(fs))
  {
    if Equal(Coll(es), Coll(fs)) { NoFalseAgreement(es, fs); }
    if PairUp(Ranked(es), Ranked(fs)) {
      var xs, ys :| Arranged(Ranked(es), xs) && Arranged(Ranked(fs), ys) && Pairwise(xs, ys);
      PairedAlike(es, fs, xs, ys);
    }
  }

  lemma PairedAlike(es: seq<Entry>, fs: seq<Entry>, xs: seq<Entry>, ys: seq<Entry>)
    requires SteadyAll(es) && SteadyAll(fs) && Told(Ranked(es)) && Told(Ranked(fs))
    requires Arranged(Ranked(es), xs) && Arranged(Ranked(fs), ys) && Pairwise(xs, ys)
    ensures Equal(Coll(es), Coll(fs))
  {
    var a, b := Ranked(es), Ranked(fs);
    RanksSize(es, es);
    RanksSize(fs, fs);
    SteadyRanks(es, es);
    SteadyRanks(fs, fs);
    SteadyArranged(a, xs);
    SteadyArranged(b, ys);
    ArrangedAlike(xs, a);
    ArrangedAlike(ys, b);
    SortedAlike(xs, ys);
    SameBack(Sorted(xs), Sorted(a));
    SameTwice(Sorted(a), Sorted(xs), Sorted(ys));
    SameTwice(Sorted(a), Sorted(ys), Sorted(b));
    PairwiseEntries(Sorted(a), Sorted(b));
  }

  // ----- What a commit time inside a collection breaks -----

  /** A collection whose one key is a commit time. */
  function Keyed(t: int, v: int): Data {
    Coll([(CommitTime(t), Int(v))])
  }

  lemma KeyedEqual(t: int, u: int, v: int, w: int)
    ensures Equal(Keyed(t, v), Keyed(u, w)) <==> v == w
  {
    var a, b: seq<Entry> := [(CommitTime(t), Int(v))], [(CommitTime(u), Int(w))];
    assert a[1..] == [] && b[1..] == [];
    OneRanked(t, v);
    OneRanked(u, w);
    SortedOne((CommitTime(0), Int(v)));
    SortedOne((CommitTime(0), Int(w)));
    var x, y: seq<Entry> := [(CommitTime(0), Int(v))], [(CommitTime(0), Int(w))];
    assert x[1..] == [] && y[1..] == [];
    assert EqualEntries(x, y) <==> v == w;
  }

  lemma OneRanked(t: int, v: int)
    ensures Ranked([(CommitTime(t), Int(v))]) == [(CommitTime(0), Int(v))]
  {
    var e: Entry := (CommitTime(t), Int(v));
    assert [e][1..] == [] && Times([], Unit) == [] && Ranks([], [e]) == [];
    assert Times([e], Unit) == [t] + [];
    assert [t] + [] == [t] && [t][1..] == [] && Below([], t) == 0;
    assert Below([t], t) == 0;
    assert RankedKey(e.0, [e]) == CommitTime(0);
  }

  lemma {:induction false} RanksStill(es: seq<Entry>, all: seq<Entry>)
    requires forall e :: e in es ==> Context(e.0).None?
    ensures Ranks(es, all) == es
  {
    if es != [] {
      assert es[0] in es && forall e :: e in es[1..] ==> e in es;
      RanksStill(es[1..], all);
      assert es == [es[0]] + es[1..];
    }
  }

  lemma SortedOne(e: Entry)
    ensures Sorted([e]) == [e]
  {
    assert [e][1..] == [] && Sorted([]) == [];
  }

  lemma KeyedShows(t: int, v: int)
    requires 0 <= t < 10
    ensures var shown := Show(Keyed(t, v));
            |shown| > 2 && shown[0] == '[' && shown[1] == 't' && shown[2] == ('0' as int + t) as char
  {
    var e: Entry := (CommitTime(t), Int(v));
    SortedOne(e);
    assert !Dense([e], 0);
    assert Digits(t) == [('0' as int + t) as char];
    assert Show(CommitTime(t)) == "t" + Digits(t);
    assert Show(Keyed(t, v)) == "[" + ShowEntries([e], false) + "]";
    assert ShowEntries([e], false) == Show(e.0) + " -> " + Show(e.1) + "";
  }

  /** The order of two such collections is that of their times, not of what they hold. */
  lemma KeyedOrder(t: int, u: int, v: int, w: int)
    requires 0 <= t < u < 10
    ensures TotalCompare(Keyed(t, v), Keyed(u, w)) < 0
  {
    KeyedShows(t, v);
    KeyedShows(u, w);
    var a, b := Show(Keyed(t, v)), Show(Keyed(u, w));
    assert a[1..][0] == 't' && b[1..][0] == 't' && a[1..][1..][0] == a[2] && b[1..][1..][0] == b[2];
    assert CompareText(a[1..][1..], b[1..][1..]) < 0;
    assert CompareText(a, b) == CompareText(a[1..], b[1..]) == CompareText(a[1..][1..], b[1..][1..]);
    hide Show;
    assert TotalCompare(Keyed(t, v), Keyed(u, w)) == CompareText(a, b);
  }

  lemma KeyedEntries(t: int, u: int, v: int, w: int)
    requires 0 <= t < u < 10
    ensures CompareEntries((Keyed(t, v), Unit), (Keyed(u, w), Unit)) < 0
  {
    hide TotalCompare;
    KeyedOrder(t, u, v, w);
  }

  lemma SortedTwo(x: Entry, y: Entry)
    requires CompareEntries(x, y) < 0
    ensures Sorted([x, y]) == [x, y] && Sorted([y, x]) == [x, y]
  {
    EntryFlip(x, y);
    SortedOne(x);
    SortedOne(y);
    assert [x, y][1..] == [y] && [y, x][1..] == [x];
    assert Insert(y, []) == [y];
    assert Insert(y, [x]) == [x] + Insert(y, [x][1..]) && [x][1..] == [];
  }

  lemma MispairPairs(a: Entry, b: Entry, c: Entry, d: Entry)
    requires Context(a.0).None? && Context(b.0).None? && Context(c.0).None? && Context(d.0).None? && Same(a, c)
             && Same(b, d)
    ensures Ranked([a, b]) == [a, b] && Ranked([c, d]) == [c, d] && PairUp(Ranked([a, b]), Ranked([c, d]))
  {
    hide Equal;
    RanksStill([a, b], [a, b]);
    RanksStill([c, d], [c, d]);
    assert Arranged([a, b], [a, b]) && Arranged([c, d], [c, d]) && Pairwise([a, b], [c, d]);
  }

  lemma MispairDiffers(a: Entry, b: Entry, c: Entry, d: Entry)
    requires Ranked([a, b]) == [a, b] && Ranked([c, d]) == [c, d]
    requires CompareEntries(b, a) < 0 && CompareEntries(c, d) < 0 && !Equal(b.0, c.0)
    ensures !Equal(Coll([a, b]), Coll([c, d]))
  {
    hide CompareEntries, Ranked;
    SortedTwo(b, a);
    SortedTwo(c, d);
    assert !EqualEntries([b, a], [c, d]);
  }

  /** Two collections whose entries pair up one to one and that are reported different: their keys
      are collections that hold commit times. */
  lemma RanksMispair()
    ensures var es: seq<Entry>, fs: seq<Entry> :=
              [(Keyed(9, 1), Unit), (Keyed(1, 2), Unit)], [(Keyed(1, 1), Unit), (Keyed(9, 2), Unit)];
            PairUp(Ranked(es), Ranked(fs)) && !Equal(Coll(es), Coll(fs)) && !SteadyAll(es)
  {
    hide PairUp, Ranked, Show, Sorted, Equal, CompareEntries, TotalCompare;
    var a: Entry, b: Entry, c: Entry, d: Entry := (Keyed(9, 1), Unit), (Keyed(1, 2), Unit), (Keyed(1, 1), Unit),
        (Keyed(9, 2), Unit);
    KeyedEqual(9, 1, 1, 1);
    KeyedEqual(1, 9, 2, 2);
    KeyedEqual(1, 1, 2, 1);
    Reflexive(Unit);
    MispairPairs(a, b, c, d);
    KeyedEntries(1, 9, 2, 1);
    KeyedEntries(1, 9, 1, 2);
    MispairDiffers(a, b, c, d);
    assert a in [a, b] && !SteadyEntry(a) by { assert !TimelessEntries([(CommitTime(9), Int(1))]); }
  }

  // ----- Values without records and collections -----

  ghost predicate Plain(d: Data) {
    match d
    case Record(_) => false
    case Coll(_) => false
    case Variant(_, payload) => Plain(payload)
    case Nominal(_, _, arg) => Plain(arg)
    case _ => true
  }

  ghost predicate PlainAll(es: seq<Entry>) {
    forall e :: e in es ==> Plain(e.0) && Plain(e.1)
  }

  /** Such values sort alike only if they are the same, and hold no commit time that is shown. */
  lemma {:induction false} PlainTold(a: Data, b: Data)
    requires Plain(a) && Plain(b)
    ensures TotalCompare(a, b) == 0 ==> a == b
    ensures Steady(a)
    decreases a
  {
    match a
    case Str(s) => if b.Str? { TextZero(s, b.s); }
    case Variant(tag, payload) =>
      PlainTold(payload, if b.Variant? then b.payload else payload);
      if b.Variant? { TextZero(tag, b.tag); }
    case Nominal(ty, ctor, arg) =>
      PlainTold(arg, if b.Nominal? then b.arg else arg);
      if b.Nominal? {
        TextZero(ty, b.ty);
        TextZero(ctor, b.ctor);
      }
    case _ =>
  }

  lemma {:induction false} ReplacePlain(key: Data, t: int)
    requires Plain(key)
    ensures Plain(Replace(key, t))
  {
    if key.Variant? { ReplacePlain(key.payload, t); }
  }

  lemma {:induction false} PlainRanks(es: seq<Entry>, all: seq<Entry>)
    requires PlainAll(es)
    ensures PlainAll(Ranks(es, all))
  {
    if es != [] {
      var key := es[0].0;
      assert es[0] in es && forall e :: e in es[1..] ==> e in es;
      PlainRanks(es[1..], all);
      if Context(key).Some? && TimeOf(key).Some? {
        ReplacePlain(key, Below(Times(all, Context(key).value), TimeOf(key).value));
      }
    }
  }

  lemma {:induction false} PlainAllTold(es: seq<Entry>)
    requires PlainAll(es)
    ensures SteadyAll(es) && Told(es)
  {
    forall e | e in es ensures SteadyEntry(e) {
      PlainTold(e.0, e.0);
      PlainTold(e.1, e.1);
    }
    forall x, y | x in es && y in es && CompareEntries(x, y) == 0 ensures Same(x, y) {
      PlainTold(x.0, y.0);
      PlainTold(x.1, y.1);
      Reflexive(x.0);
      Reflexive(x.1);
    }
  }

  /** Collections of values without records and collections are reported equal exactly if their
      entries pair up one to one, with each commit time by its rank. */
  lemma PlainAgreement(es: seq<Entry>, fs: seq<Entry>)
    requires PlainAll(es) && PlainAll(fs)
    ensures Equal(Coll(es), Coll(fs)) <==> PairUp(Ranked(es), Ranked(fs))
  {
    PlainAllTold(es);
    PlainAllTold(fs);
    PlainRanks(es, es);
    PlainRanks(fs, fs);
    PlainAllTold(Ranked(es));
    PlainAllTold(Ranked(fs));
    AgreementExact(es, fs);
  }
}
