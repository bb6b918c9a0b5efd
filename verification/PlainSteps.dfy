/** Patterns, keyed writes, collections and loop orders: what the interpreter computes with them is
    what they mean. */
module PlainSteps {
  import opened Options
  import opened InterpSyntax
  import opened InterpValues
  import opened InterpEval
  import opened InterpClean
  import opened PlainRelation
  import Equality = ValueEquality
  import Operators = OperatorMeaning
  import P = PlainMeaning

  // ----- Patterns -----

  ghost predicate AllKnown(binds: seq<(string, Value)>) {
    forall i | 0 <= i < |binds| :: binds[i].1.Known?
  }

  /** The bindings as a map; a later one covers an earlier one of the same name. */
  ghost function BindMap(binds: seq<(string, Value)>): map<string, Data>
    requires AllKnown(binds)
  {
    if |binds| == 0 then map[] else map[binds[0].0 := binds[0].1.d] + BindMap(binds[1..])
  }

  lemma {:induction false} OneMoreMeans(env: Env, scope: P.Scope, x: string, v: Data)
    requires ScopeMeans(env, scope)
    ensures ScopeMeans(Bound(x, Val(Known(v)), env), scope[x := P.Val(v)])
  {}

  lemma {:induction false} OneMoreBound(scope: P.Scope, x: string, v: Data, rest: map<string, Data>)
    ensures P.BoundAll(scope[x := P.Val(v)], rest) == P.BoundAll(scope, map[x := v] + rest)
  {}

  lemma {:induction false} BindAllMeans(env: Env, scope: P.Scope, binds: seq<(string, Value)>)
    requires ScopeMeans(env, scope) && AllKnown(binds)
    ensures ScopeMeans(BindAll(env, binds), P.BoundAll(scope, BindMap(binds)))
    decreases |binds|
  {
    hide ScopeMeans;
    if |binds| > 0 {
      var (x, v) := binds[0];
      OneMoreMeans(env, scope, x, v.d);
      BindAllMeans(Bound(x, Val(v), env), scope[x := P.Val(v.d)], binds[1..]);
      OneMoreBound(scope, x, v.d, BindMap(binds[1..]));
    } else {
      assert P.BoundAll(scope, map[]) == scope;
    }
  }

  ghost predicate PositionsFrom(bs: seq<Option<string>>, i: nat, fields: Operators.Fields, binds: map<string, Data>)
    requires i <= |bs|
  {
    && (forall j | i <= j < |bs| && bs[j].Some? :: exists v :: Operators.Named(fields, Position(j), v))
    && (forall x :: x in binds <==> Some(x) in bs[i..])
    && (forall j | i <= j < |bs| && bs[j].Some? && Some(bs[j].value) !in bs[j + 1..] ::
          Operators.Named(fields, Position(j), binds[bs[j].value]))
  }

  lemma {:induction false} BindPositionsMean(bs: seq<Option<string>>, i: nat, v: Data)
    requires i <= |bs| && v.Record?
    ensures var r := BindPositions(bs, i, v);
            && (r.Ok? ==> AllKnown(r.value) && PositionsFrom(bs, i, v.fields, BindMap(r.value)))
            && (r.Err? ==> r == Err(Refused) && !exists binds :: PositionsFrom(bs, i, v.fields, binds))
    decreases |bs| - i
  {
    if i < |bs| {
      BindPositionsMean(bs, i + 1, v);
      assert bs[i..] == [bs[i]] + bs[i + 1..];
      var rest := BindPositions(bs, i + 1, v);
      if rest.Err? {
        forall binds | PositionsFrom(bs, i, v.fields, binds) ensures false { WithoutFirst(bs, i, v.fields, binds); }
      } else if bs[i].Some? {
        var f := FieldOf(v.fields, Position(i));
        hide Position;
        FieldNamedHere(v.fields, Position(i));
        if f.Ok? { OnePosition(bs, i, v, f.value, rest.value); }
      }
    }
  }

  lemma {:induction false} FieldNamedHere(fields: Operators.Fields, name: string)
    ensures match FieldOf(fields, name) case Ok(v) => Operators.Named(fields, name, v)
                                        case Err(e) => e == Refused && forall v :: !Operators.Named(fields, name, v)
  {
    Operators.FieldNamed(fields, name, Unit);
    forall v ensures FieldOf(fields, name) == Ok(v) <==> Operators.Named(fields, name, v) {
      Operators.FieldNamed(fields, name, v);
    }
  }

  /** Without the `i`th position. */
  lemma {:induction false} WithoutFirst(bs: seq<Option<string>>, i: nat, fields: Operators.Fields,
          binds: map<string, Data>)
    requires i < |bs| && PositionsFrom(bs, i, fields, binds)
    ensures PositionsFrom(bs, i + 1, fields, map x | x in binds && Some(x) in bs[i + 1..] :: binds[x])
  {
    hide Position, Operators.Named;
    var rest := map x | x in binds && Some(x) in bs[i + 1..] :: binds[x];
    assert bs[i..] == [bs[i]] + bs[i + 1..];
    forall j | i + 1 <= j < |bs| ensures bs[j] in bs[i + 1..] { assert bs[i + 1..][j - i - 1] == bs[j]; }
  }

  lemma {:induction false} OnePosition(bs: seq<Option<string>>, i: nat, v: Data, f: Data, rest: seq<(string, Value)>)
    requires i < |bs| && v.Record? && bs[i].Some? && Operators.Named(v.fields, Position(i), f) && AllKnown(rest)
    requires PositionsFrom(bs, i + 1, v.fields, BindMap(rest))
    ensures var all := [(bs[i].value, Known(f))] + rest; AllKnown(all) && PositionsFrom(bs, i, v.fields, BindMap(all))
  {
    hide Position;
    var x := bs[i].value;
    var all := [(x, Known(f))] + rest;
    assert all[1..] == rest;
    var m, n := BindMap(all), BindMap(rest);
    assert m == map[x := f] + n;
    assert bs[i..] == [bs[i]] + bs[i + 1..];
    forall j | i <= j < |bs| && bs[j].Some? && Some(bs[j].value) !in bs[j + 1..]
      ensures Operators.Named(v.fields, Position(j), m[bs[j].value])
    {
      if j > i { assert bs[i + 1..][j - i - 1] == bs[j]; }
    }
  }

  lemma {:induction false} NamedOnce(fields: Operators.Fields, name: string, u: Data, v: Data)
    requires Operators.Named(fields, name, u) && Operators.Named(fields, name, v)
    ensures u == v
  {
    Operators.FieldNamed(fields, name, u);
    Operators.FieldNamed(fields, name, v);
  }

  lemma {:induction false} LastOf(bs: seq<Option<string>>, x: string) returns (i: nat)
    requires Some(x) in bs
    ensures i < |bs| && bs[i] == Some(x) && Some(x) !in bs[i + 1..]
  {
    var n := |bs| - 1;
    assert bs == bs[..n] + [bs[n]];
    if bs[n] == Some(x) {
      i := n;
    } else {
      i := LastOf(bs[..n], x);
      assert bs[i + 1..] == bs[..n][i + 1..] + [bs[n]];
    }
  }

  lemma {:induction false} PositionsOnce(bs: seq<Option<string>>, fields: Operators.Fields, a: map<string, Data>,
          b: map<string, Data>)
    requires P.Positions(bs, fields, a) && P.Positions(bs, fields, b)
    ensures a == b
  {
    hide Position;
    forall x | x in a ensures x in b && a[x] == b[x] {
      assert Some(x) in bs;
      var i := LastOf(bs, x);
      assert bs[i].value == x;
      NamedOnce(fields, Position(i), a[x], b[x]);
    }
    assert a.Keys == b.Keys;
  }

  lemma {:induction false} FitMeans(p: Pattern, v: Data)
    ensures var r := MatchPattern(p, v);
            match P.Fits(p, v)
            case Unfit => r == Err(Refused)
            case Other => r == Ok(None)
            case Fitting(binds) => r.Ok? && r.value.Some? && AllKnown(r.value.value) && BindMap(r.value.value) == binds
  {
    match (p, v)
    case (TagPattern(_, b), Variant(_, payload)) => OneBound(b, payload);
    case (CtorPattern(ty, ctor, bs), Nominal(t, k, arg)) =>
      if ty == t && ctor == k && |bs| == 1 { OneBound(bs[0], arg); }
      if ty == t && ctor == k && |bs| > 1 && arg.Record? { TupleFits(bs, arg); }
    case _ =>
  }

  lemma {:induction false} OneBound(b: Option<string>, v: Data)
    ensures AllKnown(OneBinding(b, v)) && BindMap(OneBinding(b, v)) == P.Binding(b, v)
  {
    if b.Some? { assert OneBinding(b, v)[1..] == []; }
  }

  lemma {:induction false} TupleFits(bs: seq<Option<string>>, arg: Data)
    requires arg.Record?
    ensures var r := BindPositions(bs, 0, arg);
            if exists binds :: P.Positions(bs, arg.fields, binds)
            then r.Ok? && AllKnown(r.value) && forall binds | P.Positions(bs, arg.fields, binds) ::
                BindMap(r.value) == binds
            else r == Err(Refused)
  {
    hide Position, Operators.Named, BindPositions;
    assert bs[0..] == bs;
    BindPositionsMean(bs, 0, arg);
    var r := BindPositions(bs, 0, arg);
    if r.Ok? {
      assert P.Positions(bs, arg.fields, BindMap(r.value));
      forall binds | P.Positions(bs, arg.fields, binds) ensures BindMap(r.value) == binds {
        PositionsOnce(bs, arg.fields, BindMap(r.value), binds);
      }
    } else {
      forall binds | P.Positions(bs, arg.fields, binds) ensures PositionsFrom(bs, 0, arg.fields, binds) {}
    }
  }

  // ----- Collections -----

  lemma {:induction false} GatheredMeans(entries: Operators.Entries)
    ensures Collection(entries) == match Operators.Gathered(entries) case Some(v) => Ok(v) case None => Err(Refused)
  {
    Operators.CollectionIs(entries, Unit);
  }

  lemma {:induction false} CollectionMeans(out: seq<(Value, Value)>, es: Operators.Entries)
    requires EntriesMean(out, es)
    ensures CollectionOf(out) == match Operators.Gathered(es) case Some(v) => Ok(Known(v)) case None => Err(Refused)
  {
    hide Operators.Gathered, Collection;
    GatheredMeans(es);
    assert seq(|out|, i requires 0 <= i < |out| => (if out[i].0.Known? then out[i].0.d else Unit,
                                                   if out[i].1.Known? then out[i].1.d else Unit)) == es;
    assert forall i | 0 <= i < |out| :: out[i].0.Known? && out[i].1.Known?;
    assert seq(|out|, i requires 0 <= i < |out| => (out[i].0.d, out[i].1.d)) == es;
  }

  lemma {:induction false} WithEntryIs(entries: Operators.Entries, key: Data, v: Data)
    ensures Operators.Rebound(entries, key, v, WithEntry(entries, key, v))
  {
    hide Equality.Equal;
    if |entries| > 0 {
      if Equality.Equal(entries[0].0, key) {
        assert entries[..0] == [];
        assert WithEntry(entries, key, v) == entries[0 := (entries[0].0, v)];
      } else {
        WithEntryIs(entries[1..], key, v);
        ReboundLater(entries, key, v, WithEntry(entries[1..], key, v));
      }
    }
  }

  lemma {:induction false} ReboundLater(entries: Operators.Entries, key: Data, v: Data, after: Operators.Entries)
    requires |entries| > 0 && !Equality.Equal(entries[0].0, key) && Operators.Rebound(entries[1..], key, v, after)
    ensures Operators.Rebound(entries, key, v, [entries[0]] + after)
  {
    hide Equality.Equal;
    var rest := entries[1..];
    Operators.UnkeyedRest(entries, key);
    if Operators.Unkeyed(rest, key) && after == rest + [(key, v)] {
      assert [entries[0]] + after == entries + [(key, v)];
    } else {
      var i :| && 0 <= i < |rest| && Equality.Equal(rest[i].0, key) && Operators.Unkeyed(rest[..i], key)
               && after == rest[i := (rest[i].0, v)];
      assert entries[i + 1] == rest[i];
      assert entries[..i + 1][1..] == rest[..i] && entries[..i + 1][0] == entries[0];
      Operators.UnkeyedRest(entries[..i + 1], key);
      assert [entries[0]] + after == entries[i + 1 := (entries[i + 1].0, v)];
    }
  }

  lemma {:induction false} UnkeyedBefore(entries: Operators.Entries, key: Data, i: nat, j: nat)
    requires i < j <= |entries| && Operators.Unkeyed(entries[..j], key)
    ensures !Equality.Equal(entries[i].0, key)
  {
    hide Equality.Equal;
    assert entries[..j][i] == entries[i];
  }

  lemma {:induction false} ReboundOnce(entries: Operators.Entries, key: Data, v: Data, a: Operators.Entries,
          b: Operators.Entries)
    requires Operators.Rebound(entries, key, v, a) && Operators.Rebound(entries, key, v, b)
    ensures a == b
  {
    hide Equality.Equal;
    if !Operators.Unkeyed(entries, key) {
      var i :| && 0 <= i < |entries| && Equality.Equal(entries[i].0, key) && Operators.Unkeyed(entries[..i], key)
               && a == entries[i := (entries[i].0, v)];
      var j :| && 0 <= j < |entries| && Equality.Equal(entries[j].0, key) && Operators.Unkeyed(entries[..j], key)
               && b == entries[j := (entries[j].0, v)];
      if i < j { UnkeyedBefore(entries, key, i, j); }
      if j < i { UnkeyedBefore(entries, key, j, i); }
    }
  }

  lemma {:induction false} KeyWrittenMeans(current: Data, key: Data, v: Data)
    requires current.Coll?
    ensures exists after :: Operators.Rebound(current.entries, key, v, after)
    ensures forall after | Operators.Rebound(current.entries, key, v, after) ::
              KeyWritten(Known(current), Known(key), Known(v))
              == match Operators.Gathered(after) case Some(d) => Ok(Known(d)) case None => Err(Refused)
  {
    hide Operators.Gathered, Collection, Operators.Rebound;
    var after := WithEntry(current.entries, key, v);
    WithEntryIs(current.entries, key, v);
    GatheredMeans(after);
    forall x | Operators.Rebound(current.entries, key, v, x) ensures x == after {
      ReboundOnce(current.entries, key, v, x, after);
    }
  }

  // ----- Orders of loops -----

  lemma {:induction false} InsertLeast(e: (Data, Data), sorted: seq<(Data, Data)>)
    requires e.0.Int? && Positional(sorted) && sorted != []
    ensures InsertEntry(e, sorted) == if e.0.i <= sorted[0].0.i then [e] + sorted
            else [sorted[0]] + InsertEntry(e, sorted[1..])
  {}

  lemma {:induction false} SortIs(entries: seq<(Data, Data)>)
    requires Positional(entries)
    ensures SortEntries(entries) == P.Ascending(entries)
    decreases |entries|
  {
    if entries != [] {
      var k, rest := P.Least(entries), entries[1..];
      SortIs(rest);
      if k == 0 {
        FirstIsLeast(entries);
      } else {
        var less := rest[..k - 1] + rest[k..];
        var others := [entries[0]] + less;
        SortIs(less);
        SortIs(others);
        LaterIsLeast(entries, k);
      }
    }
  }

  lemma {:induction false} AscendingStep(entries: seq<(Data, Data)>)
    requires Positional(entries) && entries != []
    ensures var k := P.Least(entries);
            P.Ascending(entries) == [entries[k]] + P.Ascending(entries[..k] + entries[k + 1..])
  {}

  lemma {:induction false} SortStep(entries: seq<(Data, Data)>)
    requires Positional(entries) && entries != []
    ensures SortEntries(entries) == InsertEntry(entries[0], SortEntries(entries[1..]))
  {}

  lemma {:induction false} FirstIsLeast(entries: seq<(Data, Data)>)
    requires Positional(entries) && entries != [] && P.Least(entries) == 0
    requires SortEntries(entries[1..]) == P.Ascending(entries[1..])
    ensures SortEntries(entries) == P.Ascending(entries)
  {
    var rest := entries[1..];
    assert entries[..0] + entries[1..] == rest;
    if rest != [] {
      var j := P.Least(rest);
      assert P.Ascending(rest)[0] == rest[j] && rest[j] == entries[j + 1];
    }
  }

  lemma {:induction false} Reshuffled<T>(s: seq<T>, k: nat)
    requires 0 < k < |s|
    ensures s[1..][k - 1] == s[k] && s[1..][k - 1 + 1..] == s[1..][k..]
    ensures s[..k] + s[k + 1..] == [s[0]] + (s[1..][..k - 1] + s[1..][k..])
    ensures ([s[0]] + (s[1..][..k - 1] + s[1..][k..]))[1..] == s[1..][..k - 1] + s[1..][k..]
    ensures forall t: seq<T> :: ([s[k]] + t)[1..] == t
  {}

  lemma {:induction false} LaterIsLeast(entries: seq<(Data, Data)>, k: nat)
    requires Positional(entries) && entries != [] && P.Least(entries) == k > 0
    requires var less := entries[1..][..k - 1] + entries[1..][k..];
             && SortEntries(entries[1..]) == P.Ascending(entries[1..]) && SortEntries(less) == P.Ascending(less)
             && SortEntries([entries[0]] + less) == P.Ascending([entries[0]] + less)
    ensures SortEntries(entries) == P.Ascending(entries)
  {
    hide SortEntries, P.Ascending, InsertEntry;
    var rest := entries[1..];
    var less := rest[..k - 1] + rest[k..];
    var others := [entries[0]] + less;
    LeastRest(entries);
    AscendingStep(entries);
    AscendingStep(rest);
    Reshuffled(entries, k);
    SortStep(entries);
    SortStep(others);
    var tail := P.Ascending(less);
    InsertLeast(entries[0], [entries[k]] + tail);
  }

  lemma {:induction false} LeastRest(entries: seq<(Data, Data)>)
    requires Positional(entries) && entries != [] && P.Least(entries) > 0
    ensures P.Least(entries[1..]) == P.Least(entries) - 1
  {
    var k, rest := P.Least(entries), entries[1..];
    var j := P.Least(rest);
    assert rest[k - 1] == entries[k] && rest[j] == entries[j + 1];
  }
}
