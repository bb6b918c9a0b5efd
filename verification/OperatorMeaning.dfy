/** What the operations on decided values mean, said of their operands and their result, and that
    the interpreter computes exactly that. */
module OperatorMeaning {
  import opened Options
  import opened InterpSyntax
  import Arith = IntArith
  import Equality = ValueEquality
  import Computed = InterpValues

  type Fields = seq<(string, Data)>
  type Entries = seq<(Data, Data)>

  // ----- Parts of values -----

  /** `v` is the first field called `name`. */
  ghost predicate Named(fields: Fields, name: string, v: Data) {
    exists i | 0 <= i < |fields| :: fields[i] == (name, v) && forall j | 0 <= j < i :: fields[j].0 != name
  }

  /** `v` is under the first key equal to `key`. */
  ghost predicate Keyed(entries: Entries, key: Data, v: Data) {
    exists i :: KeyedAt(entries, key, v, i)
  }

  ghost predicate KeyedAt(entries: Entries, key: Data, v: Data, i: int) {
    && 0 <= i < |entries| && Equality.Equal(entries[i].0, key) && entries[i].1 == v
    && forall j | 0 <= j < i :: !Equality.Equal(entries[j].0, key)
  }

  ghost predicate Unkeyed(entries: Entries, key: Data) {
    forall i | 0 <= i < |entries| :: !Equality.Equal(entries[i].0, key)
  }

  /** `d` is the tuple of `parts`: unit for none, the part itself for one. */
  ghost predicate Tupled(parts: seq<Data>, d: Data) {
    if |parts| == 0 then d == Unit
    else if |parts| == 1 then d == parts[0]
    else
      && d.Record? && |d.fields| == |parts|
      && forall i | 0 <= i < |parts| :: d.fields[i] == (Computed.Position(i), parts[i])
  }

  /** `d` is the collection of `entries`: no two keys that sort next to each other are equal. */
  ghost predicate Collected(entries: Entries, d: Data) {
    var keys := Equality.Sorted(seq(|entries|, i requires 0 <= i < |entries| => (entries[i].0, Unit)));
    d == Coll(entries) && forall i | 0 < i < |keys| :: !Equality.Equal(keys[i - 1].0, keys[i].0)
  }

  /** `after` is `before` with `key` bound to `v`: where the key is, or else at the end. */
  ghost predicate Rebound(before: Entries, key: Data, v: Data, after: Entries) {
    || (Unkeyed(before, key) && after == before + [(key, v)])
    || (exists i | 0 <= i < |before| ::
          && Equality.Equal(before[i].0, key) && Unkeyed(before[..i], key)
          && after == before[i := (before[i].0, v)])
  }

  function SumTo(entries: Entries, n: nat): int
    requires n <= |entries| && forall i | 0 <= i < |entries| :: entries[i].1.Int?
  {
    if n == 0 then 0 else SumTo(entries, n - 1) + entries[n - 1].1.i
  }

  // ----- Orders -----

  /** `a` comes before `b` in the order of dictionaries. */
  ghost predicate TextBefore(a: string, b: string) {
    exists k | 0 <= k <= |a| && k < |b| :: a[..k] == b[..k] && (k == |a| || a[k] < b[k])
  }

  /** The order of two values: -1 before, 0 the same, 1 after. A record's is that of its first
      component that differs. */
  ghost predicate Ordered(l: Data, r: Data, o: int)
    decreases l, 2
  {
    match (l, r)
    case (Int(a), Int(b)) => (o == -1 && a < b) || (o == 0 && a == b) || (o == 1 && a > b)
    case (Str(a), Str(b)) => (o == -1 && TextBefore(a, b)) || (o == 0 && a == b) || (o == 1 && TextBefore(b, a))
    case (Bool(a), Bool(b)) => (o == -1 && !a && b) || (o == 0 && a == b) || (o == 1 && a && !b)
    case (Nominal(t, k, a), Nominal(u, m, b)) => t == u && k == m && Ordered(a, b, o)
    case (Record(a), Record(b)) =>
      OrderedFrom(l, r, 0, o)
    case _ => false
  }

  /** From component `i` on, the first that differs decides. */
  ghost predicate OrderedFrom(l: Data, r: Data, i: nat, o: int)
    requires l.Record? && r.Record? && i <= |l.fields|
    decreases l, 1, |l.fields| - i
  {
    if i == |l.fields| then o == 0
    else if ComponentOrder(l, r, i, 0) then OrderedFrom(l, r, i + 1, o)
    else ComponentOrder(l, r, i, o)
  }

  ghost predicate ComponentOrder(l: Data, r: Data, i: nat, o: int)
    requires l.Record? && r.Record?
    decreases l, 0
  {
    exists x, y | Named(l.fields, Computed.Position(i), x) && Named(r.fields, Computed.Position(i), y) ::
      (NamedInside(l, Computed.Position(i), x); Ordered(x, y, o))
  }

  lemma {:induction false} NamedInside(l: Data, name: string, x: Data)
    requires l.Record? && Named(l.fields, name, x)
    ensures x < l
  {
    var i :| 0 <= i < |l.fields| && l.fields[i] == (name, x);
    assert l.fields[i].1 < l;
  }

  ghost predicate Compares(op: CmpOp, l: Data, r: Data, b: bool) {
    match op
    case Eq => b == Equality.Equal(l, r)
    case NotEq => b == !Equality.Equal(l, r)
    case _ => exists o :: Ordered(l, r, o) && b == Meets(op, o)
  }

  predicate Meets(op: CmpOp, o: int) {
    match op
    case Eq => o == 0
    case NotEq => o != 0
    case Lt => o < 0
    case LtE => o <= 0
    case Gt => o > 0
    case GtE => o >= 0
  }

  /** Whether `x` is beyond `y`, where the two have an order. */
  ghost predicate Beyond(x: Data, y: Data, greatest: bool, b: bool) {
    exists o :: Ordered(x, y, o) && b == if greatest then o > 0 else o < 0
  }

  /** The place of the value that leads the first `n`: each value in turn takes the lead if it is
      beyond the one that leads. */
  ghost function Leader(entries: Entries, greatest: bool, n: nat): (k: Option<nat>)
    requires 0 < n <= |entries|
    ensures k.Some? ==> k.value < n
  {
    if n == 1 then Some(0)
    else
      var l :- Leader(entries, greatest, n - 1);
      if Beyond(entries[n - 1].1, entries[l].1, greatest, true) then Some(n - 1)
      else if Beyond(entries[n - 1].1, entries[l].1, greatest, false) then Some(l)
      else None
  }

  // ----- Operations -----

  ghost predicate Joined(op: BinOp, l: Data, r: Data, v: Data) {
    match (op, l, r)
    case (Add, Int(a), Int(b)) => v.Int? && Arith.Fits(v.i) && v.i == a + b
    case (Add, Str(a), Str(b)) => v.Str? && v.s == a + b
    case (Sub, Int(a), Int(b)) => v.Int? && Arith.Fits(v.i) && v.i + b == a
    case (Mul, Int(a), Int(b)) => v.Int? && Arith.Fits(v.i) && v.i == a * b
    case (FloorDiv, Int(a), Int(b)) =>
      && Arith.Fits(a) && Arith.Fits(b) && b != 0
      && v.Int? && Arith.Fits(v.i) && Arith.IsFloor(a, b, v.i)
    case (Pow, Int(a), Int(b)) => b >= 0 && v.Int? && Arith.Fits(v.i) && v.i == Arith.Power(a, b)
    case (And, Bool(a), Bool(b)) => v.Bool? && (v.b <==> a && b)
    case (Or, Bool(a), Bool(b)) => v.Bool? && (v.b <==> a || b)
    case (Xor, Bool(a), Bool(b)) => v.Bool? && (v.b <==> (a <==> !b))
    case (Union, Coll(a), Coll(b)) =>
      && v.Coll? && |v.entries| == |a| + |b| && Collected(v.entries, v)
      && (forall i | 0 <= i < |a| :: v.entries[i] == (Variant("0", a[i].0), a[i].1))
      && (forall i | 0 <= i < |b| :: v.entries[|a| + i] == (Variant("1", b[i].0), b[i].1))
    case _ => false
  }

  ghost predicate Subscripted(t: Data, k: Data, checked: bool, v: Data) {
    match t
    case Coll(entries) =>
      if checked then
        || (Unkeyed(entries, k) && v == Nominal("Option", "none", Unit))
        || (v.Nominal? && v.ty == "Option" && v.ctor == "some" && Keyed(entries, k, v.arg))
      else Keyed(entries, k, v)
    case Record(fields) => !checked && k.Int? && k.i >= 0 && Named(fields, Computed.Position(k.i), v)
    case _ => false
  }

  /** `op` of `vs` is `v`. */
  ghost predicate Yields(op: Op, vs: seq<Data>, v: Data) {
    match op
    case MkList => v.Coll? && |v.entries| == |vs| && forall i | 0 <= i < |vs| :: v.entries[i] == (Int(i), vs[i])
    case MkRecord(names) =>
      && |names| == |vs| && v.Record? && |v.fields| == |vs|
      && forall i | 0 <= i < |vs| :: v.fields[i] == (names[i], vs[i])
    case Tag(tag) =>
      v.Variant? && v.tag == tag && if |vs| == 0 then v.payload == Unit else |vs| == 1 && v.payload == vs[0]
    case Construct(ty, ctor, arity) => |vs| == arity && v.Nominal? && v.ty == ty && v.ctor == ctor && Tupled(vs, v.arg)
    case Field(attr) => |vs| == 1 && vs[0].Record? && Named(vs[0].fields, attr, v)
    case Neg => |vs| == 1 && vs[0].Int? && v.Int? && Arith.Fits(v.i) && v.i + vs[0].i == 0
    case Not => |vs| == 1 && vs[0].Bool? && v.Bool? && v.b != vs[0].b
    case Binary(b) => |vs| == 2 && Joined(b, vs[0], vs[1], v)
    case Index(checked) => |vs| == 2 && Subscripted(vs[0], vs[1], checked, v)
    case SumOf =>
      && |vs| == 1 && vs[0].Coll? && (forall i | 0 <= i < |vs[0].entries| :: vs[0].entries[i].1.Int?)
      && (forall n | 0 < n <= |vs[0].entries| :: Arith.Fits(SumTo(vs[0].entries, n)))
      && v == Int(SumTo(vs[0].entries, |vs[0].entries|))
    case Extreme(greatest) =>
      && |vs| == 1 && vs[0].Coll? && |vs[0].entries| > 0
      && var k := Leader(vs[0].entries, greatest, |vs[0].entries|);
      && k.Some? && v == vs[0].entries[k.value].1
  }

  /** The result of `op`, where it has one. */
  ghost function Result(op: Op, vs: seq<Data>): Option<Data> {
    if exists v :: Yields(op, vs, v) then
      var v :| Yields(op, vs, v);
      Some(v)
    else None
  }

  ghost function Compared(op: CmpOp, l: Data, r: Data): Option<bool> {
    if Compares(op, l, r, true) then Some(true) else if Compares(op, l, r, false) then Some(false) else None
  }

  /** The collection of `entries`, where there is one. */
  ghost function Gathered(entries: Entries): Option<Data> {
    if Collected(entries, Coll(entries)) then Some(Coll(entries)) else None
  }

  // ----- The interpreter computes it -----

  lemma {:induction false} FieldNamed(fields: Fields, name: string, v: Data)
    ensures Computed.FieldOf(fields, name) == Ok(v) <==> Named(fields, name, v)
    ensures Computed.FieldOf(fields, name).Err? ==> Computed.FieldOf(fields, name) == Err(Refused)
  {
    if |fields| > 0 {
      if fields[0].0 == name {
        if fields[0].1 == v { assert fields[0] == (name, v); }
      } else {
        FieldNamed(fields[1..], name, v);
        if Named(fields[1..], name, v) {
          var i :| 0 <= i < |fields[1..]| && fields[1..][i] == (name, v)
              && forall j | 0 <= j < i :: fields[1..][j].0 != name;
          assert fields[i + 1] == (name, v);
          assert forall j | 0 <= j < i + 1 :: fields[j].0 != name by {
            forall j | 0 <= j < i + 1 ensures fields[j].0 != name { if j > 0 { assert fields[1..][j - 1]
                == fields[j]; } }
          }
        }
        if Named(fields, name, v) {
          var i :| 0 <= i < |fields| && fields[i] == (name, v) && forall j | 0 <= j < i :: fields[j].0 != name;
          assert fields[1..][i - 1] == (name, v);
          assert forall j | 0 <= j < i - 1 :: fields[1..][j] == fields[j + 1];
        }
      }
    }
  }

  lemma {:induction false} EntryKeyed(entries: Entries, key: Data, v: Data)
    ensures Computed.EntryAt(entries, key) == Some(v) <==> Keyed(entries, key, v)
    ensures Computed.EntryAt(entries, key) == None <==> Unkeyed(entries, key)
  {
    hide Equality.Equal;
    if |entries| > 0 && Equality.Equal(entries[0].0, key) {
      assert KeyedAt(entries, key, entries[0].1, 0);
    } else if |entries| > 0 {
      EntryKeyed(entries[1..], key, v);
      KeyedRest(entries, key, v);
      UnkeyedRest(entries, key);
    }
  }

  lemma KeyedRest(entries: Entries, key: Data, v: Data)
    requires |entries| > 0 && !Equality.Equal(entries[0].0, key)
    ensures Keyed(entries, key, v) <==> Keyed(entries[1..], key, v)
  {
    hide Equality.Equal, KeyedAt;
    forall i ensures KeyedAt(entries[1..], key, v, i) <==> KeyedAt(entries, key, v, i + 1) {
      KeyedNext(entries, key, v, i);
    }
    forall i | KeyedAt(entries, key, v, i) ensures KeyedAt(entries[1..], key, v, i - 1) {
      KeyedNext(entries, key, v, i - 1);
    }
  }

  lemma KeyedNext(entries: Entries, key: Data, v: Data, i: int)
    requires |entries| > 0 && !Equality.Equal(entries[0].0, key)
    ensures KeyedAt(entries[1..], key, v, i) <==> KeyedAt(entries, key, v, i + 1)
  {
    hide Equality.Equal;
    var rest := entries[1..];
    assert forall j | 0 <= j < |rest| :: rest[j] == entries[j + 1];
    if KeyedAt(rest, key, v, i) {
      forall j | 0 <= j < i + 1 ensures !Equality.Equal(entries[j].0, key) {
        if j > 0 { assert rest[j - 1] == entries[j]; }
      }
    }
    if KeyedAt(entries, key, v, i + 1) {
      forall j | 0 <= j < i ensures !Equality.Equal(rest[j].0, key) { assert rest[j] == entries[j + 1]; }
    }
  }

  lemma UnkeyedRest(entries: Entries, key: Data)
    requires |entries| > 0 && !Equality.Equal(entries[0].0, key)
    ensures Unkeyed(entries, key) <==> Unkeyed(entries[1..], key)
  {
    if Unkeyed(entries[1..], key) {
      forall i | 0 <= i < |entries| ensures !Equality.Equal(entries[i].0, key) {
        if i > 0 { assert entries[1..][i - 1] == entries[i]; }
      }
    }
  }

  lemma TupleIs(parts: seq<Data>, d: Data)
    ensures Computed.TupleOf(parts) == d <==> Tupled(parts, d)
  {
    if |parts| > 1 && Tupled(parts, d) { assert d.fields == Computed.TupleOf(parts).fields; }
  }

  lemma CollectionIs(entries: Entries, d: Data)
    ensures Computed.Collection(entries) == Ok(d) <==> Collected(entries, d)
    ensures Computed.Collection(entries) == match Gathered(entries) case Some(v) => Ok(v) case None => Err(Refused)
  {
    hide Equality.Equal, Equality.Sorted;
    var keys := Computed.SortedKeys(entries);
    assert keys == Equality.Sorted(seq(|entries|, i requires 0 <= i < |entries| => (entries[i].0, Unit)));
    if !(forall i | 0 < i < |keys| :: !Equality.Equal(keys[i - 1].0, keys[i].0)) {
      var i :| 0 < i < |keys| && Equality.Equal(keys[i - 1].0, keys[i].0);
      assert Equality.Equal(keys[i - 1].0, keys[i - 1 + 1].0);
      assert Computed.Repeats(keys);
    }
    if Computed.Repeats(keys) {
      var i :| 0 <= i < |keys| - 1 && Equality.Equal(keys[i].0, keys[i + 1].0);
      var j := i + 1;
      assert Equality.Equal(keys[j - 1].0, keys[j].0);
    }
  }

  lemma {:induction false} TextOrder(a: string, b: string)
    ensures Equality.CompareText(a, b) == -1 <==> TextBefore(a, b)
    ensures Equality.CompareText(a, b) == 1 <==> TextBefore(b, a)
    ensures Equality.CompareText(a, b) == 0 <==> a == b
    ensures -1 <= Equality.CompareText(a, b) <= 1
  {
    if a == [] || b == [] {
      if a == [] && b != [] { assert a[..0] == b[..0]; }
      if b == [] && a != [] { assert a[..0] == b[..0]; }
    } else if a[0] != b[0] {
      FirstDiffers(a, b);
      FirstDiffers(b, a);
    } else {
      TextOrder(a[1..], b[1..]);
      TextRest(a, b);
      TextRest(b, a);
      assert a == [a[0]] + a[1..] && b == [b[0]] + b[1..];
    }
  }

  lemma SameFirst(a: string, b: string, k: nat)
    requires 0 < k <= |a| && k <= |b| && a[..k] == b[..k]
    ensures a[0] == b[0]
  {
    assert a[..k][0] == a[0] && b[..k][0] == b[0];
  }

  lemma FirstDiffers(a: string, b: string)
    requires a != [] && b != [] && a[0] != b[0]
    ensures TextBefore(a, b) <==> a[0] < b[0]
  {
    if TextBefore(a, b) {
      var k :| 0 <= k <= |a| && k < |b| && a[..k] == b[..k] && (k == |a| || a[k] < b[k]);
      if k > 0 { SameFirst(a, b, k); }
    }
    if a[0] < b[0] { assert a[..0] == b[..0]; }
  }

  lemma TextRest(a: string, b: string)
    requires a != [] && b != [] && a[0] == b[0]
    ensures TextBefore(a, b) <==> TextBefore(a[1..], b[1..])
  {
    var x, y := a[1..], b[1..];
    if TextBefore(a, b) {
      var k :| 0 <= k <= |a| && k < |b| && a[..k] == b[..k] && (k == |a| || a[k] < b[k]);
      assert k > 0;
      assert x[..k - 1] == a[..k][1..] && y[..k - 1] == b[..k][1..];
    }
    if TextBefore(x, y) {
      var k :| 0 <= k <= |x| && k < |y| && x[..k] == y[..k] && (k == |x| || x[k] < y[k]);
      assert a[..k + 1] == [a[0]] + x[..k] && b[..k + 1] == [b[0]] + y[..k];
    }
  }

  lemma {:induction false} OrderIs(l: Data, r: Data, o: int)
    ensures Computed.Order(l, r) == Ok(o) <==> Ordered(l, r, o)
    ensures Computed.Order(l, r).Err? ==> Computed.Order(l, r) == Err(Refused)
    decreases l, 2
  {
    hide TextBefore, Equality.CompareText;
    if l.Str? && r.Str? {
      TextOrder(l.s, r.s);
    } else if l.Nominal? && r.Nominal? {
      OrderIs(l.arg, r.arg, o);
    } else if l.Record? && r.Record? {
      OrderFieldsIs(l, r, 0, o);
    }
  }

  lemma {:induction false} ComponentIs(l: Data, r: Data, i: nat, o: int)
    requires l.Record? && r.Record?
    ensures var x, y := Computed.FieldOf(l.fields, Computed.Position(i)),
            Computed.FieldOf(r.fields, Computed.Position(i));
            && (ComponentOrder(l, r, i, o) <==> x.Ok? && y.Ok? && Computed.Order(x.value, y.value) == Ok(o))
            && (x.Err? ==> x == Err(Refused)) && (y.Err? ==> y == Err(Refused))
            && (x.Ok? && y.Ok? && Computed.Order(x.value, y.value).Err? ==>
                Computed.Order(x.value, y.value) == Err(Refused))
    decreases l, 0
  {
    var p := Computed.Position(i);
    var x, y := Computed.FieldOf(l.fields, p), Computed.FieldOf(r.fields, p);
    hide Computed.Position;
    if x.Ok? && y.Ok? {
      FieldNamed(l.fields, p, x.value);
      FieldNamed(r.fields, p, y.value);
      NamedInside(l, p, x.value);
      OrderIs(x.value, y.value, o);
    }
    FieldNamed(l.fields, p, Unit);
    FieldNamed(r.fields, p, Unit);
    if ComponentOrder(l, r, i, o) {
      var u, v :| Named(l.fields, p, u) && Named(r.fields, p, v) && u < l && Ordered(u, v, o);
      FieldNamed(l.fields, p, u);
      FieldNamed(r.fields, p, v);
    }
  }

  lemma {:induction false} OrderFieldsIs(l: Data, r: Data, i: nat, o: int)
    requires l.Record? && r.Record? && i <= |l.fields|
    ensures Computed.OrderFields(l, r.fields, i) == Ok(o) <==> OrderedFrom(l, r, i, o)
    ensures Computed.OrderFields(l, r.fields, i).Err? ==> Computed.OrderFields(l, r.fields, i) == Err(Refused)
    decreases l, 1, |l.fields| - i
  {
    hide Computed.Position;
    if i < |l.fields| {
      ComponentIs(l, r, i, 0);
      ComponentIs(l, r, i, o);
      OrderFieldsIs(l, r, i + 1, o);
    }
  }

  /** The interpreter's order is the one order two values have. */
  lemma {:induction false} OrderOnly(l: Data, r: Data)
    ensures var o := Computed.Order(l, r);
            && (forall x :: Ordered(l, r, x) <==> o == Ok(x)) && (o.Err? ==> o == Err(Refused))
  {
    hide Computed.Order, Ordered;
    OrderIs(l, r, 0);
    forall x ensures Ordered(l, r, x) <==> Computed.Order(l, r) == Ok(x) { OrderIs(l, r, x); }
  }

  lemma {:induction false} HoldsIs(op: CmpOp, l: Data, r: Data, b: bool)
    requires !op.Eq? && !op.NotEq?
    ensures var o := Computed.Order(l, r); Compares(op, l, r, b) <==> o.Ok? && b == Computed.Holds(op, o.value)
  {
    OrderOnly(l, r);
    var o := Computed.Order(l, r);
    if o.Ok? { assert Ordered(l, r, o.value); }
  }

  lemma {:induction false} ComparisonIs(op: CmpOp, l: Data, r: Data)
    ensures Computed.Comparison(op, l, r) == match Compared(op, l, r) case Some(b) => Ok(b) case None => Err(Refused)
  {
    hide Computed.Order, Ordered, Equality.Equal, Computed.Holds;
    if op.Eq? || op.NotEq? {
    } else {
      OrderOnly(l, r);
      HoldsIs(op, l, r, true);
      HoldsIs(op, l, r, false);
      hide Compares;
    }
  }

  lemma {:induction false} BeyondIs(x: Data, y: Data, greatest: bool, b: bool)
    ensures var o := Computed.Order(x, y);
            Beyond(x, y, greatest, b) <==> o.Ok? && b == if greatest then o.value > 0 else o.value < 0
    ensures Computed.Order(x, y).Err? ==> Computed.Order(x, y) == Err(Refused)
  {
    hide Computed.Order, Ordered;
    OrderOnly(x, y);
    var o := Computed.Order(x, y);
    if o.Ok? { assert Ordered(x, y, o.value); }
  }

  lemma {:induction false} SumIs(entries: Entries, n: nat, v: Data)
    requires n <= |entries| && (forall i | 0 <= i < |entries| :: entries[i].1.Int?)
    ensures Computed.Total(entries[n..], SumTo(entries, n)) == Ok(v)
       <==> (forall m | n < m <= |entries| :: Arith.Fits(SumTo(entries, m))) && v == Int(SumTo(entries, |entries|))
    ensures Computed.Total(entries[n..], SumTo(entries, n)).Err? ==>
            Computed.Total(entries[n..], SumTo(entries, n)) == Err(Refused)
    decreases |entries| - n
  {
    if n < |entries| {
      SumIs(entries, n + 1, v);
      assert entries[n..][1..] == entries[n + 1..] && entries[n..][0] == entries[n];
      assert SumTo(entries, n + 1) == SumTo(entries, n) + entries[n].1.i;
    }
  }

  lemma {:induction false} SumRefused(entries: Entries, acc: int, k: nat)
    requires k < |entries| && !entries[k].1.Int?
    ensures Computed.Total(entries, acc) == Err(Refused)
    decreases k
  {
    if k > 0 && entries[0].1.Int? {
      assert entries[1..][k - 1] == entries[k];
      SumRefused(entries[1..], acc + entries[0].1.i, k - 1);
    }
  }

  /** From the leader of the first `n` values, the rest is run through. */
  lemma {:induction false} BestIs(entries: Entries, greatest: bool, n: nat)
    requires 0 < n <= |entries| && Leader(entries, greatest, n).Some?
    ensures Computed.Best(entries[n..], greatest, entries[Leader(entries, greatest, n).value].1)
         == match Leader(entries, greatest, |entries|) case Some(k) => Ok(entries[k].1) case None => Err(Refused)
    decreases |entries| - n
  {
    hide Beyond, Computed.Order;
    if n == |entries| {
      assert entries[n..] == [];
    } else {
      var x, y := entries[n].1, entries[Leader(entries, greatest, n).value].1;
      BeyondIs(x, y, greatest, true);
      BeyondIs(x, y, greatest, false);
      assert entries[n..][1..] == entries[n + 1..] && entries[n..][0] == entries[n];
      if Computed.Order(x, y).Ok? {
        BestIs(entries, greatest, n + 1);
      } else {
        assert Leader(entries, greatest, n + 1).None?;
        NoLeader(entries, greatest, n + 1, |entries|);
      }
    }
  }

  lemma {:induction false} NoLeader(entries: Entries, greatest: bool, n: nat, m: nat)
    requires 0 < n <= m <= |entries| && Leader(entries, greatest, n).None?
    ensures Leader(entries, greatest, m).None?
    decreases m
  {
    if n < m { NoLeader(entries, greatest, n, m - 1); }
  }

  /** Among integers, the value that leads is the greatest, or the least. */
  lemma {:induction false} LeadingInteger(entries: Entries, greatest: bool, n: nat)
    requires 0 < n <= |entries| && forall i | 0 <= i < n :: entries[i].1.Int?
    ensures var k := Leader(entries, greatest, n);
            && k.Some?
            && forall i | 0 <= i < n ::
                 if greatest then entries[i].1.i <= entries[k.value].1.i else entries[k.value].1.i <= entries[i].1.i
  {
    if n > 1 {
      LeadingInteger(entries, greatest, n - 1);
      var x, y := entries[n - 1].1, entries[Leader(entries, greatest, n - 1).value].1;
      BeyondIs(x, y, greatest, true);
      BeyondIs(x, y, greatest, false);
    }
  }

  lemma {:induction false} JoinedIs(op: BinOp, l: Data, r: Data, v: Data)
    ensures Computed.Binop(op, l, r) == Ok(v) <==> Joined(op, l, r, v)
    ensures Computed.Binop(op, l, r).Err? ==> Computed.Binop(op, l, r) == Err(Refused)
  {
    if op.FloorDiv? {
      if l.Int? && r.Int? { DivideIs(l.i, r.i, v); }
    } else if op.Union? {
      if l.Coll? && r.Coll? { UnionIs(l.entries, r.entries, v); }
    } else if op.Pow? {
      if l.Int? && r.Int? { PowerIs(l.i, r.i, v); }
    } else {
      SimplyJoined(op, l, r, v);
    }
  }

  lemma SimplyJoined(op: BinOp, l: Data, r: Data, v: Data)
    requires !op.FloorDiv? && !op.Union? && !op.Pow?
    ensures Computed.Binop(op, l, r) == Ok(v) <==> Joined(op, l, r, v)
    ensures Computed.Binop(op, l, r).Err? ==> Computed.Binop(op, l, r) == Err(Refused)
  {
    hide Collected, Computed.Collection, Computed.Tagged, Arith.IsFloor, Arith.FloorDiv, Arith.Power, Arith.PowerSpec,
        Arith.Fits;
  }

  lemma PowerIs(a: int, b: int, v: Data)
    ensures Computed.Binop(Pow, Int(a), Int(b)) == Ok(v) <==> Joined(Pow, Int(a), Int(b), v)
    ensures Computed.Binop(Pow, Int(a), Int(b)).Err? ==> Computed.Binop(Pow, Int(a), Int(b)) == Err(Refused)
  {
    hide Arith.Fits;
  }

  lemma DivideIs(a: int, b: int, v: Data)
    ensures Computed.Binop(FloorDiv, Int(a), Int(b)) == Ok(v) <==> Joined(FloorDiv, Int(a), Int(b), v)
  {
    if Arith.Fits(a) && Arith.Fits(b) {
      var q := Arith.FloorDiv(a, b);
      if b != 0 && v.Int? && Arith.Fits(v.i) && Arith.IsFloor(a, b, v.i) && q.Some? {
        Arith.FloorUnique(a, b, v.i, q.value);
      }
    }
  }

  lemma UnionIs(a: Entries, b: Entries, v: Data)
    ensures Computed.Binop(Union, Coll(a), Coll(b)) == Ok(v) <==> Joined(Union, Coll(a), Coll(b), v)
    ensures Computed.Binop(Union, Coll(a), Coll(b)).Err? ==> Computed.Binop(Union, Coll(a), Coll(b)) == Err(Refused)
  {
    hide Collected;
    var all := Computed.Tagged("0", a) + Computed.Tagged("1", b);
    CollectionIs(all, v);
    hide Computed.Collection;
    assert Computed.Binop(Union, Coll(a), Coll(b)) == Computed.Collection(all);
    if Joined(Union, Coll(a), Coll(b), v) {
      forall i | 0 <= i < |all| ensures all[i] == v.entries[i] {
        if i >= |a| { assert v.entries[|a| + (i - |a|)] == (Variant("1", b[i - |a|].0), b[i - |a|].1); }
      }
      assert all == v.entries;
    }
    if Collected(all, v) {
      CollectedAs(all, v);
      forall i | 0 <= i < |b| ensures v.entries[|a| + i] == (Variant("1", b[i].0), b[i].1) {}
    }
  }

  lemma CollectedAs(entries: Entries, v: Data)
    requires Collected(entries, v)
    ensures v == Coll(entries)
  {}

  lemma SubscriptIs(t: Data, k: Data, checked: bool, v: Data)
    ensures Computed.Subscript(t, k, checked) == Ok(v) <==> Subscripted(t, k, checked, v)
    ensures Computed.Subscript(t, k, checked).Err? ==> Computed.Subscript(t, k, checked) == Err(Refused)
  {
    hide Keyed, Unkeyed, Named, Computed.EntryAt, Computed.FieldOf, Computed.Position;
    match t
    case Coll(entries) =>
      EntryKeyed(entries, k, v);
      if v.Nominal? { EntryKeyed(entries, k, v.arg); }
      var found := Computed.EntryAt(entries, k);
      if found.Some? { EntryKeyed(entries, k, found.value); }
    case Record(fields) => if k.Int? && k.i >= 0 { FieldNamed(fields, Computed.Position(k.i), v); }
    case _ =>
  }

  lemma SumOfIs(vs: seq<Data>, v: Data)
    requires |vs| == 1 && vs[0].Coll?
    ensures Yields(SumOf, vs, v) <==> Computed.Compute(SumOf, vs) == Ok(v)
    ensures Computed.Compute(SumOf, vs).Err? ==> Computed.Compute(SumOf, vs) == Err(Refused)
  {
    var entries := vs[0].entries;
    assert entries[0..] == entries;
    if forall i | 0 <= i < |entries| :: entries[i].1.Int? {
      assert SumTo(entries, 0) == 0;
      SumIs(entries, 0, v);
      assert Computed.Compute(SumOf, vs) == Computed.Total(entries, 0);
      if Computed.Compute(SumOf, vs) == Ok(v) {
        forall n | 0 < n <= |entries| ensures Arith.Fits(SumTo(entries, n)) {}
      }
      if Yields(SumOf, vs, v) {
        forall m: nat | 0 < m <= |entries| ensures Arith.Fits(SumTo(entries, m)) {}
      }
    } else {
      var k :| 0 <= k < |entries| && !entries[k].1.Int?;
      SumRefused(entries, 0, k);
    }
  }

  lemma ExtremeIs(vs: seq<Data>, greatest: bool, v: Data)
    requires |vs| == 1 && vs[0].Coll?
    ensures Yields(Extreme(greatest), vs, v) <==> Computed.Compute(Extreme(greatest), vs) == Ok(v)
    ensures Computed.Compute(Extreme(greatest), vs).Err? ==> Computed.Compute(Extreme(greatest), vs) == Err(Refused)
  {
    if |vs[0].entries| > 0 {
      assert Leader(vs[0].entries, greatest, 1) == Some(0);
      BestIs(vs[0].entries, greatest, 1);
    }
  }

  /** The interpreter computes an operation's result, and refuses exactly where it has none. */
  lemma {:induction false} ComputeIs(op: Op, vs: seq<Data>, v: Data)
    ensures Computed.Compute(op, vs) == Ok(v) <==> Yields(op, vs, v)
    ensures Computed.Compute(op, vs).Err? ==> Computed.Compute(op, vs) == Err(Refused)
  {
    hide Joined, Computed.Binop, Subscripted, Computed.Subscript, Named, Tupled, Computed.TupleOf;
    match op
    case MkList => if Yields(op, vs, v) { assert v.entries == Computed.Enumerated(vs); }
    case MkRecord(names) =>
      if Yields(op, vs, v) { assert v.fields == seq(|vs|, i requires 0 <= i < |vs| => (names[i], vs[i])); }
    case Construct(_, _, _) => if v.Nominal? { TupleIs(vs, v.arg); }
    case Field(attr) => if |vs| == 1 && vs[0].Record? { FieldNamed(vs[0].fields, attr, v); }
    case Binary(b) => if |vs| == 2 { JoinedIs(b, vs[0], vs[1], v); }
    case Index(checked) => if |vs| == 2 { SubscriptIs(vs[0], vs[1], checked, v); }
    case SumOf =>
      if |vs| == 1 && vs[0].Coll? { SumOfIs(vs, v); }
    case Extreme(greatest) =>
      if |vs| == 1 && vs[0].Coll? { ExtremeIs(vs, greatest, v); }
    case _ =>
  }

  lemma {:induction false} ResultIs(op: Op, vs: seq<Data>)
    ensures Computed.Compute(op, vs) == match Result(op, vs) case Some(v) => Ok(v) case None => Err(Refused)
  {
    hide Computed.Compute, Yields;
    ComputeIs(op, vs, Unit);
    forall v ensures Computed.Compute(op, vs) == Ok(v) <==> Yields(op, vs, v) { ComputeIs(op, vs, v); }
    var r := Computed.Compute(op, vs);
    if r.Ok? { assert Yields(op, vs, r.value); }
  }
}
