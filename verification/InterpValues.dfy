/** The operations on decided values: what a strict operation computes once its operands are. */
module InterpValues {
  import opened Options
  import opened InterpSyntax
  import IntArith
  import ValueEquality

  function Checked(c: Option<int>): Res<Data> {
    if c.Some? then Ok(Int(c.value)) else Err(Refused)
  }

  /** A sum, difference or product, refused outside 64 bits. */
  function InRange(x: int): Res<Data> {
    if IntArith.Fits(x) then Ok(Int(x)) else Err(Refused)
  }

  /** The label of a tuple's `i`th component. */
  function Position(i: nat): string {
    "_" + ValueEquality.Digits(i)
  }

  /** Unit for no part, the part itself for one, and the tuple of several. */
  function TupleOf(parts: seq<Data>): Data {
    if |parts| == 0 then Unit
    else if |parts| == 1 then parts[0]
    else Record(seq(|parts|, i requires 0 <= i < |parts| => (Position(i), parts[i])))
  }

  function FieldOf(fields: seq<(string, Data)>, name: string): Res<Data> {
    if |fields| == 0 then Err(Refused)
    else if fields[0].0 == name then Ok(fields[0].1)
    else FieldOf(fields[1..], name)
  }

  function EntryAt(entries: seq<(Data, Data)>, key: Data): Option<Data> {
    if |entries| == 0 then None
    else if ValueEquality.Equal(entries[0].0, key) then Some(entries[0].1)
    else EntryAt(entries[1..], key)
  }

  /** The keys of the entries, in the canonical order. */
  function SortedKeys(entries: seq<(Data, Data)>): seq<(Data, Data)> {
    ValueEquality.Sorted(seq(|entries|, i requires 0 <= i < |entries| => (entries[i].0, Unit)))
  }

  /** Two neighbours share a key. */
  predicate Repeats(sorted: seq<(Data, Data)>) {
    exists i | 0 <= i < |sorted| - 1 :: ValueEquality.Equal(sorted[i].0, sorted[i + 1].0)
  }

  /** A collection of the given entries, refused when two keys that sort next to each other are
      equal. */
  function Collection(entries: seq<(Data, Data)>): Res<Data> {
    if Repeats(SortedKeys(entries)) then Err(Refused) else Ok(Coll(entries))
  }

  /** The entries with `key` bound to `v`: in place where it is present, at the end otherwise. */
  function WithEntry(entries: seq<(Data, Data)>, key: Data, v: Data): seq<(Data, Data)> {
    if |entries| == 0 then [(key, v)]
    else if ValueEquality.Equal(entries[0].0, key) then [(entries[0].0, v)] + entries[1..]
    else [entries[0]] + WithEntry(entries[1..], key, v)
  }

  function Tagged(tag: string, entries: seq<(Data, Data)>): seq<(Data, Data)> {
    seq(|entries|, i requires 0 <= i < |entries| => (Variant(tag, entries[i].0), entries[i].1))
  }

  function Binop(op: BinOp, l: Data, r: Data): Res<Data> {
    match (op, l, r)
    case (Add, Int(a), Int(b)) => InRange(a + b)
    case (Add, Str(a), Str(b)) => Ok(Str(a + b))
    case (Sub, Int(a), Int(b)) => InRange(a - b)
    case (Mul, Int(a), Int(b)) => InRange(a * b)
    case (FloorDiv, Int(a), Int(b)) =>
      if IntArith.Fits(a) && IntArith.Fits(b) then Checked(IntArith.FloorDiv(a, b)) else Err(Refused)
    case (Pow, Int(a), Int(b)) => Checked(IntArith.PowerSpec(a, b))
    case (And, Bool(a), Bool(b)) => Ok(Bool(a && b))
    case (Or, Bool(a), Bool(b)) => Ok(Bool(a || b))
    case (Xor, Bool(a), Bool(b)) => Ok(Bool(a != b))
    case (Union, Coll(a), Coll(b)) => Collection(Tagged("0", a) + Tagged("1", b))
    case _ => Err(Refused)
  }

  /** The order of two values: a base's own, a tuple's by position, a nominal value's by its
      constructor's argument. */
  function Order(l: Data, r: Data): Res<int>
    decreases l, 1
  {
    match (l, r)
    case (Int(a), Int(b)) => Ok(if a < b then -1 else if a == b then 0 else 1)
    case (Str(a), Str(b)) => Ok(ValueEquality.CompareText(a, b))
    case (Bool(a), Bool(b)) => Ok(if a == b then 0 else if b then -1 else 1)
    case (Record(a), Record(b)) => OrderFields(l, b, 0)
    case (Nominal(t1, c1, a), Nominal(t2, c2, b)) =>
      if t1 == t2 && c1 == c2 then Order(a, b) else Err(Refused)
    case _ => Err(Refused)
  }

  function OrderFields(l: Data, b: seq<(string, Data)>, i: nat): Res<int>
    requires l.Record? && i <= |l.fields|
    decreases l, 0, |l.fields| - i
  {
    if i == |l.fields| then Ok(0)
    else
      var x, y := FieldAt(l, i), FieldOf(b, Position(i));
      if x.Err? then Err(x.error) else if y.Err? then Err(y.error) else
      match Order(x.value, y.value)
      case Ok(0) => OrderFields(l, b, i + 1)
      case other => other
  }

  /** Component `i` of the record `l`. */
  function FieldAt(l: Data, i: nat): (r: Res<Data>)
    requires l.Record?
    ensures r.Ok? ==> r.value < l
  {
    FieldIsInside(l.fields, Position(i));
    FieldOf(l.fields, Position(i))
  }

  lemma {:induction false} FieldIsInside(fields: seq<(string, Data)>, name: string)
    ensures var r := FieldOf(fields, name); r.Ok? ==> exists k | 0 <= k < |fields| :: fields[k].1 == r.value
  {
    if |fields| > 0 && fields[0].0 != name {
      FieldIsInside(fields[1..], name);
      var r := FieldOf(fields[1..], name);
      if r.Ok? {
        var k :| 0 <= k < |fields[1..]| && fields[1..][k].1 == r.value;
        assert fields[k + 1].1 == r.value;
      }
    }
  }

  function Comparison(op: CmpOp, l: Data, r: Data): Res<bool> {
    if op.Eq? then Ok(ValueEquality.Equal(l, r))
    else if op.NotEq? then Ok(!ValueEquality.Equal(l, r))
    else
      var o := Order(l, r);
      if o.Err? then Err(o.error) else Ok(Holds(op, o.value))
  }

  /** Whether operands in order `o` satisfy the ordering `op`. */
  predicate Holds(op: CmpOp, o: int) {
    (o < 0 && (op.Lt? || op.LtE?)) || (o == 0 && (op.LtE? || op.GtE?)) || (o > 0 && (op.Gt? || op.GtE?))
  }

  function Total(entries: seq<(Data, Data)>, acc: int): Res<Data> {
    if |entries| == 0 then Ok(Int(acc))
    else if !entries[0].1.Int? then Err(Refused)
    else
      var next := InRange(acc + entries[0].1.i);
      if next.Err? then next else Total(entries[1..], acc + entries[0].1.i)
  }

  /** The greatest of `best` and the entries' values, or the least. */
  function Best(entries: seq<(Data, Data)>, greatest: bool, best: Data): Res<Data> {
    if |entries| == 0 then Ok(best)
    else
      var o := Order(entries[0].1, best);
      if o.Err? then Err(o.error)
      else if (if greatest then o.value > 0 else o.value < 0) then Best(entries[1..], greatest, entries[0].1)
      else Best(entries[1..], greatest, best)
  }

  function Optional(v: Option<Data>): Data {
    if v.Some? then Nominal("Option", "some", v.value) else Nominal("Option", "none", Unit)
  }

  /** A list's entries: keys `0..n` in order. */
  function Enumerated(vs: seq<Data>): seq<(Data, Data)> {
    seq(|vs|, i requires 0 <= i < |vs| => (Int(i), vs[i]))
  }

  /** What `op` computes from its operands' values. */
  function Compute(op: Op, vs: seq<Data>): Res<Data> {
    match op
    case MkList => Ok(Coll(Enumerated(vs)))
    case MkRecord(names) =>
      if |names| != |vs| then Err(Refused)
      else Ok(Record(seq(|vs|, i requires 0 <= i < |vs| => (names[i], vs[i]))))
    case Tag(tag) =>
      if |vs| == 0 then Ok(Variant(tag, Unit))
      else if |vs| == 1 then Ok(Variant(tag, vs[0]))
      else Err(Refused)
    case Construct(ty, ctor, arity) =>
      if |vs| != arity then Err(Refused) else Ok(Nominal(ty, ctor, TupleOf(vs)))
    case Field(attr) =>
      if |vs| == 1 && vs[0].Record? then FieldOf(vs[0].fields, attr) else Err(Refused)
    case Neg => if |vs| == 1 && vs[0].Int? then InRange(-vs[0].i) else Err(Refused)
    case Not => if |vs| == 1 && vs[0].Bool? then Ok(Bool(!vs[0].b)) else Err(Refused)
    case Binary(b) => if |vs| == 2 then Binop(b, vs[0], vs[1]) else Err(Refused)
    case Index(checked) => if |vs| == 2 then Subscript(vs[0], vs[1], checked) else Err(Refused)
    case SumOf => if |vs| == 1 && vs[0].Coll? then Total(vs[0].entries, 0) else Err(Refused)
    case Extreme(greatest) =>
      if |vs| == 1 && vs[0].Coll? && |vs[0].entries| > 0
      then Best(vs[0].entries[1..], greatest, vs[0].entries[0].1)
      else Err(Refused)
  }

  function Subscript(t: Data, k: Data, checked: bool): Res<Data> {
    match t
    case Coll(entries) =>
      var found := EntryAt(entries, k);
      if checked then Ok(Optional(found))
      else if found.Some? then Ok(found.value) else Err(Refused)
    case Record(fields) =>
      if !checked && k.Int? && k.i >= 0 then FieldOf(fields, Position(k.i)) else Err(Refused)
    case _ => Err(Refused)
  }

  // ----- Pending operands -----

  predicate AnyPending(vs: seq<Value>) {
    exists i | 0 <= i < |vs| :: vs[i].Pending?
  }

  function Decided(vs: seq<Value>): seq<Data>
    requires !AnyPending(vs)
  {
    seq(|vs|, i requires 0 <= i < |vs| => vs[i].d)
  }

  /** Pending absorbs: an operation on a pending operand is pending. */
  function Apply(op: Op, vs: seq<Value>): Res<Value> {
    if AnyPending(vs) then Ok(Pending)
    else
      var r := Compute(op, Decided(vs));
      if r.Ok? then Ok(Known(r.value)) else Err(r.error)
  }

  /** The key of a contribution under these loop keys. */
  function TupleKey(keys: seq<Value>): Value {
    if AnyPending(keys) then Pending else Known(TupleOf(Decided(keys)))
  }
}
