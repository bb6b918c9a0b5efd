/** The predicate printer on operators, and what the language's grammar reads its text as. */
module Printer {
  import opened Options
  import opened Grammar

  /** Binding tightness, loosest first. */
  type Prec = p: nat | p <= 11

  const LOWEST: Prec := 0
  const OR: Prec := 1
  const AND: Prec := 2
  const NOT: Prec := 3
  const CMP: Prec := 4
  const XOR: Prec := 5
  const ADD: Prec := 6
  const MUL: Prec := 7
  const POW: Prec := 8
  const UNARY: Prec := 9
  const POSTFIX: Prec := 10
  const ATOM: Prec := 11

  function Next(p: Prec): Prec {
    if p >= POSTFIX then ATOM else p + 1
  }

  /** An operator's own level. */
  function Own(op: BinOp): Prec {
    match op
    case Or => OR
    case And => AND
    case Xor => XOR
    case Compare(_) => CMP
    case Add => ADD
    case Sub => ADD
    case Concat => ADD
    case Mul => MUL
    case FloorDiv => MUL
    case Pow => POW
  }

  /** The level its left operand is written at. */
  function LeftLevel(op: BinOp): Prec {
    if op.Compare? then Next(CMP) else if op.Pow? then POSTFIX else Own(op)
  }

  function RightLevel(op: BinOp): Prec {
    if op.Pow? then POW else Next(Own(op))
  }

  /** An operator's spelling. Concatenation is written as addition is. */
  function Spelled(op: BinOp): Token {
    match op
    case Or => OrWord
    case And => AndWord
    case Xor => Caret
    case Compare(cmp) => Token.Cmp(cmp)
    case Add => Plus
    case Concat => Plus
    case Sub => Minus
    case Mul => Star
    case FloorDiv => DoubleSlash
    case Pow => StarStar
  }

  function Level(e: Expr): Prec {
    match e
    case Lit(_) => ATOM
    case Name(_) => ATOM
    case Bin(op, _, _) => Own(op)
    case Neg(_) => UNARY
    case Not(_) => NOT
    case Ternary(_, _, _) => LOWEST
  }

  /** `e`, at least as tight as `min`. */
  function Print(e: Expr, min: Prec): seq<Token>
    decreases e, 1
  {
    if Level(e) < min then [LParen] + Inner(e) + [RParen] else Inner(e)
  }

  function Inner(e: Expr): seq<Token>
    decreases e, 0
  {
    match e
    case Lit(n) => if n < 0 then [Minus, Num(-n)] else [Num(n)]
    case Name(x) => [Word(x)]
    case Bin(op, l, r) => Print(l, LeftLevel(op)) + [Spelled(op)] + Print(r, RightLevel(op))
    case Neg(operand) => [Minus] + Print(operand, UNARY)
    case Not(operand) => [NotWord] + Print(operand, NOT)
    case Ternary(arm, guard, other) => Print(arm, OR) + [If] + Print(guard, OR) + [Else] + Print(other, LOWEST)
  }

  // ----- What a printed term reads as -----

  predicate Negative(e: Expr) {
    e.Lit? && e.n < 0
  }

  /** The term that a printed term reads as: a negative literal is a negation, a concatenation an
      addition, and the minus of a negative base is outside its power. */
  function ReadAs(e: Expr): Expr {
    match e
    case Lit(n) => if n < 0 then Neg(Lit(-n)) else e
    case Name(_) => e
    case Bin(op, l, r) =>
      if op.Pow? && Negative(l) then Neg(Bin(Pow, Lit(-l.n), ReadAs(r)))
      else Bin(if op.Concat? then Add else op, ReadAs(l), ReadAs(r))
    case Neg(operand) => Neg(ReadAs(operand))
    case Not(operand) => Not(ReadAs(operand))
    case Ternary(arm, guard, other) => Ternary(ReadAs(arm), ReadAs(guard), ReadAs(other))
  }

  /** The row of the grammar a level is read at. */
  function RowOf(p: Prec): Row {
    if p == LOWEST then TERNARY
    else if p == OR then OR_ROW
    else if p == AND then AND_ROW
    else if p == NOT then NOT_ROW
    else if p == CMP then COMPARISON
    else if p == XOR then XOR_ROW
    else if p == ADD then SUM
    else if p == MUL then PRODUCT
    else if p <= UNARY then UNARY_ROW
    else ATOM_ROW
  }

  /** A term of a row would go on past `t`. */
  predicate GoesOn(t: Token, row: Row) {
    match t
    case If => row == TERNARY
    case OrWord => row <= OR_ROW
    case AndWord => row <= AND_ROW
    case Cmp(_) => row <= COMPARISON
    case Caret => row <= XOR_ROW
    case Plus => row <= SUM
    case Minus => row <= SUM
    case Star => row <= PRODUCT
    case DoubleSlash => row <= PRODUCT
    case StarStar => row <= UNARY_ROW
    case _ => false
  }

  predicate Stops(ts: seq<Token>, row: Row) {
    ts == [] || !GoesOn(ts[0], row)
  }

  /** A term tighter than `not` does not begin with it, and an atom that is no negative literal does
      not begin with a minus. */
  lemma {:induction false} Heads(e: Expr, p: Prec)
    ensures Inner(e) != [] && Print(e, p) != []
    ensures Level(e) > NOT ==> Inner(e)[0] != NotWord
    ensures p > NOT ==> Print(e, p)[0] != NotWord
    ensures p >= POSTFIX && !Negative(e) ==> Print(e, p)[0] != Minus
  {
    if e.Bin? { Heads(e.left, LeftLevel(e.op)); }
    if e.Ternary? { Heads(e.arm, OR); }
  }

  /** A term of the next tighter row is one of this row, where nothing goes on. */
  lemma StepUp(p: Prec, ts: seq<Token>, e: Expr, rest: seq<Token>)
    requires p < ATOM && ts != [] && Read(RowOf(p + 1), ts) == Some((e, rest)) && Stops(rest, RowOf(p))
    requires (p == NOT ==> ts[0] != NotWord) && (p == UNARY ==> ts[0] != Minus)
    ensures Read(RowOf(p), ts) == Some((e, rest))
  {
  }

  lemma {:induction false} StepsUp(p: Prec, l: Prec, ts: seq<Token>, e: Expr, rest: seq<Token>)
    requires p <= l && ts != [] && Read(RowOf(l), ts) == Some((e, rest)) && Stops(rest, RowOf(p))
    requires (p <= NOT < l ==> ts[0] != NotWord) && (p <= UNARY < l ==> ts[0] != Minus)
    ensures Read(RowOf(p), ts) == Some((e, rest))
    decreases l - p
  {
    if p < l {
      StepsUp(p + 1, l, ts, e, rest);
      StepUp(p, ts, e, rest);
    }
  }

  /** At any level and before any tokens that do not go on with it. */
  lemma {:induction false} PrintReads(e: Expr, p: Prec, rest: seq<Token>)
    requires Stops(rest, RowOf(p)) && (p >= POSTFIX ==> !Negative(e))
    ensures Read(RowOf(p), Print(e, p) + rest) == Some((ReadAs(e), rest))
    decreases e, 2
  {
    hide ReadAs;
    Heads(e, p);
    if Level(e) < p {
      var ts := Print(e, p) + rest;
      assert ts[1..] == Inner(e) + ([RParen] + rest);
      InnerReads(e, LOWEST, [RParen] + rest);
      assert ([RParen] + rest)[1..] == rest;
      assert Read(ATOM_ROW, ts) == Some((ReadAs(e), rest));
      StepsUp(p, ATOM, ts, ReadAs(e), rest);
    } else {
      InnerReads(e, p, rest);
    }
  }

  lemma {:induction false} InnerReads(e: Expr, p: Prec, rest: seq<Token>)
    requires p <= Level(e) && Stops(rest, RowOf(p)) && (p >= POSTFIX ==> !Negative(e))
    ensures Read(RowOf(p), Inner(e) + rest) == Some((ReadAs(e), rest))
    decreases e, 1
  {
    hide ReadAs, Read, Stops, Inner;
    Heads(e, p);
    var l := if Negative(e) then UNARY else Level(e);
    StopsTighter(p, l, rest);
    match e {
      case Lit(n) => LiteralReads(n, rest);
      case Name(_) => NameReads(e, rest);
      case Neg(_) => PrefixReads(e, rest);
      case Not(_) => PrefixReads(e, rest);
      case Ternary(_, _, _) => TernaryReads(e, rest);
      case Bin(op, _, _) =>
        if op.Compare? {
          CompareReads(e, rest);
        } else if op.Pow? {
          PowReads(e, rest);
        } else {
          SpineReads(e, Own(op), rest);
          SpineStops(op, ReadAs(e), rest);
        }
    }
    if !Negative(e) && l > UNARY { AtomHead(e); }
    StepsUp(p, l, Inner(e) + rest, ReadAs(e), rest);
  }

  lemma StopsTighter(p: Prec, l: Prec, rest: seq<Token>)
    requires p <= l && Stops(rest, RowOf(p))
    ensures Stops(rest, RowOf(l)) && (l < ATOM ==> Stops(rest, RowOf(l + 1)))
  {}

  /** Where nothing goes on with a left-grouping row, the reader stops. */
  lemma SpineStops(op: BinOp, e: Expr, rest: seq<Token>)
    requires !op.Compare? && !op.Pow? && Stops(rest, RowOf(Own(op)))
    ensures ReadMore(RowOf(Own(op)), e, rest) == Some((e, rest))
  {
    hide Read;
  }

  lemma AtomHead(e: Expr)
    requires Level(e) > UNARY && !Negative(e)
    ensures Inner(e) != [] && Inner(e)[0] != Minus
  {}

  lemma {:induction false} NameReads(e: Expr, rest: seq<Token>)
    requires e.Name?
    ensures Read(ATOM_ROW, Inner(e) + rest) == Some((ReadAs(e), rest))
  {
    assert (Inner(e) + rest)[1..] == rest;
  }

  lemma {:induction false} LiteralReads(n: int, rest: seq<Token>)
    requires n < 0 ==> Stops(rest, UNARY_ROW)
    ensures Read(if n < 0 then UNARY_ROW else ATOM_ROW, Inner(Lit(n)) + rest) == Some((ReadAs(Lit(n)), rest))
  {
    if n < 0 { NegativeReads(n, rest); } else { assert (Inner(Lit(n)) + rest)[1..] == rest; }
  }

  lemma {:induction false} PrefixReads(e: Expr, rest: seq<Token>)
    requires (e.Neg? || e.Not?) && Stops(rest, RowOf(Level(e)))
    ensures Read(RowOf(Level(e)), Inner(e) + rest) == Some((ReadAs(e), rest))
    decreases e, 0
  {
    hide Print, Stops;
    var ts := Inner(e) + rest;
    assert ts[1..] == Print(e.operand, Level(e)) + rest;
    PrintReads(e.operand, Level(e), rest);
  }

  lemma {:induction false} NegativeReads(n: int, rest: seq<Token>)
    requires n < 0 && Stops(rest, UNARY_ROW)
    ensures Read(UNARY_ROW, [Minus, Num(-n)] + rest) == Some((Neg(Lit(-n)), rest))
  {
    var ts := [Minus, Num(-n)] + rest;
    assert ts[1..] == [Num(-n)] + rest && ([Num(-n)] + rest)[1..] == rest;
    assert Read(ATOM_ROW, ts[1..]) == Some((Lit(-n), rest));
    assert Read(UNARY_ROW, ts[1..]) == Some((Lit(-n), rest));
  }

  lemma {:induction false} TernaryReads(e: Expr, rest: seq<Token>)
    requires e.Ternary? && Stops(rest, TERNARY)
    ensures Read(TERNARY, Inner(e) + rest) == Some((ReadAs(e), rest))
    decreases e, 0
  {
    hide Print;
    var last := Print(e.other, LOWEST) + rest;
    var middle := Print(e.guard, OR) + ([Else] + last);
    assert Inner(e) + rest == Print(e.arm, OR) + ([If] + middle);
    PrintReads(e.arm, OR, [If] + middle);
    assert ([If] + middle)[1..] == middle && ([Else] + last)[1..] == last;
    PrintReads(e.guard, OR, [Else] + last);
    PrintReads(e.other, LOWEST, rest);
  }

  lemma {:induction false} CompareReads(e: Expr, rest: seq<Token>)
    requires e.Bin? && e.op.Compare? && Stops(rest, COMPARISON)
    ensures Read(COMPARISON, Inner(e) + rest) == Some((ReadAs(e), rest))
    decreases e, 0
  {
    var sign := Token.Cmp(e.op.cmp);
    var after := Print(e.right, XOR) + rest;
    assert Inner(e) + rest == Print(e.left, XOR) + ([sign] + after);
    assert ([sign] + after)[1..] == after;
    PrintReads(e.left, XOR, [sign] + after);
    PrintReads(e.right, XOR, rest);
  }

  /** `**` groups to the right, and takes a base without the minus before it. */
  lemma {:induction false} PowReads(e: Expr, rest: seq<Token>)
    requires e.Bin? && e.op.Pow? && Stops(rest, UNARY_ROW)
    ensures Read(UNARY_ROW, Inner(e) + rest) == Some((ReadAs(e), rest))
    decreases e, 0
  {
    hide Print;
    var after := Print(e.right, POW) + rest;
    PrintReads(e.right, POW, rest);
    assert Inner(e) + rest == Print(e.left, POSTFIX) + ([StarStar] + after);
    if Negative(e.left) {
      assert Print(e.left, POSTFIX) == [Minus, Num(-e.left.n)] by { NegativePrinted(e.left); }
      var ts := Inner(e) + rest;
      assert ts[1..] == [Num(-e.left.n)] + ([StarStar] + after);
      PowerReads([Num(-e.left.n)] + ([StarStar] + after), Lit(-e.left.n), after, ReadAs(e.right), rest);
    } else {
      Heads(e.left, POSTFIX);
      PrintReads(e.left, POSTFIX, [StarStar] + after);
      PowerReads(Inner(e) + rest, ReadAs(e.left), after, ReadAs(e.right), rest);
    }
  }

  lemma {:induction false} NegativePrinted(e: Expr)
    requires Negative(e)
    ensures Print(e, POSTFIX) == [Minus, Num(-e.n)]
  {}

  lemma {:induction false} PowerReads(ts: seq<Token>, base: Expr, after: seq<Token>, exponent: Expr, rest: seq<Token>)
    requires ts != [] && ts[0] != Minus && Read(ATOM_ROW, ts) == Some((base, [StarStar] + after))
    requires Read(UNARY_ROW, after) == Some((exponent, rest))
    ensures Read(UNARY_ROW, ts) == Some((Bin(Pow, base, exponent), rest))
  {
    assert ([StarStar] + after)[1..] == after;
  }

  /** After a term written at a left-grouping level, the reader holds the term and goes on. */
  lemma {:induction false} SpineReads(e: Expr, p: Prec, rest: seq<Token>)
    requires p <= MUL && Leftward(RowOf(p)) && Stops(rest, RowOf(p + 1))
    ensures Read(RowOf(p), Print(e, p) + rest) == ReadMore(RowOf(p), ReadAs(e), rest)
    decreases e, if Level(e) == p then 0 else 3
  {
    hide Print, Read;
    if Level(e) == p {
      var after := Print(e.right, p + 1) + rest;
      BinPrinted(e, p, rest);
      SpineReads(e.left, p, [Spelled(e.op)] + after);
      PrintReads(e.right, p + 1, rest);
      MoreReads(e, p, after, rest);
    } else {
      AtNext(e, p);
      PrintReads(e, p + 1, rest);
      FirstReads(p, Print(e, p) + rest, ReadAs(e), rest);
    }
  }

  lemma BinPrinted(e: Expr, p: Prec, rest: seq<Token>)
    requires e.Bin? && Own(e.op) == p && p <= MUL && Leftward(RowOf(p))
    ensures Print(e, p) + rest == Print(e.left, p) + ([Spelled(e.op)] + (Print(e.right, p + 1) + rest))
  {
  }

  lemma MoreReads(e: Expr, p: Prec, after: seq<Token>, rest: seq<Token>)
    requires e.Bin? && Own(e.op) == p && p <= MUL && Leftward(RowOf(p))
    requires Read(RowOf(p + 1), after) == Some((ReadAs(e.right), rest))
    ensures ReadMore(RowOf(p), ReadAs(e.left), [Spelled(e.op)] + after) == ReadMore(RowOf(p), ReadAs(e), rest)
  {
    hide Read;
    assert ([Spelled(e.op)] + after)[1..] == after;
    assert Joins(RowOf(p), Spelled(e.op)) == Some(if e.op.Concat? then Add else e.op);
    assert Operand(RowOf(p)) == RowOf(p + 1);
  }

  lemma AtNext(e: Expr, p: Prec)
    requires Level(e) != p < ATOM
    ensures Print(e, p) == Print(e, p + 1)
  {
  }

  lemma FirstReads(p: Prec, ts: seq<Token>, e: Expr, rest: seq<Token>)
    requires p <= MUL && Leftward(RowOf(p)) && Read(RowOf(p + 1), ts) == Some((e, rest))
    ensures Read(RowOf(p), ts) == ReadMore(RowOf(p), e, rest)
  {
  }

  // ----- The round trip -----

  /** Every printed term is a text of the grammar, and this is what it reads as. */
  lemma PrintedReads(e: Expr)
    ensures ReadAll(Print(e, LOWEST)) == Some(ReadAs(e))
  {
    assert Print(e, LOWEST) + [] == Print(e, LOWEST);
    PrintReads(e, LOWEST, []);
  }

  /** No negative literal, which is written as a negation, and no concatenation, which is written as
      an addition. */
  predicate Readable(e: Expr) {
    match e
    case Lit(n) => n >= 0
    case Name(_) => true
    case Bin(op, l, r) => !op.Concat? && Readable(l) && Readable(r)
    case Neg(operand) => Readable(operand)
    case Not(operand) => Readable(operand)
    case Ternary(arm, guard, other) => Readable(arm) && Readable(guard) && Readable(other)
  }

  lemma {:induction false} ReadAsItself(e: Expr)
    ensures ReadAs(e) == e <==> Readable(e)
  {
    match e
    case Lit(_) =>
    case Name(_) =>
    case Bin(_, l, r) =>
      ReadAsItself(l);
      ReadAsItself(r);
    case Neg(operand) => ReadAsItself(operand);
    case Not(operand) => ReadAsItself(operand);
    case Ternary(arm, guard, other) =>
      ReadAsItself(arm);
      ReadAsItself(guard);
      ReadAsItself(other);
  }

  /** A printed term reads back as itself exactly when it has no negative literal and no
      concatenation. */
  lemma RoundTrip(e: Expr)
    ensures ReadAll(Print(e, LOWEST)) == Some(e) <==> Readable(e)
  {
    PrintedReads(e);
    ReadAsItself(e);
  }

  /** The term up to spelling: its negative literals as negations, its concatenations as additions. */
  function Respelled(e: Expr): Expr {
    match e
    case Lit(n) => if n < 0 then Neg(Lit(-n)) else e
    case Name(_) => e
    case Bin(op, l, r) => Bin(if op.Concat? then Add else op, Respelled(l), Respelled(r))
    case Neg(operand) => Neg(Respelled(operand))
    case Not(operand) => Not(Respelled(operand))
    case Ternary(arm, guard, other) => Ternary(Respelled(arm), Respelled(guard), Respelled(other))
  }

  /** No power has a negative literal as its base. */
  predicate BasesHold(e: Expr) {
    match e
    case Lit(_) => true
    case Name(_) => true
    case Bin(op, l, r) => !(op.Pow? && Negative(l)) && BasesHold(l) && BasesHold(r)
    case Neg(operand) => BasesHold(operand)
    case Not(operand) => BasesHold(operand)
    case Ternary(arm, guard, other) => BasesHold(arm) && BasesHold(guard) && BasesHold(other)
  }

  lemma {:induction false} ReadAsRespelled(e: Expr)
    ensures ReadAs(e) == Respelled(e) <==> BasesHold(e)
  {
    match e
    case Lit(_) =>
    case Name(_) =>
    case Bin(_, l, r) =>
      ReadAsRespelled(l);
      ReadAsRespelled(r);
    case Neg(operand) => ReadAsRespelled(operand);
    case Not(operand) => ReadAsRespelled(operand);
    case Ternary(arm, guard, other) =>
      ReadAsRespelled(arm);
      ReadAsRespelled(guard);
      ReadAsRespelled(other);
  }

  /** A printed term reads back as itself up to spelling exactly when no `**` has a negative literal
      as its base: the printer takes such a literal for an atom. */
  lemma MeaningKept(e: Expr)
    ensures ReadAll(Print(e, LOWEST)) == Some(Respelled(e)) <==> BasesHold(e)
  {
    PrintedReads(e);
    ReadAsRespelled(e);
  }

  /** `(-2) ** 2` is printed as `-2 ** 2`, which is `-(2 ** 2)`. */
  lemma NegativeBase()
    ensures Print(Bin(Pow, Lit(-2), Lit(2)), LOWEST) == [Minus, Num(2), StarStar, Num(2)]
    ensures ReadAll([Minus, Num(2), StarStar, Num(2)]) == Some(Neg(Bin(Pow, Lit(2), Lit(2))))
  {
    var e := Bin(Pow, Lit(-2), Lit(2));
    assert Print(Lit(-2), POSTFIX) == [Minus, Num(2)] && Print(Lit(2), POW) == [Num(2)];
    assert Print(e, LOWEST) == [Minus, Num(2), StarStar, Num(2)];
    PrintedReads(e);
    assert ReadAs(e) == Neg(Bin(Pow, Lit(2), Lit(2)));
  }
}
