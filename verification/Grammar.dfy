/** The operators of the language as its parser reads them: the rows of section 2.3 of the language
    specification, "Expression precedence", that predicates use. Nothing here knows how a term is
    printed. */
module Grammar {
  import opened Options

  datatype BinOp = Or | And | Xor | Compare(cmp: Cmp) | Add | Sub | Concat | Mul | FloorDiv | Pow

  datatype Cmp = Eq | Ne | Lt | Le | Gt | Ge

  datatype Expr =
    | Lit(n: int)
    | Name(x: string)
    | Bin(op: BinOp, left: Expr, right: Expr)
    | Neg(operand: Expr)
    | Not(operand: Expr)
    | Ternary(arm: Expr, guard: Expr, other: Expr)

  datatype Token =
    | Num(n: nat)
    | Word(x: string)
    | OrWord
    | AndWord
    | NotWord
    | Cmp(cmp: Cmp)
    | Caret
    | Plus
    | Minus
    | Star
    | DoubleSlash
    | StarStar
    | If
    | Else
    | LParen
    | RParen

  /** The specification's rows, loosest first. Unary minus, row 16, and `**`, row 17, are one layer:
      `**` binds tighter than the minus on its left and looser than the one on its right. */
  newtype Row = r: int | r == 5 || r == 6 || r == 7 || r == 8 || r == 9 || r == 11 || r == 14 || r == 15 || r == 16
                         || r == 19 witness 5

  const TERNARY: Row := 5
  const OR_ROW: Row := 6
  const AND_ROW: Row := 7
  const NOT_ROW: Row := 8
  const COMPARISON: Row := 9
  const XOR_ROW: Row := 11
  const SUM: Row := 14
  const PRODUCT: Row := 15
  const UNARY_ROW: Row := 16
  const ATOM_ROW: Row := 19

  /** The rows whose operators group to the left. */
  predicate Leftward(row: Row) {
    row == OR_ROW || row == AND_ROW || row == XOR_ROW || row == SUM || row == PRODUCT
  }

  /** The row the operands of a left-grouping row are. */
  function Operand(row: Row): Row
    requires Leftward(row)
  {
    if row == OR_ROW then AND_ROW
    else if row == AND_ROW then NOT_ROW
    else if row == XOR_ROW then SUM
    else if row == SUM then PRODUCT
    else UNARY_ROW
  }

  /** The operator a token is between two operands of a left-grouping row. */
  function Joins(row: Row, t: Token): Option<BinOp> {
    if row == OR_ROW && t == OrWord then Some(Or)
    else if row == AND_ROW && t == AndWord then Some(And)
    else if row == XOR_ROW && t == Caret then Some(Xor)
    else if row == SUM && t == Plus then Some(Add)
    else if row == SUM && t == Minus then Some(Sub)
    else if row == PRODUCT && t == Star then Some(Mul)
    else if row == PRODUCT && t == DoubleSlash then Some(FloorDiv)
    else None
  }

  /** A term of a row, and the tokens after it. */
  function Read(row: Row, ts: seq<Token>): (r: Option<(Expr, seq<Token>)>)
    ensures r.Some? ==> |r.value.1| < |ts|
    decreases |ts|, 20 - row as int
  {
    if Leftward(row) then
      var (first, rest) :- Read(Operand(row), ts);
      ReadMore(row, first, rest)
    else if row == TERNARY then ReadTernary(ts)
    else if row == NOT_ROW then
      if ts != [] && ts[0] == NotWord then
        var (operand, rest) :- Read(NOT_ROW, ts[1..]);
        Some((Not(operand), rest))
      else Read(COMPARISON, ts)
    else if row == COMPARISON then ReadComparison(ts)
    else if row == UNARY_ROW then ReadUnary(ts)
    else ReadAtom(ts)
  }

  /** `or` and `and` are read as one operation of several operands, which the left-grouping term
      stands for. */
  function ReadMore(row: Row, first: Expr, ts: seq<Token>): (r: Option<(Expr, seq<Token>)>)
    requires Leftward(row)
    ensures r.Some? ==> |r.value.1| <= |ts|
    decreases |ts|, 0
  {
    var op := if ts == [] then None else Joins(row, ts[0]);
    if op.None? then Some((first, ts))
    else
      var (operand, rest) :- Read(Operand(row), ts[1..]);
      ReadMore(row, Bin(op.value, first, operand), rest)
  }

  function ReadTernary(ts: seq<Token>): (r: Option<(Expr, seq<Token>)>)
    ensures r.Some? ==> |r.value.1| < |ts|
    decreases |ts|, 15, 0
  {
    var (arm, rest) :- Read(OR_ROW, ts);
    if rest == [] || rest[0] != If then Some((arm, rest))
    else
      var (guard, rest') :- Read(OR_ROW, rest[1..]);
      if rest' == [] || rest'[0] != Else then None
      else
        var (other, rest'') :- Read(TERNARY, rest'[1..]);
        Some((Ternary(arm, guard, other), rest''))
  }

  /** A comparison. A chain of several is no term here. */
  function ReadComparison(ts: seq<Token>): (r: Option<(Expr, seq<Token>)>)
    ensures r.Some? ==> |r.value.1| < |ts|
    decreases |ts|, 11, 0
  {
    var (left, rest) :- Read(XOR_ROW, ts);
    if rest == [] || !rest[0].Cmp? then Some((left, rest))
    else
      var (right, rest') :- Read(XOR_ROW, rest[1..]);
      if rest' != [] && rest'[0].Cmp? then None else Some((Bin(Compare(rest[0].cmp), left, right), rest'))
  }

  /** `-` before the whole layer, or a base with the whole layer as its exponent. */
  function ReadUnary(ts: seq<Token>): (r: Option<(Expr, seq<Token>)>)
    ensures r.Some? ==> |r.value.1| < |ts|
    decreases |ts|, 4, 0
  {
    if ts != [] && ts[0] == Minus then
      var (operand, rest) :- Read(UNARY_ROW, ts[1..]);
      Some((Neg(operand), rest))
    else
      var (base, rest) :- Read(ATOM_ROW, ts);
      if rest == [] || rest[0] != StarStar then Some((base, rest))
      else
        var (exponent, rest') :- Read(UNARY_ROW, rest[1..]);
        Some((Bin(Pow, base, exponent), rest'))
  }

  function ReadAtom(ts: seq<Token>): (r: Option<(Expr, seq<Token>)>)
    ensures r.Some? ==> |r.value.1| < |ts|
    decreases |ts|, 0
  {
    if ts == [] then None
    else if ts[0].Num? then Some((Lit(ts[0].n), ts[1..]))
    else if ts[0].Word? then Some((Name(ts[0].x), ts[1..]))
    else if ts[0] == LParen then
      var (e, rest) :- Read(TERNARY, ts[1..]);
      if rest == [] || rest[0] != RParen then None else Some((e, rest[1..]))
    else None
  }

  /** A whole text. */
  function ReadAll(ts: seq<Token>): Option<Expr> {
    var (e, rest) :- Read(TERNARY, ts);
    if rest == [] then Some(e) else None
  }
}
