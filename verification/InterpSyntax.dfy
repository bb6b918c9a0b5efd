/** The values and the statement language of the reference interpreter.

    A value is either decided (`Known`) or `Pending`: it depends on a channel whose contents an
    earlier pass did not complete. Pending absorbs, so no decided value holds a pending one; the
    split into `Data` and `Value` states that in the types. */
module InterpSyntax {
  import opened Options

  datatype Data =
    | Int(i: int)
    | Str(s: string)
    | Bool(b: bool)
    | Unit
    | CommitTime(t: int)
    | Record(fields: seq<(string, Data)>)
    | Variant(tag: string, payload: Data)
    | Nominal(ty: string, ctor: string, arg: Data)
    | Coll(entries: seq<(Data, Data)>)

  datatype Value = Known(d: Data) | Pending

  /** Why a run failed, by the guard that refused: a failure that left a speculative construct,
      whose code may not run at all; a `<<=` to a channel whose only feed sites joined it when a call
      reached them; or any other. */
  datatype Error = Refused | FedAndDefined | Escaped

  datatype Res<+T> = Ok(value: T) | Err(error: Error)

  datatype BinOp = Add | Sub | Mul | FloorDiv | Pow | And | Or | Xor | Union

  datatype CmpOp = Eq | NotEq | Lt | LtE | Gt | GtE

  /** An operation that evaluates its operands in order and then computes from their values:
      literals of collections, field reads, constructors, operators, subscripts, aggregates. */
  datatype Op =
    | MkList
    | MkRecord(names: seq<string>)
    | Field(attr: string)
    | Tag(tag: string)
    | Construct(ty: string, ctor: string, arity: nat)
    | Neg
    | Not
    | Binary(op: BinOp)
    | Index(checked: bool)
    | SumOf
    | Extreme(greatest: bool)

  datatype Lit = LitInt(i: int) | LitStr(s: string) | LitBool(b: bool)

  datatype Param = Param(name: string, byRef: bool)

  datatype Expr =
    | Literal(lit: Lit)
    | Name(x: string)
    | Strict(op: Op, args: Exprs)
    | Compare(first: Expr, rest: Comparisons)
    | BoolOp(conj: bool, operands: Exprs)
    | IfExp(cond: Expr, thn: Expr, els: Expr)
    | Block(stmt: Stmt)
    | Call(f: string, args: Exprs, at: nat)
    | ListComp(comp: Comp)
    | Lambda(params: seq<string>, body: Expr)
    | AwaitFinal(x: string)

  datatype Exprs = NoExprs | MoreExprs(head: Expr, tail: Exprs)

  datatype Comparisons = NoCmp | MoreCmp(op: CmpOp, right: Expr, tail: Comparisons)

  /** A comprehension's clauses, ending in its element. */
  datatype Comp =
    | Element(e: Expr)
    | Guard(cond: Expr, rest: Comp)
    | Generator(x: string, iter: Expr, rest: Comp)

  datatype Pattern =
    | Wildcard
    | TagPattern(tag: string, binder: Option<string>)
    | CtorPattern(ty: string, ctor: string, binders: seq<Option<string>>)

  datatype Arms = NoArms | Arm(pattern: Pattern, body: Stmts, rest: Arms)

  datatype Branches = NoElse | Else(body: Stmts) | Branch(cond: Expr, body: Stmts, rest: Branches)

  datatype Stmt =
    | Assign(x: string, e: Expr)
    | MutAssign(x: string, txn: bool, e: Expr)
    | KeyedAssign(x: string, index: Expr, e: Expr)
    | AugAssign(x: string, op: BinOp, e: Expr)
    | Define(x: string, e: Expr)
    | Feed(x: string, e: Expr, at: nat)
    | If(branches: Branches)
    | Match(scrutinee: Expr, arms: Arms)
    | For(x: string, iter: Expr, body: Stmts)
    | With(body: Stmts, site: nat)
    | FunctionDef(x: string, params: seq<Param>, body: Stmts)
    | Return(e: Expr)
    | ReturnUnit
    | ExprStmt(e: Expr)
    | Pass

  datatype Stmts = NoStmts | MoreStmts(head: Stmt, tail: Stmts)

  function Length(es: Exprs): nat {
    if es.NoExprs? then 0 else 1 + Length(es.tail)
  }

  predicate HasElse(bs: Branches) {
    match bs
    case NoElse => false
    case Else(_) => true
    case Branch(_, _, rest) => HasElse(rest)
  }

  // ----- The variables a block writes where it runs (`written_names`) -----
  //
  // The walk enters the bodies of `if`, `match`, `for` and `with` and every block in expression
  // position; it enters no lambda and no `def`, whose statements run where they are called.

  function WrittenIn(ss: Stmts): set<string> {
    match ss
    case NoStmts => {}
    case MoreStmts(s, rest) => WrittenBy(s) + WrittenIn(rest)
  }

  function WrittenBy(s: Stmt): set<string> {
    match s
    case MutAssign(x, _, e) => {x} + WrittenInExpr(e)
    case KeyedAssign(x, _, e) => {x} + WrittenInExpr(e)
    case AugAssign(x, _, e) => {x} + WrittenInExpr(e)
    case If(bs) => WrittenInBranches(bs)
    case Match(e, arms) => WrittenInExpr(e) + WrittenInArms(arms)
    case For(_, e, body) => WrittenInExpr(e) + WrittenIn(body)
    case With(body, _) => WrittenIn(body)
    case Assign(_, e) => WrittenInExpr(e)
    case Define(_, e) => WrittenInExpr(e)
    case Feed(_, e, _) => WrittenInExpr(e)
    case Return(e) => WrittenInExpr(e)
    case ExprStmt(e) => WrittenInExpr(e)
    case FunctionDef(_, _, _) => {}
    case ReturnUnit => {}
    case Pass => {}
  }

  function WrittenInBranches(bs: Branches): set<string> {
    match bs
    case NoElse => {}
    case Else(body) => WrittenIn(body)
    case Branch(c, body, rest) => WrittenInExpr(c) + WrittenIn(body) + WrittenInBranches(rest)
  }

  function WrittenInArms(arms: Arms): set<string> {
    match arms
    case NoArms => {}
    case Arm(_, body, rest) => WrittenIn(body) + WrittenInArms(rest)
  }

  function WrittenInExpr(e: Expr): set<string> {
    match e
    case Literal(_) => {}
    case Name(_) => {}
    case Strict(_, args) => WrittenInExprs(args)
    case Compare(l, rest) => WrittenInExpr(l) + WrittenInComparisons(rest)
    case BoolOp(_, es) => WrittenInExprs(es)
    case IfExp(c, t, f) => WrittenInExpr(c) + WrittenInExpr(t) + WrittenInExpr(f)
    case Block(s) => WrittenBy(s)
    case Call(_, args, _) => WrittenInExprs(args)
    case ListComp(c) => WrittenInComp(c)
    case Lambda(_, _) => {}
    case AwaitFinal(_) => {}
  }

  function WrittenInExprs(es: Exprs): set<string> {
    match es
    case NoExprs => {}
    case MoreExprs(e, rest) => WrittenInExpr(e) + WrittenInExprs(rest)
  }

  function WrittenInComparisons(cs: Comparisons): set<string> {
    match cs
    case NoCmp => {}
    case MoreCmp(_, e, rest) => WrittenInExpr(e) + WrittenInComparisons(rest)
  }

  function WrittenInComp(c: Comp): set<string> {
    match c
    case Element(e) => WrittenInExpr(e)
    case Guard(g, rest) => WrittenInExpr(g) + WrittenInComp(rest)
    case Generator(_, e, rest) => WrittenInExpr(e) + WrittenInComp(rest)
  }
}
