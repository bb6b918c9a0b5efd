/** A condition on the program text under which one speculative run of a loop's body covers its
    later turns: what the body decides by, it does not write.

    The parts of a program are the bodies of its loops, the clauses of its comprehensions, its
    functions, and its `Txn` variables. */
module InterpCalm {
  import opened Options
  import opened InterpSyntax
  import opened InterpEval

  datatype Part =
    | LoopBody(body: Stmts)
    | ClauseBody(rest: Comp)
    | FunctionBody(params: seq<Param>, body: Stmts)
    | TxnVariable(x: string)

  // ----- The parts of a text -----

  function PartsIn(ss: Stmts): set<Part> {
    match ss
    case NoStmts => {}
    case MoreStmts(s, rest) => PartsOf(s) + PartsIn(rest)
  }

  function PartsOf(s: Stmt): set<Part> {
    match s
    case Assign(_, e) => PartsInExpr(e)
    case MutAssign(x, txn, e) => (if txn then {TxnVariable(x)} else {}) + PartsInExpr(e)
    case KeyedAssign(_, index, e) => PartsInExpr(index) + PartsInExpr(e)
    case AugAssign(_, _, e) => PartsInExpr(e)
    case Define(_, e) => PartsInExpr(e)
    case Feed(_, e, _) => PartsInExpr(e)
    case If(bs) => PartsInBranches(bs)
    case Match(e, arms) => PartsInExpr(e) + PartsInArms(arms)
    case For(_, iter, body) => {LoopBody(body)} + PartsInExpr(iter) + PartsIn(body)
    case With(body, _) => PartsIn(body)
    case FunctionDef(_, params, body) => {FunctionBody(params, body)} + PartsIn(body)
    case Return(e) => PartsInExpr(e)
    case ExprStmt(e) => PartsInExpr(e)
    case ReturnUnit => {}
    case Pass => {}
  }

  function PartsInBranches(bs: Branches): set<Part> {
    match bs
    case NoElse => {}
    case Else(body) => PartsIn(body)
    case Branch(cond, body, rest) => PartsInExpr(cond) + PartsIn(body) + PartsInBranches(rest)
  }

  function PartsInArms(arms: Arms): set<Part> {
    match arms
    case NoArms => {}
    case Arm(_, body, rest) => PartsIn(body) + PartsInArms(rest)
  }

  function PartsInExpr(e: Expr): set<Part> {
    match e
    case Strict(_, args) => PartsInExprs(args)
    case Compare(first, rest) => PartsInExpr(first) + PartsInComparisons(rest)
    case BoolOp(_, operands) => PartsInExprs(operands)
    case IfExp(cond, thn, els) => PartsInExpr(cond) + PartsInExpr(thn) + PartsInExpr(els)
    case Block(s) => PartsOf(s)
    case Call(_, args, _) => PartsInExprs(args)
    case ListComp(comp) => PartsInComp(comp)
    case Lambda(names, body) => {FunctionBody(ByValue(names), MoreStmts(ExprStmt(body), NoStmts))} + PartsInExpr(body)
    case Literal(_) => {}
    case Name(_) => {}
    case AwaitFinal(_) => {}
  }

  function PartsInExprs(es: Exprs): set<Part> {
    match es
    case NoExprs => {}
    case MoreExprs(e, rest) => PartsInExpr(e) + PartsInExprs(rest)
  }

  function PartsInComparisons(cs: Comparisons): set<Part> {
    match cs
    case NoCmp => {}
    case MoreCmp(_, e, rest) => PartsInExpr(e) + PartsInComparisons(rest)
  }

  function PartsInComp(c: Comp): set<Part> {
    match c
    case Element(e) => PartsInExpr(e)
    case Guard(cond, rest) => PartsInExpr(cond) + PartsInComp(rest)
    case Generator(_, iter, rest) => {ClauseBody(rest)} + PartsInExpr(iter) + PartsInComp(rest)
  }

  // ----- Text that decides nothing by what it writes -----

  /** The variables a body may write, whether it may call a function, and the `Txn` variables. */
  datatype Rule = Rule(written: set<string>, calls: bool, txns: set<string>)

  /** Whether `x` may be assigned: a variable of the rule, or one that the function being run made,
      which no name of a `Txn` variable is. */
  predicate MayWrite(x: string, r: Rule, inFunction: bool) {
    x in r.written || (inFunction && x !in r.txns)
  }

  /** What is assigned may be computed from the rule's variables where it is one of them. */
  predicate SteadyAssigned(x: string, e: Expr, r: Rule, inFunction: bool)
    decreases e, 2
  {
    MayWrite(x, r, inFunction) && if x in r.written then SteadyData(e, r, inFunction) else SteadyExpr(e, r, inFunction)
  }

  predicate SteadyStmts(ss: Stmts, r: Rule, inFunction: bool) {
    match ss
    case NoStmts => true
    case MoreStmts(s, rest) => SteadyStmt(s, r, inFunction) && SteadyStmts(rest, r, inFunction)
  }

  predicate SteadyStmt(s: Stmt, r: Rule, inFunction: bool) {
    match s
    case Assign(_, e) => SteadyExpr(e, r, inFunction)
    case MutAssign(x, _, e) => SteadyAssigned(x, e, r, inFunction)
    case KeyedAssign(x, index, e) => SteadyAssigned(x, index, r, inFunction) && SteadyAssigned(x, e, r, inFunction)
    case AugAssign(x, _, e) => SteadyAssigned(x, e, r, inFunction)
    case Define(_, e) => SteadyExpr(e, r, inFunction)
    case Feed(x, e, _) => x !in r.written && SteadyData(e, r, inFunction)
    case If(bs) => SteadyBranches(bs, r, inFunction)
    case Match(e, arms) => SteadyExpr(e, r, inFunction) && SteadyArms(arms, r, inFunction)
    case For(_, iter, body) => SteadyExpr(iter, r, inFunction) && SteadyStmts(body, r, inFunction)
    case With(body, _) => SteadyStmts(body, r, inFunction)
    case Return(e) => SteadyExpr(e, r, inFunction)
    case ExprStmt(e) => SteadyExpr(e, r, inFunction)
    case FunctionDef(_, _, _) => true
    case ReturnUnit => true
    case Pass => true
  }

  predicate SteadyBranches(bs: Branches, r: Rule, inFunction: bool) {
    match bs
    case NoElse => true
    case Else(body) => SteadyStmts(body, r, inFunction)
    case Branch(cond, body, rest) =>
      SteadyExpr(cond, r, inFunction) && SteadyStmts(body, r, inFunction) && SteadyBranches(rest, r, inFunction)
  }

  predicate SteadyArms(arms: Arms, r: Rule, inFunction: bool) {
    match arms
    case NoArms => true
    case Arm(_, body, rest) => SteadyStmts(body, r, inFunction) && SteadyArms(rest, r, inFunction)
  }

  /** An expression whose value may decide what runs: it reads no variable of the rule. */
  predicate SteadyExpr(e: Expr, r: Rule, inFunction: bool)
    decreases e, 0
  {
    match e
    case Literal(_) => true
    case Name(x) => x !in r.written
    case Strict(_, args) => SteadyExprs(args, r, inFunction)
    case Compare(first, rest) => SteadyExpr(first, r, inFunction) && SteadyComparisons(rest, r, inFunction)
    case BoolOp(_, operands) => SteadyExprs(operands, r, inFunction)
    case IfExp(cond, thn, els) =>
      SteadyExpr(cond, r, inFunction) && SteadyExpr(thn, r, inFunction) && SteadyExpr(els, r, inFunction)
    case Block(s) => SteadyStmt(s, r, inFunction)
    case Call(f, args, _) => r.calls && f !in r.written && SteadyExprs(args, r, inFunction)
    case ListComp(comp) => SteadyComp(comp, r, inFunction)
    case Lambda(_, _) => true
    case AwaitFinal(x) => x !in r.written
  }

  /** An expression whose value is only stored or fed: its operands may be variables of the rule. */
  predicate SteadyData(e: Expr, r: Rule, inFunction: bool)
    decreases e, 1
  {
    match e
    case Name(_) => true
    case Strict(_, args) => SteadyDatas(args, r, inFunction)
    case _ => SteadyExpr(e, r, inFunction)
  }

  predicate SteadyDatas(es: Exprs, r: Rule, inFunction: bool) {
    match es
    case NoExprs => true
    case MoreExprs(e, rest) => SteadyData(e, r, inFunction) && SteadyDatas(rest, r, inFunction)
  }

  predicate SteadyExprs(es: Exprs, r: Rule, inFunction: bool) {
    match es
    case NoExprs => true
    case MoreExprs(e, rest) => SteadyExpr(e, r, inFunction) && SteadyExprs(rest, r, inFunction)
  }

  predicate SteadyComparisons(cs: Comparisons, r: Rule, inFunction: bool) {
    match cs
    case NoCmp => true
    case MoreCmp(_, e, rest) => SteadyExpr(e, r, inFunction) && SteadyComparisons(rest, r, inFunction)
  }

  predicate SteadyComp(c: Comp, r: Rule, inFunction: bool) {
    match c
    case Element(e) => SteadyExpr(e, r, inFunction)
    case Guard(cond, rest) => SteadyExpr(cond, r, inFunction) && SteadyComp(rest, r, inFunction)
    case Generator(_, iter, rest) => SteadyExpr(iter, r, inFunction) && SteadyComp(rest, r, inFunction)
  }

  // ----- The condition -----

  function TxnNames(ps: set<Part>): set<string> {
    set p | p in ps && p.TxnVariable? :: p.x
  }

  /** The `Txn` variables that functions write. */
  function WrittenByFunctions(ps: set<Part>): set<string> {
    set p, x | p in ps && p.FunctionBody? && x in WrittenIn(p.body) && x in TxnNames(ps) :: x
  }

  /** What a body that writes `w` may do: without calls, or with calls of functions that keep to the
      same rule. */
  function RuleFor(w: set<string>, calls: bool, ps: set<Part>): Rule {
    Rule(if calls then w + WrittenByFunctions(ps) else w, calls, TxnNames(ps))
  }

  predicate FunctionsSteady(ps: set<Part>, r: Rule) {
    forall p | p in ps && p.FunctionBody? :: SteadyStmts(p.body, r, true)
  }

  predicate CalmLoop(body: Stmts, ps: set<Part>) {
    var alone, calling := RuleFor(WrittenIn(body), false, ps), RuleFor(WrittenIn(body), true, ps);
    SteadyStmts(body, alone, false) || (SteadyStmts(body, calling, false) && FunctionsSteady(ps, calling))
  }

  predicate CalmClauses(rest: Comp, ps: set<Part>) {
    var alone, calling := RuleFor(WrittenInComp(rest), false, ps), RuleFor(WrittenInComp(rest), true, ps);
    SteadyComp(rest, alone, false) || (SteadyComp(rest, calling, false) && FunctionsSteady(ps, calling))
  }

  predicate AllByValue(params: seq<Param>) {
    forall i | 0 <= i < |params| :: !params[i].byRef
  }

  predicate CalmPart(p: Part, ps: set<Part>) {
    match p
    case LoopBody(body) => CalmLoop(body, ps)
    case ClauseBody(rest) => CalmClauses(rest, ps)
    case FunctionBody(params, _) => AllByValue(params)
    case TxnVariable(_) => true
  }

  /** No function takes a `Mut` parameter, and no loop or comprehension decides anything by a
      variable that its body, or a function it calls, writes. */
  predicate Calm(ss: Stmts) {
    forall p | p in PartsIn(ss) :: CalmPart(p, PartsIn(ss))
  }
}
