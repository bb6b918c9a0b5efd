/** The terms the normalization pass rewrites, and what they mean.

    A term runs over a store of mutable variables and an output of feeds and definitions. An
    application spine is one call: its head, then its arguments from left to right, then the call.
    A bare mutable variable in a spine stands for its location, which the call reads or writes.
    A run has no result when it goes wrong or makes more nested calls than `fuel` allows. */
module AnfTerms {
  import opened Options

  /** A name the program wrote, or one of the pass's own. */
  datatype Name = Src(id: string) | Temp(n: nat)

  datatype Arith = Add | Sub | Mul | Less | Equal

  /** An operator or literal form that computes from the values of its operands. */
  datatype Op =
    | BinOp(kind: Arith)
    | Negate
    | Aggregate
    | MkTuple
    | MkList
    | MkRecord(fields: seq<string>)
    | MkVariant(tag: string)
    | Recast

  datatype Fn = LookupChecked | Project(i: nat)

  datatype Pattern = Wild | Named(x: string) | Tagged(tag: string, x: string)

  datatype Expr =
    | Lit(i: int)
    | Var(name: Name)
    | Builtin(fn: Fn)
    | Lambda(param: string, byRef: bool, body: Expr)
    | Strict(op: Op, args: Exprs)
    | Apply(function_: Expr, argument: Expr)
    | Let(name: Name, annotated: bool, bound: Expr, body: Expr)
    | MutDecl(x: string, init: Expr, body: Expr)
    | ExprStmt(effect: Expr, body: Expr)
    | MutWrite(x: string, key: Option<Expr>, value: Expr)
    | For(target: string, iter: Expr, body: Expr)
    | Case(scrutinee: Option<Expr>, branches: Branches)
    | Feed(channel: string, value: Expr)
    | Define(channel: string, value: Expr)
    | Begin(body: Expr)

  datatype Exprs = NoExprs | More(head: Expr, tail: Exprs)

  datatype Branches = NoBranches | MoreBranches(pattern: Pattern, guard: Expr, body: Expr, rest: Branches)

  // ----- Values -----

  datatype Value =
    | Num(i: int)
    | Unit
    | Tuple(elements: seq<Value>)
    | List(elements: seq<Value>)
    | Record(fields: seq<string>, elements: seq<Value>)
    | Variant(tag: string, payload: Value)
    | Table(entries: seq<(int, Value)>)
    | Closure(param: string, byRef: bool, body: Expr, env: Env)
    | Native(fn: Fn)

  /** What a name of the program is bound to. */
  datatype Slot = Val(v: Value) | Loc(l: nat)

  datatype Vars = NoVars | Bound(x: string, slot: Slot, rest: Vars)

  datatype Env = Env(vars: Vars, temps: map<nat, Value>) {
    function Bind(name: Name, v: Value): Env {
      match name
      case Src(x) => Env(Bound(x, Val(v), vars), temps)
      case Temp(n) => Env(vars, temps[n := v])
    }

    function At(x: string, s: Slot): Env {
      Env(Bound(x, s, vars), temps)
    }
  }

  function Lookup(vars: Vars, x: string): Option<Slot> {
    match vars
    case NoVars => None
    case Bound(y, s, rest) => if x == y then Some(s) else Lookup(rest, x)
  }

  datatype Event = Fed(channel: string, v: Value) | Defined(channel: string, v: Value)

  datatype Store = Store(cells: seq<Value>, out: seq<Event>)

  /** An evaluated position of a spine. */
  datatype Operand = Ready(v: Value) | Handle(l: nat)

  // ----- Operators -----

  function Truth(b: bool): Value {
    Num(if b then 1 else 0)
  }

  function Calculate(kind: Arith, a: int, b: int): Value {
    match kind
    case Add => Num(a + b)
    case Sub => Num(a - b)
    case Mul => Num(a * b)
    case Less => Truth(a < b)
    case Equal => Truth(a == b)
  }

  function Total(vs: seq<Value>): Option<int> {
    if vs == [] then Some(0)
    else if vs[0].Num? then
      var t :- Total(vs[1..]);
      Some(vs[0].i + t)
    else None
  }

  function Interpret(op: Op, vs: seq<Value>): Option<Value> {
    match op
    case BinOp(kind) => if |vs| == 2 && vs[0].Num? && vs[1].Num? then Some(Calculate(kind, vs[0].i, vs[1].i)) else None
    case Negate => if |vs| == 1 && vs[0].Num? then Some(Num(-vs[0].i)) else None
    case Aggregate =>
      if |vs| == 1 && vs[0].List? then
        var t :- Total(vs[0].elements);
        Some(Num(t))
      else None
    case MkTuple => Some(Tuple(vs))
    case MkList => Some(List(vs))
    case MkRecord(fields) => if |fields| == |vs| then Some(Record(fields, vs)) else None
    case MkVariant(tag) => if |vs| == 1 then Some(Variant(tag, vs[0])) else None
    case Recast => if |vs| == 1 then Some(vs[0]) else None
  }

  function Find(entries: seq<(int, Value)>, k: int): Value {
    if entries == [] then Variant("None", Unit)
    else if entries[0].0 == k then Variant("Some", entries[0].1)
    else Find(entries[1..], k)
  }

  function CallNative(fn: Fn, v: Value): Option<Value> {
    match fn
    case LookupChecked =>
      if v.Tuple? && |v.elements| == 2 && v.elements[0].Table? && v.elements[1].Num? then
        Some(Find(v.elements[0].entries, v.elements[1].i))
      else None
    case Project(i) => if v.Tuple? && i < |v.elements| then Some(v.elements[i]) else None
  }

  /** A variable's new value after a write, at one key of it or as a whole. */
  function Written(before: Value, key: Option<Value>, v: Value): Option<Value> {
    if key.None? then Some(v)
    else if before.Table? && key.value.Num? then Some(Table([(key.value.i, v)] + before.entries))
    else None
  }

  function Matched(p: Pattern, v: Value, env: Env): Option<Env> {
    match p
    case Wild => Some(env)
    case Named(x) => Some(env.At(x, Val(v)))
    case Tagged(tag, x) => if v.Variant? && v.tag == tag then Some(env.At(x, Val(v.payload))) else None
  }

  // ----- Runs -----

  function Deref(o: Operand, st: Store): Option<Value> {
    match o
    case Ready(v) => Some(v)
    case Handle(l) => if l < |st.cells| then Some(st.cells[l]) else None
  }

  function EvalVar(name: Name, env: Env, st: Store): Option<Value> {
    match name
    case Temp(n) => if n in env.temps then Some(env.temps[n]) else None
    case Src(x) =>
      var s :- Lookup(env.vars, x);
      if s.Val? then Some(s.v) else Deref(Handle(s.l), st)
  }

  function Eval(e: Expr, env: Env, st: Store, fuel: nat): Option<(Value, Store)>
    decreases fuel, 1, e, 1
  {
    match e
    case Lit(i) => Some((Num(i), st))
    case Var(name) =>
      var v :- EvalVar(name, env, st);
      Some((v, st))
    case Builtin(fn) => Some((Native(fn), st))
    case Lambda(param, byRef, body) => Some((Closure(param, byRef, body, env), st))
    case Strict(op, args) =>
      var (vs, st1) :- EvalAll(args, env, st, fuel);
      var v :- Interpret(op, vs);
      Some((v, st1))
    case Apply(_, _) =>
      var (ops, st1) :- EvalSpine(e, env, st, fuel);
      var f :- Deref(ops[0], st1);
      Call(f, ops[1..], st1, fuel)
    case Let(name, _, bound, body) =>
      var (v, st1) :- Eval(bound, env, st, fuel);
      Eval(body, env.Bind(name, v), st1, fuel)
    case MutDecl(x, init, body) =>
      var (v, st1) :- Eval(init, env, st, fuel);
      Eval(body, env.At(x, Loc(|st1.cells|)), st1.(cells := st1.cells + [v]), fuel)
    case ExprStmt(effect, body) =>
      var (_, st1) :- Eval(effect, env, st, fuel);
      Eval(body, env, st1, fuel)
    case MutWrite(x, key, value) =>
      var (k, st1) :- EvalKey(key, env, st, fuel);
      var (v, st2) :- Eval(value, env, st1, fuel);
      WriteTo(Lookup(env.vars, x), k, v, st2)
    case For(target, iter, body) =>
      var (v, st1) :- Eval(iter, env, st, fuel);
      if v.List? then Loop(target, v.elements, body, env, st1, fuel) else None
    case Case(scrutinee, branches) =>
      var (v, st1) :- EvalKey(scrutinee, env, st, fuel);
      Choose(v, branches, env, st1, fuel)
    case Feed(channel, value) =>
      var (o, st1) :- EvalOperand(value, env, st, fuel);
      var v :- Deref(o, st1);
      Some((Unit, st1.(out := st1.out + [Fed(channel, v)])))
    case Define(channel, value) =>
      var (o, st1) :- EvalOperand(value, env, st, fuel);
      var v :- Deref(o, st1);
      Some((Unit, st1.(out := st1.out + [Defined(channel, v)])))
    case Begin(body) => Eval(body, env, st, fuel)
  }

  function WriteTo(s: Option<Slot>, k: Option<Value>, v: Value, st: Store): Option<(Value, Store)> {
    if s.Some? && s.value.Loc? && s.value.l < |st.cells| then
      var w :- Written(st.cells[s.value.l], k, v);
      Some((Unit, st.(cells := st.cells[s.value.l := w])))
    else None
  }

  function EvalAll(es: Exprs, env: Env, st: Store, fuel: nat): Option<(seq<Value>, Store)>
    decreases fuel, 1, es, 0
  {
    match es
    case NoExprs => Some(([], st))
    case More(e, rest) =>
      var (v, st1) :- Eval(e, env, st, fuel);
      var (vs, st2) :- EvalAll(rest, env, st1, fuel);
      Some(([v] + vs, st2))
  }

  function EvalKey(key: Option<Expr>, env: Env, st: Store, fuel: nat): Option<(Option<Value>, Store)>
    decreases fuel, 1, key, 0
  {
    if key.None? then Some((None, st))
    else
      var (v, st1) :- Eval(key.value, env, st, fuel);
      Some((Some(v), st1))
  }

  /** A position that may hold a mutable variable rather than its value. */
  function EvalOperand(e: Expr, env: Env, st: Store, fuel: nat): Option<(Operand, Store)>
    decreases fuel, 1, e, 2
  {
    if e.Var? && e.name.Src? && Lookup(env.vars, e.name.id).Some? && Lookup(env.vars, e.name.id).value.Loc? then
      Some((Handle(Lookup(env.vars, e.name.id).value.l), st))
    else
      var (v, st1) :- Eval(e, env, st, fuel);
      Some((Ready(v), st1))
  }

  /** The head of a spine and its arguments. */
  function EvalSpine(e: Expr, env: Env, st: Store, fuel: nat): (r: Option<(seq<Operand>, Store)>)
    ensures r.Some? ==> |r.value.0| > 0
    decreases fuel, 1, e, if e.Apply? then 0 else 3
  {
    if e.Apply? then
      var (ops, st1) :- EvalSpine(e.function_, env, st, fuel);
      var (o, st2) :- EvalArgument(e.function_, e.argument, env, st1, fuel);
      Some((ops + [o], st2))
    else
      var (o, st1) :- EvalOperand(e, env, st, fuel);
      Some(([o], st1))
  }

  /** The lookup takes a value; any other function may take a mutable variable. */
  function EvalArgument(f: Expr, a: Expr, env: Env, st: Store, fuel: nat): Option<(Operand, Store)>
    decreases fuel, 1, a, 3
  {
    if f == Builtin(LookupChecked) then
      var (v, st1) :- Eval(a, env, st, fuel);
      Some((Ready(v), st1))
    else EvalOperand(a, env, st, fuel)
  }

  function Call(f: Value, ops: seq<Operand>, st: Store, fuel: nat): Option<(Value, Store)>
    decreases fuel, 0, |ops|
  {
    if ops == [] then Some((f, st))
    else
      var (v, st1) :- CallOne(f, ops[0], st, fuel);
      Call(v, ops[1..], st1, fuel)
  }

  function CallOne(f: Value, o: Operand, st: Store, fuel: nat): Option<(Value, Store)>
    decreases fuel, 0, 0
  {
    if f.Native? then
      var v :- Deref(o, st);
      var w :- CallNative(f.fn, v);
      Some((w, st))
    else if f.Closure? && fuel > 0 then
      if f.byRef then
        if o.Handle? then Eval(f.body, f.env.At(f.param, Loc(o.l)), st, fuel - 1) else None
      else
        var v :- Deref(o, st);
        Eval(f.body, f.env.At(f.param, Val(v)), st, fuel - 1)
    else None
  }

  function Loop(target: string, vs: seq<Value>, body: Expr, env: Env, st: Store, fuel: nat): Option<(Value, Store)>
    decreases fuel, 1, body, 2, |vs|
  {
    if vs == [] then Some((Unit, st))
    else
      var (_, st1) :- Eval(body, env.At(target, Val(vs[0])), st, fuel);
      Loop(target, vs[1..], body, env, st1, fuel)
  }

  /** The first branch whose pattern matches and whose guard holds. */
  function Choose(v: Option<Value>, branches: Branches, env: Env, st: Store, fuel: nat): Option<(Value, Store)>
    decreases fuel, 1, branches, 0
  {
    match branches
    case NoBranches => None
    case MoreBranches(pattern, guard, body, rest) =>
      var inner := if v.Some? then Matched(pattern, v.value, env) else Some(env);
      if inner.None? then Choose(v, rest, env, st, fuel)
      else
        var (g, st1) :- Eval(guard, inner.value, st, fuel);
        if g == Truth(true) then Eval(body, inner.value, st1, fuel) else Choose(v, rest, env, st1, fuel)
  }
}
