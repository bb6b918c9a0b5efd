/** What a program means once every channel's contents are given: nothing is pending, nothing runs
    that may not run, and a read of contents that are not given has no meaning.

    A scope maps names; a world holds the live variables, the channels and the commit clock, and a
    log of what was written and committed. */
module PlainMeaning {
  import opened Options
  import opened InterpSyntax
  import opened OperatorMeaning
  import Names = InterpValues
  import Equality = ValueEquality

  datatype Slot =
    | Val(v: Data)
    | Var(loc: nat)
    | Fn(params: seq<Param>, body: Stmts, scope: map<string, Slot>)
    | Chan(key: string)

  type Scope = map<string, Slot>

  datatype Variable = Variable(value: Data, txn: bool, writer: Option<nat>)

  type Site = seq<nat>

  datatype Fed = Fed(site: Site, key: Data, value: Data)

  datatype Outlet = Outlet(fed: seq<Fed>, defined: Option<Data>, sites: seq<Site>)

  datatype Reply = Reply(chan: string, site: Site, value: Data)

  /** A `with begin():` block that is running. */
  datatype Block = Block(site: nat, wrote: bool, writes: set<string>, replies: seq<Reply>)

  datatype Event = Wrote(loc: nat) | Committed

  datatype World = World(
    vars: seq<Variable>,
    outlets: map<string, Outlet>,
    clock: int,
    block: Option<Block>,
    log: seq<Event>)
  {
    /** The world once the scopes that made the variables from the `n`th on are left. */
    function Leaving(n: nat): World {
      if n <= |vars| then this.(vars := vars[..n]) else this
    }

    function OutletOf(key: string): Outlet {
      if key in outlets then outlets[key] else Outlet([], None, [])
    }
  }

  /** Where something runs: its scope, the contents given, the channels fed in the program text, the
      keys of the loops and the calls around it. */
  datatype Place = Place(scope: Scope, given: map<string, Data>, textFed: set<string>, keys: seq<Data>, calls: seq<nat>)

  datatype Run<+T> = Got(value: T) | Fails(error: Error) | Unanswered {
    predicate IsFailure() {
      !Got?
    }

    function PropagateFailure<U>(): Run<U>
      requires !Got?
    {
      match this
      case Fails(e) => Fails(e)
      case Unanswered => Unanswered
    }

    function Extract(): T
      requires Got?
    {
      value
    }
  }

  /** What is there, or a refusal. */
  function Sure<T>(v: Option<T>): Run<T> {
    if v.Some? then Got(v.value) else Fails(Refused)
  }

  /** A condition without which there is a refusal. */
  datatype Require = Require(met: bool) {
    predicate IsFailure() {
      !met
    }

    function PropagateFailure<U>(): Run<U>
      requires !met
    {
      Fails(Refused)
    }
  }

  /** How a statement ends: the run goes on in a scope, or the function returns. */
  datatype Flow = On(scope: Scope) | Back(value: Data)

  // ----- Scopes -----

  function Bound(scope: Scope, x: string, v: Data): Scope {
    if x == "_" then scope else scope[x := Val(v)]
  }

  function BoundAll(scope: Scope, binds: map<string, Data>): Scope {
    scope + map x | x in binds :: Val(binds[x])
  }

  /** A scope as a function keeps it: a variable by its value, a `Txn` store by itself. */
  function Kept(scope: Scope, vars: seq<Variable>): Scope {
    map x | x in scope ::
      match scope[x]
      case Var(loc) => if loc < |vars| && !vars[loc].txn then Val(vars[loc].value) else scope[x]
      case _ => scope[x]
  }

  // ----- Variables -----

  /** A read of a variable; of a `Txn` store only inside a block that writes it. */
  function ReadVar(x: string, loc: nat, w: World): Run<Data> {
    if |w.vars| <= loc then Fails(Refused)
    else
      :- Require(w.vars[loc].txn ==> w.block.Some? && x in w.block.value.writes);
      Got(w.vars[loc].value)
  }

  function ReadName(x: string, at: Place, w: World): Run<Data> {
    if x !in at.scope then Fails(Refused)
    else
      match at.scope[x]
      case Val(v) => Got(v)
      case Var(loc) => ReadVar(x, loc, w)
      case Chan(key) => if key in at.given then Got(at.given[key]) else Unanswered
      case Fn(_, _, _) => Fails(Refused)
  }

  /** A write. A `Txn` store that a block writes is that block's: another block's write is refused. */
  function WriteVar(w: World, loc: nat, v: Data): Run<World> {
    if |w.vars| <= loc then Fails(Refused)
    else
      var was := w.vars[loc];
      var owned := was.txn && w.block.Some?;
      :- Require(owned && was.writer.Some? ==> was.writer.value == w.block.value.site);
      var writer := if owned then Some(w.block.value.site) else was.writer;
      Got(w.(vars := w.vars[loc := Variable(v, was.txn, writer)],
             log := w.log + [Wrote(loc)],
             block := if w.block.Some? then Some(w.block.value.(wrote := true)) else None))
  }

  /** `x[k] := v`: the collection with that key bound to `v`. */
  ghost function PutKey(x: string, k: Data, v: Data, at: Place, w: World): Run<World> {
    if !(x in at.scope && at.scope[x].Var? && at.scope[x].loc < |w.vars|) then Fails(Refused)
    else
      var was := w.vars[at.scope[x].loc].value;
      :- Require(was.Coll? && exists after :: Rebound(was.entries, k, v, after));
      var after :| Rebound(was.entries, k, v, after);
      var now :- Sure(Gathered(after));
      WriteVar(w, at.scope[x].loc, now)
  }

  /** Something in the log outlives an iteration that began with `n` variables. */
  predicate Outlives(log: seq<Event>, n: nat) {
    exists i | 0 <= i < |log| :: log[i].Committed? || log[i].loc < n
  }

  function Since(log: seq<Event>, n: nat): seq<Event> {
    if n <= |log| then log[n..] else []
  }

  // ----- Channels -----

  /** Program order of sites: that of dictionaries. */
  ghost predicate SiteFirst(a: Site, b: Site) {
    exists k | 0 <= k <= |a| && k < |b| :: a[..k] == b[..k] && (k == |a| || a[k] < b[k])
  }

  /** `sorted` are the sites of `sites` in program order. */
  ghost predicate InProgramOrder(sites: seq<Site>, sorted: seq<Site>) {
    multiset(sorted) == multiset(sites) && forall i, j | 0 <= i < j < |sorted| :: !SiteFirst(sorted[j], sorted[i])
  }

  /** A site joins when it first feeds. */
  ghost function Joining(sites: seq<Site>, s: Site): seq<Site> {
    if s in sites then sites
    else if exists sorted :: InProgramOrder(sites + [s], sorted) then
      var sorted :| InProgramOrder(sites + [s], sorted);
      sorted
    else sites + [s]
  }

  function Contributed(w: World, key: string, f: Fed): World {
    var o := w.OutletOf(key);
    w.(outlets := w.outlets[key := o.(fed := o.fed + [f])])
  }

  /** The replies of a block, each under the block's commit time. */
  function Answered(w: World, replies: seq<Reply>, at: Data): World
    decreases |replies|
  {
    if |replies| == 0 then w
    else
      var n := |replies| - 1;
      Contributed(Answered(w, replies[..n], at), replies[n].chan, Fed(replies[n].site, at, replies[n].value))
  }

  ghost function KeyOf(keys: seq<Data>): Data {
    if d :| Tupled(keys, d) then d else Unit
  }

  /** `key << v` at `site`: inside a block it waits for the commit. */
  ghost function Feeding(key: string, site: Site, v: Data, at: Place, w: World): World {
    var o := w.OutletOf(key);
    var joined := w.(outlets := w.outlets[key := o.(sites := Joining(o.sites, site))]);
    match w.block
    case Some(b) => joined.(block := Some(b.(replies := b.replies + [Reply(key, site, v)])))
    case None => Contributed(joined, key, Fed(site, KeyOf(at.keys), v))
  }

  /** `key <<= v`: once, and only for a channel that nothing feeds. */
  function Defining(key: string, v: Data, at: Place, w: World): Run<World> {
    var o := w.OutletOf(key);
    if o.defined.Some? || key in at.textFed then Fails(Refused)
    else if o.sites != [] then Fails(FedAndDefined)
    else Got(w.(outlets := w.outlets[key := o.(defined := Some(v))]))
  }

  /** A site's place among a channel's sites. */
  ghost predicate PlaceAmong(sites: seq<Site>, s: Site, n: nat) {
    if n < |sites| then sites[n] == s && s !in sites[..n] else n == |sites| && s !in sites
  }

  ghost function Rank(sites: seq<Site>, s: Site): nat {
    if n: nat :| PlaceAmong(sites, s, n) then n else 0
  }

  /** What a channel holds: what it was defined as, or the collection of what fed it, each key tagged
      by its site where there are several. */
  ghost function Held(o: Outlet): Option<Data> {
    if o.defined.Some? then o.defined
    else
      Gathered(seq(|o.fed|, i requires 0 <= i < |o.fed| =>
        (if |o.sites| > 1 then Variant(Equality.Digits(Rank(o.sites, o.fed[i].site)), o.fed[i].key) else o.fed[i].key,
         o.fed[i].value)))
  }

  // ----- Patterns -----

  datatype Fit = Unfit | Other | Fitting(binds: map<string, Data>)

  function Binding(b: Option<string>, v: Data): map<string, Data> {
    if b.Some? then map[b.value := v] else map[]
  }

  /** `binds` binds each named position of a tuple, the last where a name is repeated. */
  ghost predicate Positions(binders: seq<Option<string>>, fields: Fields, binds: map<string, Data>) {
    && (forall i | 0 <= i < |binders| && binders[i].Some? :: exists v :: Named(fields, Names.Position(i), v))
    && (forall x :: x in binds <==> Some(x) in binders)
    && (forall i | 0 <= i < |binders| && binders[i].Some? && Some(binders[i].value) !in binders[i + 1..] ::
          Named(fields, Names.Position(i), binds[binders[i].value]))
  }

  ghost function Fits(p: Pattern, v: Data): Fit {
    match (p, v)
    case (Wildcard, _) => Fitting(map[])
    case (TagPattern(tag, b), Variant(t, payload)) => if tag == t then Fitting(Binding(b, payload)) else Other
    case (CtorPattern(ty, ctor, bs), Nominal(t, k, arg)) =>
      if ty != t || ctor != k then Other
      else if |bs| == 0 then Fitting(map[])
      else if |bs| == 1 then Fitting(Binding(bs[0], arg))
      else if arg.Record? && exists binds :: Positions(bs, arg.fields, binds) then
        var binds :| Positions(bs, arg.fields, binds);
        Fitting(binds)
      else Unfit
    case _ => Unfit
  }

  // ----- Expressions -----

  function LiteralOf(l: Lit): Data {
    match l
    case LitInt(i) => Int(i)
    case LitStr(s) => Str(s)
    case LitBool(b) => Bool(b)
  }

  ghost function Evaluate(e: Expr, at: Place, w: World, fuel: nat): Run<(Data, World)>
    decreases fuel, e, 1
  {
    match e
    case Literal(l) => Got((LiteralOf(l), w))
    case Name(x) =>
      var v :- ReadName(x, at, w);
      Got((v, w))
    case Strict(op, args) =>
      var (vs, w1) :- EvaluateAll(args, at, w, fuel);
      var v :- Sure(Result(op, vs));
      Got((v, w1))
    case Compare(first, rest) =>
      var (v, w1) :- Evaluate(first, at, w, fuel);
      var (holds, w2) :- Compares(v, rest, at, w1, fuel);
      Got((Bool(false !in holds), w2))
    case BoolOp(conj, operands) =>
      var (bs, w1) :- Decide(operands, !conj, at, w, fuel);
      Got((Bool(if conj then false !in bs else true in bs), w1))
    case IfExp(cond, thn, els) =>
      var (b, w1) :- Test(cond, at, w, fuel);
      Evaluate(if b then thn else els, at, w1, fuel)
    case Block(s) => ValueOfBlock(s, false, at, w, fuel)
    case Call(_, _, site) => Invoke(e, at.(calls := at.calls + [site]), w, fuel)
    case ListComp(comp) =>
      var (entries, w1) :- Clauses(comp, [], at, w, fuel);
      var v :- Sure(Gathered(entries));
      Got((v, w1))
    case Lambda(_, _) => Fails(Refused)
    case AwaitFinal(x) =>
      :- Require(x in at.scope && at.scope[x].Var? && at.scope[x].loc < |w.vars|);
      Got((w.vars[at.scope[x].loc].value, w))
  }

  ghost function EvaluateAll(es: Exprs, at: Place, w: World, fuel: nat): Run<(seq<Data>, World)>
    decreases fuel, es, 0
  {
    match es
    case NoExprs => Got(([], w))
    case MoreExprs(e, rest) =>
      var (v, w1) :- Evaluate(e, at, w, fuel);
      var (vs, w2) :- EvaluateAll(rest, at, w1, fuel);
      Got(([v] + vs, w2))
  }

  /** A condition: a boolean. */
  ghost function Test(e: Expr, at: Place, w: World, fuel: nat): Run<(bool, World)>
    decreases fuel, e, 2
  {
    var (v, w1) :- Evaluate(e, at, w, fuel);
    :- Require(v.Bool?);
    Got((v.b, w1))
  }

  /** The comparisons of a chain, up to the first that does not hold. */
  ghost function Compares(prev: Data, rest: Comparisons, at: Place, w: World, fuel: nat): Run<(seq<bool>, World)>
    decreases fuel, rest, 0
  {
    match rest
    case NoCmp => Got(([], w))
    case MoreCmp(op, right, tail) =>
      var (v, w1) :- Evaluate(right, at, w, fuel);
      var b :- Sure(Compared(op, prev, v));
      if !b then Got(([false], w1))
      else
        var (bs, w2) :- Compares(v, tail, at, w1, fuel);
        Got(([true] + bs, w2))
  }

  /** The operands of a short-circuiting operator, up to the first that is `decisive`. */
  ghost function Decide(es: Exprs, decisive: bool, at: Place, w: World, fuel: nat): Run<(seq<bool>, World)>
    decreases fuel, es, 0
  {
    match es
    case NoExprs => Got(([], w))
    case MoreExprs(e, rest) =>
      var (b, w1) :- Test(e, at, w, fuel);
      if b == decisive then Got(([b], w1))
      else
        var (bs, w2) :- Decide(rest, decisive, at, w1, fuel);
        Got(([b] + bs, w2))
  }

  // ----- Calls -----

  ghost function Invoke(e: Expr, at: Place, w: World, fuel: nat): Run<(Data, World)>
    requires e.Call?
    decreases fuel, e, 0
  {
    if !(e.f in at.scope && at.scope[e.f].Fn? && |at.scope[e.f].params| == Length(e.args)) then Fails(Refused)
    else
      var f := at.scope[e.f];
      var (scope, w1) :- Arguments(f.params, e.args, f.scope, at, w, fuel);
      if fuel == 0 then Fails(Refused)
      else
        var (v, w2) :- ValueOf(f.body, true, at.(scope := scope), w1, fuel - 1);
        Got((v, w2.Leaving(|w.vars|)))
  }

  /** The scope a call runs in: a `Mut` parameter is its argument's variable. */
  ghost function Arguments(params: seq<Param>, args: Exprs, scope: Scope, at: Place, w: World, fuel: nat): Run<(Scope,
          World)>
    requires |params| == Length(args)
    decreases fuel, args, 0
  {
    match args
    case NoExprs => Got((scope, w))
    case MoreExprs(e, rest) =>
      if params[0].byRef then
        :- Require(e.Name? && e.x in at.scope && at.scope[e.x].Var?);
        Arguments(params[1..], rest, scope[params[0].name := at.scope[e.x]], at, w, fuel)
      else
        var (s, w1) :- Holding(e, at, w, fuel);
        Arguments(params[1..], rest, scope[params[0].name := s], at, w1, fuel)
  }

  function ByValue(names: seq<string>): seq<Param> {
    seq(|names|, i requires 0 <= i < |names| => Param(names[i], false))
  }

  /** What a name bound to `e` holds: a function or channel that `e` names, or `e`'s value. */
  ghost function Holding(e: Expr, at: Place, w: World, fuel: nat): Run<(Slot, World)>
    decreases fuel, e, 2
  {
    if e.Lambda? then Got((Fn(ByValue(e.params), MoreStmts(ExprStmt(e.body), NoStmts), Kept(at.scope, w.vars)), w))
    else if e.Name? && e.x in at.scope && (at.scope[e.x].Fn? || at.scope[e.x].Chan?) then Got((at.scope[e.x], w))
    else
      var (v, w1) :- Evaluate(e, at, w, fuel);
      Got((Val(v), w1))
  }

  // ----- Comprehensions -----

  ghost function Clauses(cp: Comp, keys: seq<Data>, at: Place, w: World, fuel: nat): Run<(Entries, World)>
    decreases fuel, cp, 0
  {
    match cp
    case Element(e) =>
      var (v, w1) :- Evaluate(e, at, w, fuel);
      Got(([(KeyOf(keys), v)], w1))
    case Guard(cond, rest) =>
      var (b, w1) :- Test(cond, at, w, fuel);
      if b then Clauses(rest, keys, at, w1, fuel) else Got(([], w1))
    case Generator(x, iter, rest) =>
      var (v, w1) :- Evaluate(iter, at, w, fuel);
      :- Require(v.Coll?);
      Each(x, v.entries, rest, keys, at, w1, fuel)
  }

  ghost function Each(x: string, entries: Entries, rest: Comp, keys: seq<Data>, at: Place, w: World, fuel: nat)
    : Run<(Entries, World)>
    decreases fuel, rest, 1 + |entries|
  {
    if |entries| == 0 then Got(([], w))
    else
      var (key, v) := entries[0];
      var (these, w1) :- Clauses(rest, keys + [key], at.(scope := Bound(at.scope, x, v)), w, fuel);
      var (others, w2) :- Each(x, entries[1..], rest, keys, at, w1, fuel);
      Got((these + others, w2))
  }

  // ----- Blocks -----

  /** The body of the first branch whose condition holds, or of the `else`. */
  ghost function Taken(bs: Branches, at: Place, w: World, fuel: nat): (r: Run<(Option<Stmts>, World)>)
    ensures r.Got? && r.value.0.Some? ==> r.value.0.value < bs
    decreases fuel, bs, 0
  {
    match bs
    case NoElse => Got((None, w))
    case Else(body) => Got((Some(body), w))
    case Branch(cond, body, rest) =>
      var (b, w1) :- Test(cond, at, w, fuel);
      if b then Got((Some(body), w1)) else Taken(rest, at, w1, fuel)
  }

  /** The body of the first arm whose pattern fits, and what the pattern binds. */
  ghost function TakenArm(arms: Arms, v: Data): (r: Run<(Stmts, map<string, Data>)>)
    ensures r.Got? ==> r.value.0 < arms
  {
    match arms
    case NoArms => Fails(Refused)
    case Arm(p, body, rest) =>
      match Fits(p, v)
      case Unfit => Fails(Refused)
      case Other => TakenArm(rest, v)
      case Fitting(binds) => Got((body, binds))
  }

  /** A `match`: the arm it takes, where it runs, and the world by then. */
  ghost function Matched(s: Stmt, at: Place, w: World, fuel: nat): (r: Run<((Stmts, Place), World)>)
    requires s.Match?
    ensures r.Got? ==> r.value.0.0 < s
    decreases fuel, s, 0
  {
    var (v, w1) :- Evaluate(s.scrutinee, at, w, fuel);
    :- Require(v.Variant? || v.Nominal?);
    var (body, binds) :- TakenArm(s.arms, v);
    Got(((body, at.(scope := BoundAll(at.scope, binds))), w1))
  }

  /** The value of an `if` or `match` in expression position. */
  ghost function ValueOfBlock(s: Stmt, unit: bool, at: Place, w: World, fuel: nat): Run<(Data, World)>
    decreases fuel, s, 1
  {
    match s
    case If(bs) =>
      var (body, w1) :- Taken(bs, at, w, fuel);
      :- Require(body.Some?);
      ValueOfBody(body.value, unit, at, w1, fuel)
    case Match(_, _) =>
      var ((body, inside), w1) :- Matched(s, at, w, fuel);
      ValueOfBody(body, unit, inside, w1, fuel)
    case _ => Fails(Refused)
  }

  ghost function ValueOfBody(body: Stmts, unit: bool, at: Place, w: World, fuel: nat): Run<(Data, World)>
    decreases fuel, body, 1
  {
    var (v, w1) :- ValueOf(body, unit, at, w, fuel);
    Got((v, w1.Leaving(|w.vars|)))
  }

  /** The value of a block: what it returns, or its last statement's value. */
  ghost function ValueOf(body: Stmts, unit: bool, at: Place, w: World, fuel: nat): Run<(Data, World)>
    decreases fuel, body, 0
  {
    match body
    case NoStmts => Fails(Refused)
    case MoreStmts(s, rest) =>
      if rest.NoStmts? then ValueOfLast(s, unit, at, w, fuel)
      else
        var (flow, w1) :- Execute(s, at, w, fuel);
        match flow
        case Back(v) => Got((v, w1))
        case On(scope) => ValueOf(rest, unit, at.(scope := scope), w1, fuel)
  }

  /** The value of a last statement; with `unit`, one without a value has the unit value. */
  ghost function ValueOfLast(s: Stmt, unit: bool, at: Place, w: World, fuel: nat): Run<(Data, World)>
    decreases fuel, s, 3
  {
    if s.ExprStmt? || s.Return? then Evaluate(s.e, at, w, fuel)
    else if s.Match? || (s.If? && HasElse(s.branches)) then ValueOfBlock(s, unit, at, w, fuel)
    else
      :- Require(unit);
      var (flow, w1) :- Execute(s, at, w, fuel);
      Got((if flow.Back? then flow.value else Unit, w1))
  }

  // ----- Statements -----

  ghost function ExecuteAll(ss: Stmts, at: Place, w: World, fuel: nat): Run<(Flow, World)>
    decreases fuel, ss, 0
  {
    match ss
    case NoStmts => Got((On(at.scope), w))
    case MoreStmts(s, rest) =>
      var (flow, w1) :- Execute(s, at, w, fuel);
      if flow.Back? then Got((flow, w1)) else ExecuteAll(rest, at.(scope := flow.scope), w1, fuel)
  }

  /** A body in a scope of its own: what it returned, if it did. */
  ghost function Within(body: Stmts, at: Place, w: World, fuel: nat): Run<(Option<Data>, World)>
    decreases fuel, body, 1
  {
    var (flow, w1) :- ExecuteAll(body, at, w, fuel);
    Got((if flow.Back? then Some(flow.value) else None, w1.Leaving(|w.vars|)))
  }

  /** A statement that leaves the scope it ran in. */
  function Outside(at: Place, returned: Option<Data>): Flow {
    if returned.Some? then Back(returned.value) else On(at.scope)
  }

  ghost function Execute(s: Stmt, at: Place, w: World, fuel: nat): Run<(Flow, World)>
    decreases fuel, s, 2
  {
    match s
    case Assign(x, e) =>
      var (slot, w1) :- Holding(e, at, w, fuel);
      Got((On(at.scope[x := slot]), w1))
    case MutAssign(x, txn, e) =>
      var (v, w1) :- Evaluate(e, at, w, fuel);
      if x in at.scope && at.scope[x].Var? then
        var w2 :- WriteVar(w1, at.scope[x].loc, v);
        Got((On(at.scope), w2))
      else Got((On(at.scope[x := Var(|w1.vars|)]), w1.(vars := w1.vars + [Variable(v, txn, None)])))
    case KeyedAssign(x, index, e) =>
      var (v, w1) :- Evaluate(e, at, w, fuel);
      var (k, w2) :- Evaluate(index, at, w1, fuel);
      var w3 :- PutKey(x, k, v, at, w2);
      Got((On(at.scope), w3))
    case AugAssign(x, op, e) =>
      :- Require(x in at.scope && at.scope[x].Var?);
      var was :- ReadVar(x, at.scope[x].loc, w);
      var (v, w1) :- Evaluate(e, at, w, fuel);
      var now :- Sure(Result(Binary(op), [was, v]));
      var w2 :- WriteVar(w1, at.scope[x].loc, now);
      Got((On(at.scope), w2))
    case Define(x, e) =>
      var (v, w1) :- Evaluate(e, at, w, fuel);
      if x in at.scope && at.scope[x].Chan? then
        var w2 :- Defining(at.scope[x].key, v, at, w1);
        Got((On(at.scope), w2))
      else Got((On(at.scope[x := Val(v)]), w1))
    case Feed(x, e, site) =>
      :- Require(x in at.scope && at.scope[x].Chan?);
      var (v, w1) :- Evaluate(e, at, w, fuel);
      Got((On(at.scope), Feeding(at.scope[x].key, at.calls + [site], v, at, w1)))
    case If(bs) =>
      var (body, w1) :- Taken(bs, at, w, fuel);
      if body.None? then Got((On(at.scope), w1))
      else
        var (returned, w2) :- Within(body.value, at, w1, fuel);
        Got((Outside(at, returned), w2))
    case Match(_, _) =>
      var ((body, inside), w1) :- Matched(s, at, w, fuel);
      var (returned, w2) :- Within(body, inside, w1, fuel);
      Got((Outside(at, returned), w2))
    case For(x, iter, body) =>
      var (v, w1) :- Evaluate(iter, at, w, fuel);
      :- Require(v.Coll?);
      var (returned, w2) :- Loop(x, v.entries, body, at, w1, fuel);
      Got((Outside(at, returned), w2))
    case With(body, site) =>
      :- Require(w.block.None?);
      var (_, w1) :- Within(body, at, w.(block := Some(Block.Block(site, false, WrittenIn(body), []))), fuel);
      Got((On(at.scope), Committing(w1)))
    case FunctionDef(x, params, body) => Got((On(at.scope[x := Fn(params, body, Kept(at.scope, w.vars))]), w))
    case Return(e) =>
      var (v, w1) :- Evaluate(e, at, w, fuel);
      Got((Back(v), w1))
    case ReturnUnit => Got((Back(Unit), w))
    case ExprStmt(e) =>
      var (_, w1) :- Evaluate(e, at, w, fuel);
      Got((On(at.scope), w1))
    case Pass => Got((On(at.scope), w))
  }

  /** The end of a block: one that did something takes the next commit time. */
  function Committing(w: World): World {
    var after := w.(block := None);
    match w.block
    case Some(b) =>
      if !b.wrote && b.replies == [] then after
      else Answered(after.(clock := w.clock + 1, log := w.log + [Committed]), b.replies, CommitTime(w.clock + 1))
    case None => after
  }

  // ----- Loops -----

  predicate IntegerKeys(entries: Entries) {
    forall i | 0 <= i < |entries| :: entries[i].0.Int?
  }

  /** The place of the first entry with the least key. */
  function Least(entries: Entries): (k: nat)
    requires entries != [] && IntegerKeys(entries)
    ensures k < |entries| && forall i | 0 <= i < |entries| :: entries[k].0.i <= entries[i].0.i
    ensures forall i | 0 <= i < k :: entries[k].0.i < entries[i].0.i
  {
    if |entries| == 1 then 0
    else
      var n := |entries| - 1;
      var k := Least(entries[..n]);
      assert forall i | 0 <= i < n :: entries[..n][i] == entries[i];
      if entries[n].0.i < entries[k].0.i then n else k
  }

  /** The entries by ascending key. */
  function Ascending(entries: Entries): Entries
    requires IntegerKeys(entries)
    decreases |entries|
  {
    if entries == [] then []
    else
      var k := Least(entries);
      [entries[k]] + Ascending(entries[..k] + entries[k + 1..])
  }

  /** A loop over integer keys runs in their order. Over other keys the order is open, so that an
      effect that outlives an iteration, or a return before other iterations, is refused. */
  ghost function Loop(x: string, entries: Entries, body: Stmts, at: Place, w: World, fuel: nat)
    : Run<(Option<Data>, World)>
    decreases fuel, body, 3 + |entries|
  {
    if IntegerKeys(entries) then
      SameLength(entries);
      Iterate(x, Ascending(entries), body, at, w, fuel)
    else
      var (returned, w1) :- Iterate(x, entries, body, at, w, fuel);
      :- Require(!Outlives(Since(w1.log, |w.log|), |w.vars|) && (|entries| > 1 ==> returned.None?));
      Got((returned, w1))
  }

  lemma {:induction false} SameLength(entries: Entries)
    requires IntegerKeys(entries)
    ensures |Ascending(entries)| == |entries|
    decreases |entries|
  {
    if entries != [] {
      var k := Least(entries);
      SameLength(entries[..k] + entries[k + 1..]);
    }
  }

  ghost function Iterate(x: string, entries: Entries, body: Stmts, at: Place, w: World, fuel: nat)
    : Run<(Option<Data>, World)>
    decreases fuel, body, 2 + |entries|
  {
    if |entries| == 0 then Got((None, w))
    else
      var (key, v) := entries[0];
      var inside := at.(scope := Bound(at.scope, x, v), keys := at.keys + [key]);
      var (returned, w1) :- Within(body, inside, w, fuel);
      if returned.Some? then Got((returned, w1)) else Iterate(x, entries[1..], body, at, w1, fuel)
  }

  // ----- Short circuits -----

  function Followed(es: Exprs, more: Exprs): Exprs {
    match es
    case NoExprs => more
    case MoreExprs(e, rest) => MoreExprs(e, Followed(rest, more))
  }

  /** A short-circuiting operator runs up to its first decisive operand: only the last that ran may be
      decisive, and then nothing that follows it runs. */
  lemma {:induction false} ShortCircuit(es: Exprs, decisive: bool, at: Place, w: World, fuel: nat, more: Exprs)
    requires Decide(es, decisive, at, w, fuel).Got?
    ensures var bs := Decide(es, decisive, at, w, fuel).value.0;
            && |bs| <= Length(es) && (forall i | 0 <= i < |bs| - 1 :: bs[i] != decisive)
            && (if decisive in bs then bs[|bs| - 1] == decisive else |bs| == Length(es))
            && (decisive in bs ==> Decide(Followed(es, more), decisive, at, w, fuel) == Decide(es, decisive, at, w,
                fuel))
    decreases es
  {
    hide Test;
    if es.MoreExprs? {
      var r := Test(es.head, at, w, fuel);
      if r.value.0 != decisive { ShortCircuit(es.tail, decisive, at, r.value.1, fuel, more); }
    }
  }
}
