/** One pass of the reference interpreter, in program order.

    The constructs that run under a stack discipline (how many enclosing constructs are
    speculative, the loop keys, the calls, the scopes) are a context `Ctx`; what a pass changes is
    a `State`. Scopes are one list of bindings, innermost first. A mutable cell is named by its
    position among the live cells, and a scope's cells die with it. */
module InterpEval {
  import opened Options
  import opened InterpSyntax
  import opened InterpValues
  import ValueEquality

  datatype Slot = Val(v: Value) | Mut(loc: nat) | Fn(f: Function) | Chan(key: string)

  datatype Function = Function(params: seq<Param>, body: Stmts, env: Env)

  datatype Env = Empty | Bound(name: string, slot: Slot, rest: Env)

  /** A mutable variable's storage. `name` is what its declaration binds; no step reads it. */
  datatype Cell = Cell(name: string, value: Value, txn: bool, writer: Option<nat>)

  type Site = seq<nat>

  datatype Contribution = Contribution(site: Site, key: Value, value: Value)

  datatype Channel = Channel(fed: seq<Contribution>, defined: Option<Value>, sites: seq<Site>)

  datatype Reply = Reply(chan: string, site: Site, value: Value)

  datatype TxnFrame = TxnFrame(site: nat, wrote: bool, writes: set<string>, replies: seq<Reply>, uncertain: bool)

  /** A running loop over a collection not keyed by position. */
  datatype Watch = Watch(cellsBefore: nat, moved: bool)

  /** `carried` is a history variable no step reads: it records that a body run once for a pending
      collection would find more to do if it ran again. */
  datatype State = State(
    cells: seq<Cell>,
    chans: map<string, Channel>,
    commitTime: int,
    clockKnown: bool,
    waited: set<string>,
    lost: bool,
    txn: Option<TxnFrame>,
    watches: seq<Watch>,
    carried: bool)

  /** Where a step runs. `fed` holds the channels that have a feed site in the program text. */
  datatype Ctx = Ctx(
    env: Env,
    finals: map<string, Data>,
    fed: set<string>,
    spec: nat,
    specAtCall: nat,
    loopKeys: seq<Value>,
    calls: seq<nat>)
  {
    function Speculate(): Ctx {
      this.(spec := spec + 1)
    }

    function In(e: Env): Ctx {
      this.(env := e)
    }

    function AtKey(k: Value): Ctx {
      this.(loopKeys := loopKeys + [k])
    }
  }

  datatype Out<+T> = Out(r: Res<T>, st: State)

  /** What a statement leaves: whether it returned, the state, and the scope it may have added to. */
  datatype Done = Done(r: Res<Option<Value>>, st: State, env: Env)

  /** Whether a block runs for its effects, or for the value its last statement denotes; with
      `unit`, a last statement that denotes no value denotes unit. */
  datatype Mode = Run | Denote(unit: bool)

  /** Every cell of `a` is still there in `b`, under the same declaration. */
  predicate SameDeclared(a: seq<Cell>, b: seq<Cell>) {
    |a| <= |b| && forall i | 0 <= i < |a| :: b[i].name == a[i].name && b[i].txn == a[i].txn
  }

  /** What never unhappens during a pass, and the loops and block a step leaves running. */
  predicate Sticky(a: State, b: State) {
    && (a.lost ==> b.lost) && (a.carried ==> b.carried) && a.waited <= b.waited
    && |a.watches| == |b.watches| && |a.cells| <= |b.cells| && a.txn.Some? == b.txn.Some?
    && SameDeclared(a.cells, b.cells)
  }

  /** A step that leaves no cell of its own behind. */
  predicate Kept(a: State, b: State) {
    Sticky(a, b) && |a.cells| == |b.cells|
  }

  // ----- Scopes -----

  function Lookup(env: Env, x: string): Option<Slot> {
    match env
    case Empty => None
    case Bound(n, slot, rest) => if n == x then Some(slot) else Lookup(rest, x)
  }

  /** Bind a pattern's name; `_` binds nothing. */
  function BindVar(env: Env, x: string, v: Value): Env {
    if x == "_" then env else Bound(x, Val(v), env)
  }

  function BindAll(env: Env, binds: seq<(string, Value)>): Env
    decreases |binds|
  {
    if |binds| == 0 then env else BindAll(Bound(binds[0].0, Val(binds[0].1), env), binds[1..])
  }

  /** The scopes a function closes over: every value as it stands, but a `Txn` store by itself. */
  function Capture(env: Env, cells: seq<Cell>): Env {
    match env
    case Empty => Empty
    case Bound(n, slot, rest) =>
      var captured := match slot
        case Mut(loc) =>
          if loc < |cells| && !cells[loc].txn then Val(cells[loc].value) else slot
        case _ => slot;
      Bound(n, captured, Capture(rest, cells))
  }

  /** Drop the cells of the scopes left. */
  function Pop(st: State, live: nat): State
    requires live <= |st.cells|
  {
    st.(cells := st.cells[..live])
  }

  // ----- Channels -----

  const FRESH := Channel([], None, [])

  function ChannelOf(st: State, key: string): Channel {
    if key in st.chans then st.chans[key] else FRESH
  }

  function Contribute(st: State, key: string, c: Contribution): State {
    var ch := ChannelOf(st, key);
    st.(chans := st.chans[key := ch.(fed := ch.fed + [c])])
  }

  predicate SiteBefore(a: Site, b: Site) {
    if |a| == 0 || |b| == 0 then |a| < |b|
    else a[0] < b[0] || (a[0] == b[0] && SiteBefore(a[1..], b[1..]))
  }

  function InsertSite(s: Site, sorted: seq<Site>): seq<Site> {
    if |sorted| == 0 then [s]
    else if SiteBefore(s, sorted[0]) then [s] + sorted
    else [sorted[0]] + InsertSite(s, sorted[1..])
  }

  function SortSites(sites: seq<Site>): seq<Site> {
    if |sites| == 0 then [] else InsertSite(sites[0], SortSites(sites[1..]))
  }

  /** A site joins its channel when it first fires. */
  function AddSite(sites: seq<Site>, s: Site): seq<Site> {
    if s in sites then sites else SortSites(sites + [s])
  }

  function JoinSite(st: State, key: string, s: Site): State {
    var ch := ChannelOf(st, key);
    st.(chans := st.chans[key := ch.(sites := AddSite(ch.sites, s))])
  }

  predicate PendingContribution(c: Contribution) {
    c.key.Pending? || c.value.Pending?
  }

  /** Whether a channel holds a contribution, or a definition, that is pending. */
  predicate Undecided(ch: Channel) {
    || ch.defined == Some(Pending)
    || exists i | 0 <= i < |ch.fed| :: PendingContribution(ch.fed[i])
  }

  function SiteIndex(sites: seq<Site>, s: Site): nat {
    if |sites| == 0 || sites[0] == s then 0 else 1 + SiteIndex(sites[1..], s)
  }

  /** The entry a decided contribution makes: its key tagged by its site where there are several. */
  function EntryOf(sites: seq<Site>, c: Contribution): (Data, Data)
    requires !PendingContribution(c)
  {
    (if |sites| > 1 then Variant(ValueEquality.Digits(SiteIndex(sites, c.site)), c.key.d) else c.key.d, c.value.d)
  }

  function Entries(ch: Channel): seq<(Data, Data)>
    requires !Undecided(ch)
  {
    seq(|ch.fed|, i requires 0 <= i < |ch.fed| => EntryOf(ch.sites, ch.fed[i]))
  }

  /** What a decided channel holds: the value a `<<=` defined it as, or its contributions. */
  function ChannelValue(ch: Channel): Res<Data>
    requires !Undecided(ch)
  {
    if ch.defined.Some? then Ok(ch.defined.value.d)
    else Collection(Entries(ch))
  }

  /** The channel's contents, if this pass made them final. */
  function Complete(ch: Channel): Option<Res<Data>> {
    if Undecided(ch) then None else Some(ChannelValue(ch))
  }

  // ----- Cells -----

  function MarkWritten(ws: seq<Watch>, loc: nat): seq<Watch> {
    seq(|ws|, i requires 0 <= i < |ws| => if loc < ws[i].cellsBefore then ws[i].(moved := true) else ws[i])
  }

  function MarkCommitted(ws: seq<Watch>): seq<Watch> {
    seq(|ws|, i requires 0 <= i < |ws| => ws[i].(moved := true))
  }

  /** Write a cell. A write that may not happen leaves it pending, and the block around it
      undecided about whether it commits. */
  function Write(c: Ctx, st: State, loc: nat, v: Value): (o: Out<()>)
    ensures Kept(st, o.st)
  {
    if loc >= |st.cells| then Out(Err(Refused), st)
    else if c.spec > 0 then
      Out(Ok(()), st.(
        cells := st.cells[loc := st.cells[loc].(value := Pending)],
        txn := if st.txn.Some? then Some(st.txn.value.(uncertain := true)) else None))
    else
      var cell := st.cells[loc];
      var guarded := cell.txn && st.txn.Some?;
      if guarded && cell.writer.Some? && cell.writer.value != st.txn.value.site then Out(Err(Refused), st)
      else
        var writer := if guarded then Some(st.txn.value.site) else cell.writer;
        Out(Ok(()), st.(
          cells := st.cells[loc := Cell(cell.name, v, cell.txn, writer)],
          watches := MarkWritten(st.watches, loc),
          txn := if st.txn.Some? then Some(st.txn.value.(wrote := true)) else None))
  }

  /** Read a cell; a `Txn` cell only inside a block that writes it. */
  function ReadMut(st: State, x: string, loc: nat): Res<Value> {
    if loc >= |st.cells| then Err(Refused)
    else if st.cells[loc].txn && (st.txn.None? || x !in st.txn.value.writes) then Err(Refused)
    else Ok(st.cells[loc].value)
  }

  // ----- Expressions -----

  function LitValue(l: Lit): Value {
    match l
    case LitInt(i) => Known(Int(i))
    case LitStr(s) => Known(Str(s))
    case LitBool(b) => Known(Bool(b))
  }

  /** A name read as a value. A channel's is its final contents once an earlier pass completed it,
      and pending until then. */
  function ReadName(x: string, c: Ctx, st: State): (o: Out<Value>)
    ensures Kept(st, o.st)
  {
    match Lookup(c.env, x)
    case Some(Val(v)) => Out(Ok(v), st)
    case Some(Mut(loc)) => Out(ReadMut(st, x, loc), st)
    case Some(Chan(key)) =>
      if key in c.finals then Out(Ok(Known(c.finals[key])), st)
      else Out(Ok(Pending), st.(waited := st.waited + {key}))
    case _ => Out(Err(Refused), st)
  }

  /** Evaluate `e`. While speculating a failure is not the program's: it answers pending, and the
      pass records that it lost `e`'s effects. */
  function Eval(e: Expr, c: Ctx, st: State, fuel: nat): (o: Out<Value>)
    ensures Kept(st, o.st)
    ensures c.spec > 0 ==> o.r.Ok?
    decreases fuel, e, 2
  {
    var o := EvalRaw(e, c, st, fuel);
    if o.r.Err? && c.spec > 0 then Out(Ok(Pending), o.st.(lost := true)) else o
  }

  function EvalRaw(e: Expr, c: Ctx, st: State, fuel: nat): (o: Out<Value>)
    ensures Kept(st, o.st)
    decreases fuel, e, 1
  {
    match e
    case Literal(l) => Out(Ok(LitValue(l)), st)
    case Name(x) => ReadName(x, c, st)
    case Strict(op, args) =>
      var o := EvalAll(args, c, st, fuel);
      if o.r.Err? then Out(Err(o.r.error), o.st) else Out(Apply(op, o.r.value), o.st)
    case Compare(first, rest) =>
      var o := Eval(first, c, st, fuel);
      if o.r.Err? then o else EvalChain(o.r.value, rest, c, o.st, fuel)
    case BoolOp(conj, operands) => EvalBool(conj, operands, c, st, fuel)
    case IfExp(cond, thn, els) =>
      var o := Eval(cond, c, st, fuel);
      if o.r.Err? then o
      else if o.r.value.Pending? then
        var t := Eval(thn, c.Speculate(), o.st, fuel);
        var f := Eval(els, c.Speculate(), t.st, fuel);
        Out(Ok(Pending), f.st)
      else if o.r.value.d == Bool(true) then Eval(thn, c, o.st, fuel)
      else if o.r.value.d == Bool(false) then Eval(els, c, o.st, fuel)
      else Out(Err(Refused), o.st)
    case Block(s) =>
      match s {
        case If(bs) => Denoted(RunBranches(bs, Denote(false), c, st, fuel))
        case Match(_, _) => Denoted(RunMatch(s, Denote(false), c, st, fuel))
        case _ => Out(Err(Refused), st)
      }
    case Call(f, args, at) => EvalCall(e, c.(calls := c.calls + [at]), st, fuel)
    case ListComp(comp) =>
      var o := Comprehend(comp, [], c, st, fuel);
      if o.r.Err? then Out(Err(o.r.error), o.st) else Out(CollectionOf(o.r.value), o.st)
    case Lambda(_, _) => Out(Err(Refused), st)
    case AwaitFinal(x) =>
      match Lookup(c.env, x) {
        case Some(Mut(loc)) => Out(if loc < |st.cells| then Ok(st.cells[loc].value) else Err(Refused), st)
        case _ => Out(Err(Refused), st)
      }
  }

  /** The value a block run for its value denotes. */
  function Denotes(r: Res<Option<Value>>): Res<Value> {
    match r
    case Err(e) => Err(e)
    case Ok(Some(v)) => Ok(v)
    case Ok(None) => Ok(Known(Unit))
  }

  function Denoted(o: Out<Option<Value>>): (v: Out<Value>)
    ensures v.st == o.st
  {
    Out(Denotes(o.r), o.st)
  }

  /** The collection a comprehension's entries make: pending if any of them is. */
  function CollectionOf(out: seq<(Value, Value)>): Res<Value> {
    if exists i | 0 <= i < |out| :: out[i].0.Pending? || out[i].1.Pending? then Ok(Pending)
    else
      var r := Collection(seq(|out|, i requires 0 <= i < |out| => (out[i].0.d, out[i].1.d)));
      if r.Ok? then Ok(Known(r.value)) else Err(r.error)
  }

  /** Evaluate operands left to right. */
  function EvalAll(es: Exprs, c: Ctx, st: State, fuel: nat): (o: Out<seq<Value>>)
    ensures Kept(st, o.st)
    ensures c.spec > 0 ==> o.r.Ok?
    decreases fuel, es, 0
  {
    match es
    case NoExprs => Out(Ok([]), st)
    case MoreExprs(e, rest) =>
      var o := Eval(e, c, st, fuel);
      if o.r.Err? then Out(Err(o.r.error), o.st)
      else
        var p := EvalAll(rest, c, o.st, fuel);
        if p.r.Err? then p else Out(Ok([o.r.value] + p.r.value), p.st)
  }

  /** A comparison chain, which stops at the first comparison that fails. */
  function EvalChain(prev: Value, rest: Comparisons, c: Ctx, st: State, fuel: nat): (o: Out<Value>)
    ensures Kept(st, o.st)
    decreases fuel, rest, 0
  {
    match rest
    case NoCmp => Out(Ok(Known(Bool(true))), st)
    case MoreCmp(op, right, tail) =>
      var o := Eval(right, c, st, fuel);
      if o.r.Err? then o
      else if prev.Pending? || o.r.value.Pending? then
        Out(Ok(Pending), SpecChain(tail, c.Speculate(), o.st, fuel))
      else
        var b := Comparison(op, prev.d, o.r.value.d);
        if b.Err? then Out(Err(b.error), o.st)
        else if b.value then EvalChain(o.r.value, tail, c, o.st, fuel)
        else Out(Ok(Known(Bool(false))), o.st)
  }

  /** The comparands after an undecided comparison, for their effects. */
  function SpecChain(rest: Comparisons, c: Ctx, st: State, fuel: nat): (st': State)
    ensures Kept(st, st')
    decreases fuel, rest, 0
  {
    match rest
    case NoCmp => st
    case MoreCmp(_, right, tail) => SpecChain(tail, c, Eval(right, c, st, fuel).st, fuel)
  }

  /** A short-circuiting operator: an operand past the decisive one does not run. */
  function EvalBool(conj: bool, es: Exprs, c: Ctx, st: State, fuel: nat): (o: Out<Value>)
    ensures Kept(st, o.st)
    decreases fuel, es, 0
  {
    match es
    case NoExprs => Out(Ok(Known(Bool(conj))), st)
    case MoreExprs(e, rest) =>
      var o := Eval(e, c, st, fuel);
      if o.r.Err? then o
      else if o.r.value.Pending? then
        Out(Ok(Pending), EvalAll(rest, c.Speculate(), o.st, fuel).st)
      else if !o.r.value.d.Bool? then Out(Err(Refused), o.st)
      else if o.r.value.d.b != conj then Out(Ok(Known(Bool(!conj))), o.st)
      else EvalBool(conj, rest, c, o.st, fuel)
  }

  // ----- Calls -----

  /** A call of the function a name is bound to. */
  function EvalCall(e: Expr, c: Ctx, st: State, fuel: nat): (o: Out<Value>)
    requires e.Call?
    ensures Kept(st, o.st)
    decreases fuel, e, 0
  {
    match Lookup(c.env, e.f)
    case Some(Fn(f)) =>
      if |f.params| != Length(e.args) then Out(Err(Refused), st)
      else
        var o := BindArgs(f.params, e.args, f.env, c, st, fuel);
        if o.r.Err? then Out(Err(o.r.error), o.st)
        else if fuel == 0 then Out(Err(Refused), o.st)
        else
          var p := BlockValue(f.body, true, c.In(o.r.value).(specAtCall := c.spec), o.st, fuel - 1);
          Out(p.r, Pop(p.st, |st.cells|))
    case _ => Out(Err(Refused), st)
  }

  /** The callee's scopes: a `Mut` parameter aliases its argument's cell. */
  function BindArgs(params: seq<Param>, args: Exprs, env: Env, c: Ctx, st: State, fuel: nat): (o: Out<Env>)
    requires |params| == Length(args)
    ensures Kept(st, o.st)
    decreases fuel, args, 0
  {
    match args
    case NoExprs => Out(Ok(env), st)
    case MoreExprs(e, rest) =>
      if params[0].byRef then
        match (if e.Name? then Lookup(c.env, e.x) else None)
        case Some(Mut(loc)) => BindArgs(params[1..], rest, Bound(params[0].name, Mut(loc), env), c, st, fuel)
        case _ => Out(Err(Refused), st)
      else
        var o := BindingOf(e, c, st, fuel);
        if o.r.Err? then Out(Err(o.r.error), o.st)
        else BindArgs(params[1..], rest, Bound(params[0].name, o.r.value, env), c, o.st, fuel)
  }

  function ByValue(names: seq<string>): seq<Param> {
    seq(|names|, i requires 0 <= i < |names| => Param(names[i], false))
  }

  /** What a binding of `e` holds: the function or channel `e` names, or its value. */
  function BindingOf(e: Expr, c: Ctx, st: State, fuel: nat): (o: Out<Slot>)
    ensures Kept(st, o.st)
    decreases fuel, e, 3
  {
    if e.Lambda? then
      Out(Ok(Fn(Function(ByValue(e.params), MoreStmts(ExprStmt(e.body), NoStmts), Capture(c.env, st.cells)))), st)
    else
      match (if e.Name? then Lookup(c.env, e.x) else None)
      case Some(Fn(f)) => Out(Ok(Fn(f)), st)
      case Some(Chan(key)) => Out(Ok(Chan(key)), st)
      case _ =>
        var o := Eval(e, c, st, fuel);
        if o.r.Err? then Out(Err(o.r.error), o.st) else Out(Ok(Val(o.r.value)), o.st)
  }

  // ----- Comprehensions -----

  /** Walk a comprehension's clauses, collecting a key and an element for each surviving binding. */
  function Comprehend(cp: Comp, keys: seq<Value>, c: Ctx, st: State, fuel: nat): (o: Out<seq<(Value, Value)>>)
    ensures Kept(st, o.st)
    decreases fuel, cp, 1
  {
    match cp
    case Element(e) =>
      var o := Eval(e, c, st, fuel);
      if o.r.Err? then Out(Err(o.r.error), o.st) else Out(Ok([(TupleKey(keys), o.r.value)]), o.st)
    case Guard(cond, rest) =>
      var o := Eval(cond, c, st, fuel);
      if o.r.Err? then Out(Err(o.r.error), o.st)
      else if o.r.value.Pending? then
        WithPendingEntry(Comprehend(rest, keys, c.Speculate(), o.st, fuel))
      else if o.r.value.d == Bool(true) then Comprehend(rest, keys, c, o.st, fuel)
      else if o.r.value.d == Bool(false) then Out(Ok([]), o.st)
      else Out(Err(Refused), o.st)
    case Generator(x, iter, rest) =>
      var o := Eval(iter, c, st, fuel);
      if o.r.Err? then Out(Err(o.r.error), o.st) else CompOver(o.r.value, cp, keys, c, o.st, fuel)
  }

  /** A generator over `source`. A pending source has pending bindings, so the rest runs once,
      speculatively, over a pending one. */
  function CompOver(source: Value, cp: Comp, keys: seq<Value>, c: Ctx, st: State,
          fuel: nat): (o: Out<seq<(Value, Value)>>)
    requires cp.Generator?
    ensures Kept(st, o.st)
    decreases fuel, cp, 0
  {
    if source.Pending? then
      var once := Comprehend(cp.rest, keys + [Pending], PendingBinding(c, cp.x), st, fuel);
      var twice := Comprehend(cp.rest, keys + [Pending], PendingBinding(c, cp.x), once.st, fuel);
      Recorded(WithPendingEntry(once), twice)
    else if source.d.Coll? then CompLoop(cp.x, source.d.entries, cp.rest, keys, c, st, fuel)
    else Out(Err(Refused), st)
  }

  function PendingBinding(c: Ctx, x: string): Ctx {
    c.Speculate().In(BindVar(c.env, x, Pending))
  }

  function WithPendingEntry(o: Out<seq<(Value, Value)>>): (p: Out<seq<(Value, Value)>>)
    ensures p.st == o.st
  {
    if o.r.Err? then Out(Err(Escaped), o.st) else Out(Ok(o.r.value + [(Pending, Pending)]), o.st)
  }

  function CompLoop(x: string, entries: seq<(Data, Data)>, rest: Comp, keys: seq<Value>, c: Ctx, st: State, fuel: nat)
    : (o: Out<seq<(Value, Value)>>)
    ensures Kept(st, o.st)
    decreases fuel, rest, 2 + |entries|
  {
    if |entries| == 0 then Out(Ok([]), st)
    else
      var o := Comprehend(rest, keys + [Known(entries[0].0)], c.In(BindVar(c.env, x, Known(entries[0].1))), st, fuel);
      if o.r.Err? then o
      else
        var p := CompLoop(x, entries[1..], rest, keys, c, o.st, fuel);
        if p.r.Err? then p else Out(Ok(o.r.value + p.r.value), p.st)
  }

  // ----- Blocks -----

  /** Run `body` in a scope of its own. */
  function RunBody(body: Stmts, m: Mode, c: Ctx, st: State, fuel: nat): (o: Out<Option<Value>>)
    ensures Kept(st, o.st)
    ensures m.Run? && c.spec > 0 ==> o.r.Ok?
    ensures m.Run? && c.spec > c.specAtCall ==> o.r == Ok(None)
    decreases fuel, body, 1
  {
    match m
    case Run =>
      var d := ExecStmts(body, c, st, fuel);
      Out(d.r, Pop(d.st, |st.cells|))
    case Denote(unit) =>
      var o := BlockValue(body, unit, c, st, fuel);
      Out(if o.r.Ok? then Ok(Some(o.r.value)) else Err(o.r.error), Pop(o.st, |st.cells|))
  }

  /** The value a block denotes: its last statement's, or what it returned before. */
  function BlockValue(body: Stmts, unit: bool, c: Ctx, st: State, fuel: nat): (o: Out<Value>)
    ensures Sticky(st, o.st)
    decreases fuel, body, 0
  {
    match body
    case NoStmts => Out(Err(Refused), st)
    case MoreStmts(s, rest) =>
      if rest.NoStmts? then LastValue(s, unit, c, st, fuel)
      else
        var d := Exec(s, c, st, fuel);
        match d.r
        case Err(e) => Out(Err(e), d.st)
        case Ok(Some(v)) => Out(Ok(v), d.st)
        case Ok(None) => BlockValue(rest, unit, c.In(d.env), d.st, fuel)
  }

  function LastValue(s: Stmt, unit: bool, c: Ctx, st: State, fuel: nat): (o: Out<Value>)
    ensures Sticky(st, o.st)
    decreases fuel, s, 3
  {
    if s.ExprStmt? || s.Return? then Eval(s.e, c, st, fuel)
    else if s.Match? then Denoted(RunMatch(s, Denote(unit), c, st, fuel))
    else if s.If? && HasElse(s.branches) then Denoted(RunBranches(s.branches, Denote(unit), c, st, fuel))
    else if unit then
      var d := Exec(s, c, st, fuel);
      Denoted(Out(d.r, d.st))
    else Out(Err(Refused), st)
  }

  // ----- Branches and arms -----

  /** What running code for nothing answers: no return, or a pending value. */
  function Nothing(m: Mode): Option<Value> {
    if m.Run? then None else Some(Pending)
  }

  /** An `if` chain. A pending condition leaves undecided which of its branch and every later one
      runs: the later conditions and then all the bodies run speculatively. */
  function RunBranches(bs: Branches, m: Mode, c: Ctx, st: State, fuel: nat): (o: Out<Option<Value>>)
    ensures Kept(st, o.st)
    decreases fuel, bs, 1
  {
    match bs
    case NoElse => if m.Run? then Out(Ok(None), st) else Out(Err(Refused), st)
    case Else(body) => RunBody(body, m, c, st, fuel)
    case Branch(cond, body, rest) =>
      var o := Eval(cond, c, st, fuel);
      if o.r.Err? then Out(Err(o.r.error), o.st)
      else if o.r.value.Pending? then
        var conds := SpecConds(rest, c.Speculate(), o.st, fuel);
        var ran := SpecBodies(bs, m, c.Speculate(), conds, fuel);
        if ran.r.Err? then Out(Err(Escaped), ran.st) else Out(Ok(Nothing(m)), ran.st)
      else if o.r.value.d == Bool(true) then RunBody(body, m, c, o.st, fuel)
      else if o.r.value.d == Bool(false) then RunBranches(rest, m, c, o.st, fuel)
      else Out(Err(Refused), o.st)
  }

  function SpecConds(bs: Branches, c: Ctx, st: State, fuel: nat): (st': State)
    ensures Kept(st, st')
    decreases fuel, bs, 0
  {
    match bs
    case Branch(cond, _, rest) => SpecConds(rest, c, Eval(cond, c, st, fuel).st, fuel)
    case _ => st
  }

  function SpecBodies(bs: Branches, m: Mode, c: Ctx, st: State, fuel: nat): (o: Out<()>)
    ensures Kept(st, o.st)
    decreases fuel, bs, 0
  {
    match bs
    case NoElse => Out(Ok(()), st)
    case Else(body) =>
      var o := RunBody(body, m, c, st, fuel);
      Out(if o.r.Ok? then Ok(()) else Err(o.r.error), o.st)
    case Branch(_, body, rest) =>
      var o := RunBody(body, m, c, st, fuel);
      if o.r.Err? then Out(Err(o.r.error), o.st) else SpecBodies(rest, m, c, o.st, fuel)
  }

  function OneBinding(b: Option<string>, v: Data): seq<(string, Value)> {
    if b.Some? then [(b.value, Known(v))] else []
  }

  /** Each position of a constructor's tuple under the binder that names it. */
  function BindPositions(binders: seq<Option<string>>, i: nat, v: Data): Res<seq<(string, Value)>>
    requires i <= |binders|
    decreases |binders| - i
  {
    if i == |binders| then Ok([])
    else
      var rest := BindPositions(binders, i + 1, v);
      if rest.Err? || binders[i].None? then rest
      else if !v.Record? then Err(Refused)
      else
        var f := FieldOf(v.fields, Position(i));
        if f.Err? then Err(f.error) else Ok([(binders[i].value, Known(f.value))] + rest.value)
  }

  /** What an arm's pattern binds from a decided value, or `None` where it does not match. */
  function MatchPattern(p: Pattern, v: Data): Res<Option<seq<(string, Value)>>> {
    match (p, v)
    case (Wildcard, _) => Ok(Some([]))
    case (TagPattern(tag, b), Variant(t, payload)) =>
      Ok(if tag == t then Some(OneBinding(b, payload)) else None)
    case (CtorPattern(ty, ctor, bs), Nominal(t, k, arg)) =>
      if ty != t || ctor != k then Ok(None)
      else if |bs| == 0 then Ok(Some([]))
      else if |bs| == 1 then Ok(Some(OneBinding(bs[0], arg)))
      else if !arg.Record? then Err(Refused)
      else
        var r := BindPositions(bs, 0, arg);
        if r.Err? then Err(r.error) else Ok(Some(r.value))
    case _ => Err(Refused)
  }

  /** The names a pattern binds, each pending. */
  function PendingNames(p: Pattern): seq<(string, Value)> {
    match p
    case Wildcard => []
    case TagPattern(_, b) => if b.Some? then [(b.value, Pending)] else []
    case CtorPattern(_, _, bs) => PendingBinders(bs)
  }

  function PendingBinders(bs: seq<Option<string>>): seq<(string, Value)> {
    if |bs| == 0 then []
    else (if bs[0].Some? then [(bs[0].value, Pending)] else []) + PendingBinders(bs[1..])
  }

  function RunMatch(s: Stmt, m: Mode, c: Ctx, st: State, fuel: nat): (o: Out<Option<Value>>)
    requires s.Match?
    ensures Kept(st, o.st)
    decreases fuel, s, 0
  {
    var o := Eval(s.scrutinee, c, st, fuel);
    if o.r.Err? then Out(Err(o.r.error), o.st)
    else if o.r.value.Pending? then
      var ran := SpecArms(s.arms, m, c.Speculate(), o.st, fuel);
      if ran.r.Err? then Out(Err(Escaped), ran.st) else Out(Ok(Nothing(m)), ran.st)
    else if o.r.value.d.Variant? || o.r.value.d.Nominal? then RunArms(s.arms, o.r.value.d, m, c, o.st, fuel)
    else Out(Err(Refused), o.st)
  }

  function RunArms(arms: Arms, v: Data, m: Mode, c: Ctx, st: State, fuel: nat): (o: Out<Option<Value>>)
    ensures Kept(st, o.st)
    decreases fuel, arms, 0
  {
    match arms
    case NoArms => Out(Err(Refused), st)
    case Arm(p, body, rest) =>
      var b := MatchPattern(p, v);
      if b.Err? then Out(Err(b.error), st)
      else if b.value.None? then RunArms(rest, v, m, c, st, fuel)
      else RunBody(body, m, c.In(BindAll(c.env, b.value.value)), st, fuel)
  }

  function SpecArms(arms: Arms, m: Mode, c: Ctx, st: State, fuel: nat): (o: Out<()>)
    ensures Kept(st, o.st)
    decreases fuel, arms, 0
  {
    match arms
    case NoArms => Out(Ok(()), st)
    case Arm(p, body, rest) =>
      var o := RunBody(body, m, c.In(BindAll(c.env, PendingNames(p))), st, fuel);
      if o.r.Err? then Out(Err(o.r.error), o.st) else SpecArms(rest, m, c, o.st, fuel)
  }

  // ----- Statements -----

  function ExecStmts(ss: Stmts, c: Ctx, st: State, fuel: nat): (d: Done)
    ensures Sticky(st, d.st)
    ensures c.spec > 0 ==> d.r.Ok?
    ensures c.spec > c.specAtCall ==> d.r == Ok(None)
    decreases fuel, ss, 0
  {
    match ss
    case NoStmts => Done(Ok(None), st, c.env)
    case MoreStmts(s, rest) =>
      var d := Exec(s, c, st, fuel);
      if d.r == Ok(None) then ExecStmts(rest, c.In(d.env), d.st, fuel) else d
  }

  /** Run one statement. While speculating a failure is not the program's, and neither is a
      `return` under a speculative branch of its own function: the pass records that it lost the
      statement's effects. */
  function Exec(s: Stmt, c: Ctx, st: State, fuel: nat): (d: Done)
    ensures Sticky(st, d.st)
    ensures c.spec > 0 ==> d.r.Ok?
    ensures c.spec > c.specAtCall ==> d.r == Ok(None)
    decreases fuel, s, 2
  {
    var d := ExecRaw(s, c, st, fuel);
    if c.spec == 0 then d
    else if d.r.Err? || (d.r.value.Some? && c.spec > c.specAtCall) then
      Done(Ok(None), d.st.(lost := true), d.env)
    else d
  }

  function Quiet(o: Out<()>, env: Env): (d: Done)
    ensures d.st == o.st
  {
    Done(if o.r.Ok? then Ok(None) else Err(o.r.error), o.st, env)
  }

  function ExecRaw(s: Stmt, c: Ctx, st: State, fuel: nat): (d: Done)
    ensures Sticky(st, d.st)
    decreases fuel, s, 1
  {
    match s
    case Assign(x, e) =>
      var o := BindingOf(e, c, st, fuel);
      if o.r.Err? then Done(Err(o.r.error), o.st, c.env) else Done(Ok(None), o.st, Bound(x, o.r.value, c.env))
    case MutAssign(x, txn, e) =>
      var o := Eval(e, c, st, fuel);
      if o.r.Err? then Done(Err(o.r.error), o.st, c.env)
      else AssignMut(x, txn, o.r.value, c, o.st)
    case KeyedAssign(x, index, e) =>
      var o := Eval(e, c, st, fuel);
      if o.r.Err? then Done(Err(o.r.error), o.st, c.env)
      else
        var k := Eval(index, c, o.st, fuel);
        if k.r.Err? then Done(Err(k.r.error), k.st, c.env)
        else Quiet(AssignKey(x, k.r.value, o.r.value, c, k.st), c.env)
    case AugAssign(x, op, e) =>
      match Lookup(c.env, x) {
        case Some(Mut(loc)) =>
          var cur := ReadMut(st, x, loc);
          if cur.Err? then Done(Err(cur.error), st, c.env)
          else
            var o := Eval(e, c, st, fuel);
            if o.r.Err? then Done(Err(o.r.error), o.st, c.env)
            else
              var v := Apply(Binary(op), [cur.value, o.r.value]);
              if v.Err? then Done(Err(v.error), o.st, c.env) else Quiet(Write(c, o.st, loc, v.value), c.env)
        case _ => Done(Err(Refused), st, c.env)
      }
    case Define(x, e) =>
      var o := Eval(e, c, st, fuel);
      if o.r.Err? then Done(Err(o.r.error), o.st, c.env)
      else DefineAs(x, o.r.value, c, o.st)
    case Feed(x, e, at) =>
      match Lookup(c.env, x) {
        case Some(Chan(key)) =>
          var o := Eval(e, c, st, fuel);
          if o.r.Err? then Done(Err(o.r.error), o.st, c.env)
          else Done(Ok(None), FeedInto(key, c.calls + [at], o.r.value, c, o.st), c.env)
        case _ => Done(Err(Refused), st, c.env)
      }
    case If(bs) => Scoped(RunBranches(bs, Run, c, st, fuel), c.env)
    case Match(_, _) => Scoped(RunMatch(s, Run, c, st, fuel), c.env)
    case For(_, _, _) => Scoped(ExecFor(s, c, st, fuel), c.env)
    case With(body, site) => Scoped(ExecWith(body, site, c, st, fuel), c.env)
    case FunctionDef(x, params, body) =>
      Done(Ok(None), st, Bound(x, Fn(Function(params, body, Capture(c.env, st.cells))), c.env))
    case Return(e) =>
      var o := Eval(e, c, st, fuel);
      Done(if o.r.Ok? then Ok(Some(o.r.value)) else Err(o.r.error), o.st, c.env)
    case ReturnUnit => Done(Ok(Some(Known(Unit))), st, c.env)
    case ExprStmt(e) =>
      var o := Eval(e, c, st, fuel);
      Done(if o.r.Ok? then Ok(None) else Err(o.r.error), o.st, c.env)
    case Pass => Done(Ok(None), st, c.env)
  }

  /** A statement that leaves the scope it ran in as it was. */
  function Scoped(o: Out<Option<Value>>, env: Env): (d: Done)
    ensures d.st == o.st
  {
    Done(o.r, o.st, env)
  }

  /** `x := v`: write the variable `x` resolves to, or make one. */
  function AssignMut(x: string, txn: bool, v: Value, c: Ctx, st: State): (d: Done)
    ensures Sticky(st, d.st)
  {
    match Lookup(c.env, x)
    case Some(Mut(loc)) => Quiet(Write(c, st, loc, v), c.env)
    case _ => Done(Ok(None), st.(cells := st.cells + [Cell(x, v, txn, None)]), Bound(x, Mut(|st.cells|), c.env))
  }

  /** `x[key] := v`: last write wins per key. */
  function AssignKey(x: string, key: Value, v: Value, c: Ctx, st: State): (o: Out<()>)
    ensures Kept(st, o.st)
  {
    match Lookup(c.env, x)
    case Some(Mut(loc)) =>
      if loc >= |st.cells| then Out(Err(Refused), st)
      else
        var current := st.cells[loc].value;
        if AnyPending([key, v, current]) then Write(c, st, loc, Pending)
        else
          var w := KeyWritten(current, key, v);
          if w.Err? then Out(Err(w.error), st) else Write(c, st, loc, w.value)
    case _ => Out(Err(Refused), st)
  }

  function KeyWritten(current: Value, key: Value, v: Value): Res<Value> {
    if current.Pending? || key.Pending? || v.Pending? || !current.d.Coll? then Err(Refused)
    else
      var r := Collection(WithEntry(current.d.entries, key.d, v.d));
      if r.Ok? then Ok(Known(r.value)) else Err(r.error)
  }

  /** `x <<= v`. One that may not run, or one after one that may not have, leaves the channel's
      value undecided rather than defined twice. One to a channel with a feed site is refused, for
      a site in the program text or for one that joined when a call reached it. */
  function DefineAs(x: string, v: Value, c: Ctx, st: State): (d: Done)
    ensures Sticky(st, d.st)
  {
    match Lookup(c.env, x)
    case Some(Chan(key)) =>
      var ch := ChannelOf(st, key);
      if c.spec > 0 || ch.defined == Some(Pending) then
        Done(Ok(None), st.(chans := st.chans[key := ch.(defined := Some(Pending))]), c.env)
      else if ch.defined.Some? then Done(Err(Refused), st, c.env)
      else if key in c.fed then Done(Err(Refused), st, c.env)
      else if |ch.sites| > 0 then Done(Err(FedAndDefined), st, c.env)
      else Done(Ok(None), st.(chans := st.chans[key := ch.(defined := Some(v))]), c.env)
    case _ => Done(Ok(None), st, Bound(x, Val(v), c.env))
  }

  /** `x << v`. A contribution that may not happen is pending whatever its value. Inside a block
      it waits for the block's commit time. */
  function FeedInto(key: string, site: Site, v: Value, c: Ctx, st: State): (st': State)
    ensures Kept(st, st')
  {
    var contributed := if c.spec > 0 then Pending else v;
    var joined := JoinSite(st, key, site);
    match st.txn
    case Some(frame) =>
      joined.(txn := Some(frame.(
        replies := frame.replies + [Reply(key, site, contributed)],
        uncertain := frame.uncertain || c.spec > 0)))
    case None => Contribute(joined, key, Contribution(site, TupleKey(c.loopKeys), contributed))
  }

  // ----- Loops -----

  function InsertEntry(e: (Data, Data), sorted: seq<(Data, Data)>): seq<(Data, Data)>
    requires e.0.Int? && forall i | 0 <= i < |sorted| :: sorted[i].0.Int?
    ensures forall i | 0 <= i < |InsertEntry(e, sorted)| :: InsertEntry(e, sorted)[i].0.Int?
  {
    if |sorted| == 0 then [e]
    else if e.0.i <= sorted[0].0.i then [e] + sorted
    else [sorted[0]] + InsertEntry(e, sorted[1..])
  }

  predicate Positional(entries: seq<(Data, Data)>) {
    forall i | 0 <= i < |entries| :: entries[i].0.Int?
  }

  /** The entries in ascending key order. */
  function SortEntries(entries: seq<(Data, Data)>): (r: seq<(Data, Data)>)
    requires Positional(entries)
    ensures Positional(r)
  {
    if |entries| == 0 then [] else InsertEntry(entries[0], SortEntries(entries[1..]))
  }

  function ExecFor(s: Stmt, c: Ctx, st: State, fuel: nat): (o: Out<Option<Value>>)
    requires s.For?
    ensures Kept(st, o.st)
    decreases fuel, s, 0, 1
  {
    var o := Eval(s.iter, c, st, fuel);
    if o.r.Err? then Out(Err(o.r.error), o.st) else LoopOver(o.r.value, s, c, o.st, fuel)
  }

  /** Where a loop's body runs for a pending element, under a pending key. */
  function PendingElement(c: Ctx, x: string): Ctx {
    c.Speculate().AtKey(Pending).In(BindVar(c.env, x, Pending))
  }

  function Watched(st: State): State {
    st.(watches := st.watches + [Watch(|st.cells|, false)])
  }

  /** A loop over `source`. A pending collection has pending keys and elements, so the body runs
      once, speculatively. Integer keys run in ascending order; any other keys run watched. */
  function LoopOver(source: Value, s: Stmt, c: Ctx, st: State, fuel: nat): (o: Out<Option<Value>>)
    requires s.For?
    ensures Kept(st, o.st)
    decreases fuel, s, 0, 0
  {
    if source.Pending? then
      var once := RunBody(s.body, Run, PendingElement(c, s.x), st, fuel);
      var twice := RunBody(s.body, Run, PendingElement(c, s.x), once.st, fuel);
      Recorded(Out(Ok(None), once.st), twice)
    else if !source.d.Coll? then Out(Err(Refused), st)
    else if Positional(source.d.entries) then ForLoop(s.x, SortEntries(source.d.entries), s.body, c, st, fuel)
    else
      Unwatched(ForLoop(s.x, source.d.entries, s.body, c, Watched(st), fuel), |st.watches|, |source.d.entries| > 1)
  }

  /** End a watched loop: refused if an iteration had an effect that outlives it, or returned
      while another might have returned first. */
  function Unwatched(o: Out<Option<Value>>, n: nat, several: bool): (p: Out<Option<Value>>)
    requires n < |o.st.watches|
    ensures Kept(o.st.(watches := o.st.watches[..n]), p.st)
  {
    var moved := o.st.watches[n].moved;
    var st := o.st.(watches := o.st.watches[..n]);
    if o.r.Ok? && (moved || (several && o.r.value.Some?)) then Out(Err(Refused), st) else Out(o.r, st)
  }

  function ForLoop(x: string, entries: seq<(Data, Data)>, body: Stmts, c: Ctx, st: State,
          fuel: nat): (o: Out<Option<Value>>)
    ensures Kept(st, o.st)
    decreases fuel, body, 2 + |entries|
  {
    if |entries| == 0 then Out(Ok(None), st)
    else
      var c' := c.AtKey(Known(entries[0].0)).In(BindVar(c.env, x, Known(entries[0].1)));
      var o := RunBody(body, Run, c', st, fuel);
      if o.r == Ok(None) then ForLoop(x, entries[1..], body, c, o.st, fuel) else o
  }

  /** Whether a second run that led from `a` to `b` found nothing the first had not. */
  predicate Settled(a: State, b: State) {
    && !b.lost && !b.carried
    && a.cells == b.cells
    && (forall k | k in a.chans.Keys + b.chans.Keys :: ChannelSettled(ChannelOf(a, k), ChannelOf(b, k)))
    && a.clockKnown == b.clockKnown && a.commitTime == b.commitTime
    && a.watches == b.watches
    && TxnSettled(a.txn, b.txn)
  }

  predicate EndsPending(fed: seq<Contribution>) {
    |fed| > 0 && PendingContribution(fed[|fed| - 1])
  }

  predicate ChannelSettled(a: Channel, b: Channel) {
    a == b || (EndsPending(a.fed) && a.defined == b.defined)
  }

  function RepliedTo(replies: seq<Reply>): set<string> {
    set i | 0 <= i < |replies| :: replies[i].chan
  }

  function PendingReplies(replies: seq<Reply>): set<string> {
    set i | 0 <= i < |replies| && replies[i].value.Pending? :: replies[i].chan
  }

  predicate TxnSettled(a: Option<TxnFrame>, b: Option<TxnFrame>) {
    || a == b
    || (&& a.Some? && b.Some? && a.value.uncertain && b.value.uncertain
        && a.value.site == b.value.site && a.value.writes == b.value.writes
        && RepliedTo(b.value.replies) <= RepliedTo(a.value.replies)
        && PendingReplies(b.value.replies) <= PendingReplies(a.value.replies))
  }

  /** Record in `o` whether the run it made for a pending collection would find more again. */
  function Recorded<T, U>(o: Out<T>, again: Out<U>): (p: Out<T>)
    ensures Kept(o.st, p.st) && p.r == o.r
  {
    if again.r.Ok? && Settled(o.st, again.st) then o else Out(o.r, o.st.(carried := true))
  }

  // ----- Blocks of writes -----

  function PushReplies(st: State, replies: seq<Reply>, at: Value, pending: bool): (st': State)
    ensures Kept(st, st')
    ensures st' == st.(chans := st'.chans)
    decreases |replies|
  {
    if |replies| == 0 then st
    else
      var r := replies[0];
      PushReplies(
        Contribute(st, r.chan, Contribution(r.site, at, if pending then Pending else r.value)),
        replies[1..], at, pending)
  }

  /** A `with begin():` block: one commit at the next commit time, or none if it denied. */
  function ExecWith(body: Stmts, site: nat, c: Ctx, st: State, fuel: nat): (o: Out<Option<Value>>)
    ensures Kept(st, o.st)
    decreases fuel, body, 3
  {
    if st.txn.Some? then Out(Err(Refused), st)
    else
      var frame := TxnFrame(site, false, WrittenIn(body), [], false);
      var o := RunBody(body, Run, c, st.(txn := Some(frame)), fuel);
      var after := o.st.(txn := None);
      if o.r.Err? then Out(Err(o.r.error), after)
      else Out(Ok(None), Commit(o.st.txn.value, after))
  }

  function Commit(frame: TxnFrame, st: State): (st': State)
    ensures Kept(st, st')
  {
    if frame.uncertain then
      PushReplies(st.(clockKnown := false), frame.replies, Pending, true)
    else if !frame.wrote && |frame.replies| == 0 then st
    else
      var st1 := st.(commitTime := st.commitTime + 1, watches := MarkCommitted(st.watches));
      var at := if st.clockKnown then Known(CommitTime(st1.commitTime)) else Pending;
      PushReplies(st1, frame.replies, at, false)
  }
}
