/** The interpreter as it runs: one object whose fields every statement and expression updates.

    Each method leaves the fields exactly as the step of the same name in `InterpEval` describes,
    so what is proved of those steps and of the passes they make is proved of this object. */
module InterpMachine {
  import opened Options
  import opened InterpSyntax
  import opened InterpValues
  import opened InterpEval
  import opened InterpPasses
  import Step = InterpEval

  class Interp {
    var scopes: Env
    var cells: seq<Cell>
    var channels: map<string, Channel>
    var commitTime: int
    var clockKnown: bool
    const finals: Contents
    const fed: set<string>
    var waitedOn: set<string>
    var speculating: nat
    var speculatingAtCall: nat
    var lost: bool
    var txn: Option<TxnFrame>
    var loopKeys: seq<Value>
    var calls: seq<nat>
    var orderWatches: seq<Watch>
    ghost var carried: bool

    /** Where the next step runs. */
    ghost function Here(): Ctx
      reads this
    {
      Ctx(scopes, finals, fed, speculating, speculatingAtCall, loopKeys, calls)
    }

    /** What the steps so far have built. */
    ghost function Now(): State
      reads this
    {
      State(cells, channels, commitTime, clockKnown, waitedOn, lost, txn, orderWatches, carried)
    }

    constructor (p: Program, finals: Contents)
      ensures Here() == PassCtx(p, finals) && Now() == InitialState(p)
    {
      scopes := InitialEnv(p.channels);
      cells := [];
      channels := map k | k in ChannelSet(p) :: Channel([], None, if k in p.sites then p.sites[k] else []);
      commitTime, clockKnown := 0, true;
      this.finals := finals;
      fed := TextFed(p);
      waitedOn, lost := {}, false;
      speculating, speculatingAtCall := 0, 0;
      txn := None;
      loopKeys, calls, orderWatches := [], [], [];
      carried := false;
    }

    // ----- Cells and channels -----

    method Write(loc: nat, v: Value) returns (r: Res<()>)
      modifies this
      ensures Out(r, Now()) == Step.Write(old(Here()), old(Now()), loc, v)
      ensures Here() == old(Here())
    {
      if loc >= |cells| {
        return Err(Refused);
      }
      var cell := cells[loc];
      if speculating > 0 {
        cells := cells[loc := cell.(value := Pending)];
        if txn.Some? {
          txn := Some(txn.value.(uncertain := true));
        }
        return Ok(());
      }
      if cell.txn && txn.Some? {
        if cell.writer.Some? && cell.writer.value != txn.value.site {
          return Err(Refused);
        }
        cell := cell.(writer := Some(txn.value.site));
      }
      cells := cells[loc := cell.(value := v)];
      MarkWatches(loc);
      if txn.Some? {
        txn := Some(txn.value.(wrote := true));
      }
      r := Ok(());
    }

    /** A write to the cell `loc` outlives the loops that began after it was made. */
    method MarkWatches(loc: nat)
      modifies `orderWatches
      ensures orderWatches == MarkWritten(old(orderWatches), loc)
    {
      for i := 0 to |orderWatches|
        invariant |orderWatches| == |old(orderWatches)|
        invariant forall j | 0 <= j < i :: orderWatches[j] == MarkWritten(old(orderWatches), loc)[j]
        invariant orderWatches[i..] == old(orderWatches)[i..]
      {
        var watch := orderWatches[i];
        assert watch == old(orderWatches)[i];
        if loc < watch.cellsBefore {
          orderWatches := orderWatches[i := watch.(moved := true)];
        }
      }
    }

    /** A commit moves every running loop. */
    method MarkAll()
      modifies `orderWatches
      ensures orderWatches == MarkCommitted(old(orderWatches))
    {
      for i := 0 to |orderWatches|
        invariant |orderWatches| == |old(orderWatches)|
        invariant forall j | 0 <= j < i :: orderWatches[j] == MarkCommitted(old(orderWatches))[j]
        invariant orderWatches[i..] == old(orderWatches)[i..]
      {
        assert orderWatches[i] == old(orderWatches)[i];
        orderWatches := orderWatches[i := orderWatches[i].(moved := true)];
      }
    }

    method AssignMut(x: string, isTxn: bool, v: Value) returns (r: Res<Option<Value>>)
      modifies this
      ensures var d := Step.AssignMut(x, isTxn, v, old(Here()), old(Now()));
              r == d.r && Now() == d.st && Here() == old(Here()).In(d.env)
    {
      match Lookup(scopes, x) {
        case Some(Mut(loc)) =>
          var w := Write(loc, v);
          r := if w.Ok? then Ok(None) else Err(w.error);
        case _ =>
          scopes := Bound(x, Mut(|cells|), scopes);
          cells := cells + [Cell(x, v, isTxn, None)];
          r := Ok(None);
      }
    }

    method AssignKey(x: string, key: Value, v: Value) returns (r: Res<()>)
      modifies this
      ensures Out(r, Now()) == Step.AssignKey(x, key, v, old(Here()), old(Now()))
      ensures Here() == old(Here())
    {
      match Lookup(scopes, x) {
        case Some(Mut(loc)) =>
          if loc >= |cells| {
            return Err(Refused);
          }
          var current := cells[loc].value;
          if AnyPending([key, v, current]) {
            r := Write(loc, Pending);
          } else {
            var w := KeyWritten(current, key, v);
            if w.Err? {
              return Err(w.error);
            }
            r := Write(loc, w.value);
          }
        case _ => r := Err(Refused);
      }
    }

    method DefineAs(x: string, v: Value) returns (r: Res<Option<Value>>)
      modifies this
      ensures var d := Step.DefineAs(x, v, old(Here()), old(Now()));
              r == d.r && Now() == d.st && Here() == old(Here()).In(d.env)
    {
      r := Ok(None);
      match Lookup(scopes, x) {
        case Some(Chan(key)) =>
          var ch := if key in channels then channels[key] else FRESH;
          if speculating > 0 || ch.defined == Some(Pending) {
            channels := channels[key := ch.(defined := Some(Pending))];
          } else if ch.defined.Some? {
            r := Err(Refused);
          } else if key in fed {
            r := Err(Refused);
          } else if |ch.sites| > 0 {
            r := Err(FedAndDefined);
          } else {
            channels := channels[key := ch.(defined := Some(v))];
          }
        case _ => scopes := Bound(x, Val(v), scopes);
      }
    }

    method FeedInto(key: string, site: Site, v: Value)
      modifies this
      ensures Now() == Step.FeedInto(key, site, v, old(Here()), old(Now()))
      ensures Here() == old(Here())
    {
      var contributed := if speculating > 0 then Pending else v;
      var ch := if key in channels then channels[key] else FRESH;
      channels := channels[key := ch.(sites := AddSite(ch.sites, site))];
      if txn.Some? {
        var frame := txn.value;
        txn := Some(frame.(replies := frame.replies + [Reply(key, site, contributed)],
                           uncertain := frame.uncertain || speculating > 0));
      } else {
        Contribute(key, Contribution(site, TupleKey(loopKeys), contributed));
      }
    }

    method Contribute(key: string, c: Contribution)
      modifies `channels
      ensures Now() == Step.Contribute(old(Now()), key, c)
    {
      var ch := if key in channels then channels[key] else FRESH;
      channels := channels[key := ch.(fed := ch.fed + [c])];
    }

    // ----- Expressions -----

    method ReadName(x: string) returns (r: Res<Value>)
      modifies `waitedOn
      ensures Out(r, Now()) == Step.ReadName(x, Here(), old(Now()))
    {
      match Lookup(scopes, x) {
        case Some(Val(v)) => r := Ok(v);
        case Some(Mut(loc)) => r := ReadMut(x, loc);
        case Some(Chan(key)) =>
          if key in finals {
            return Ok(Known(finals[key]));
          }
          waitedOn := waitedOn + {key};
          r := Ok(Pending);
        case _ => r := Err(Refused);
      }
    }

    method ReadMut(x: string, loc: nat) returns (r: Res<Value>)
      ensures r == Step.ReadMut(Now(), x, loc)
    {
      if loc >= |cells| {
        r := Err(Refused);
      } else if cells[loc].txn && (txn.None? || x !in txn.value.writes) {
        r := Err(Refused);
      } else {
        r := Ok(cells[loc].value);
      }
    }

    method Eval(e: Expr, fuel: nat) returns (r: Res<Value>)
      modifies this
      ensures Out(r, Now()) == Step.Eval(e, old(Here()), old(Now()), fuel)
      ensures Here() == old(Here())
      decreases fuel, e, 2
    {
      hide Step.EvalRaw;
      r := EvalRaw(e, fuel);
      if r.Err? && speculating > 0 {
        lost := true;
        r := Ok(Pending);
      }
    }

    method EvalRaw(e: Expr, fuel: nat) returns (r: Res<Value>)
      modifies this
      ensures Out(r, Now()) == Step.EvalRaw(e, old(Here()), old(Now()), fuel)
      ensures Here() == old(Here())
      decreases fuel, e, 1
    {
      hide Step.Eval, Step.EvalAll, Step.EvalChain, Step.EvalBool, Step.EvalCall, Step.Comprehend, Step.RunBranches,
        Step.RunMatch, Step.ReadName;
      match e {
        case Literal(l) => r := Ok(LitValue(l));
        case Name(x) => r := ReadName(x);
        case Strict(op, args) =>
          var vs := EvalAll(args, fuel);
          r := if vs.Err? then Err(vs.error) else Apply(op, vs.value);
        case Compare(first, rest) =>
          r := Eval(first, fuel);
          if r.Ok? {
            r := EvalChain(r.value, rest, fuel);
          }
        case BoolOp(conj, operands) => r := EvalBool(conj, operands, fuel);
        case IfExp(_, _, _) => r := EvalIf(e, fuel);
        case Block(s) =>
          match s {
            case If(bs) =>
              var v := RunBranches(bs, Denote(false), fuel);
              r := Denotes(v);
            case Match(_, _) =>
              var v := RunMatch(s, Denote(false), fuel);
              r := Denotes(v);
            case _ => r := Err(Refused);
          }
        case Call(_, _, at) =>
          calls := calls + [at];
          r := EvalCall(e, fuel);
          calls := calls[..|calls| - 1];
        case ListComp(comp) =>
          var out := Comprehend(comp, [], fuel);
          r := if out.Err? then Err(out.error) else CollectionOf(out.value);
        case Lambda(_, _) => r := Err(Refused);
        case AwaitFinal(x) =>
          match Lookup(scopes, x) {
            case Some(Mut(loc)) => r := if loc < |cells| then Ok(cells[loc].value) else Err(Refused);
            case _ => r := Err(Refused);
          }
      }
    }

    method EvalIf(e: Expr, fuel: nat) returns (r: Res<Value>)
      requires e.IfExp?
      modifies this
      ensures Out(r, Now()) == Step.EvalRaw(e, old(Here()), old(Now()), fuel)
      ensures Here() == old(Here())
      decreases fuel, e, 0
    {
      hide Step.Eval;
      r := Eval(e.cond, fuel);
      if r.Err? {
        return;
      }
      if r.value.Pending? {
        speculating := speculating + 1;
        r := Eval(e.thn, fuel);
        r := Eval(e.els, fuel);
        speculating := speculating - 1;
        r := Ok(Pending);
      } else if r.value.d == Bool(true) {
        r := Eval(e.thn, fuel);
      } else if r.value.d == Bool(false) {
        r := Eval(e.els, fuel);
      } else {
        r := Err(Refused);
      }
    }

    method EvalAll(es: Exprs, fuel: nat) returns (r: Res<seq<Value>>)
      modifies this
      ensures Out(r, Now()) == Step.EvalAll(es, old(Here()), old(Now()), fuel)
      ensures Here() == old(Here())
      decreases fuel, es, 0
    {
      hide Step.Eval;
      ghost var all := Step.EvalAll(es, Here(), Now(), fuel);
      assert all.r.Ok? ==> [] + all.r.value == all.r.value;
      var done, rest := [], es;
      while rest.MoreExprs?
        invariant Here() == old(Here())
        invariant rest == es || rest < es
        invariant var left := Step.EvalAll(rest, Here(), Now(), fuel);
                  all == if left.r.Err? then left else Out(Ok(done + left.r.value), left.st)
        decreases rest
      {
        var v := Eval(rest.head, fuel);
        if v.Err? {
          return Err(v.error);
        }
        ghost var left := Step.EvalAll(rest.tail, Here(), Now(), fuel);
        assert left.r.Ok? ==> done + ([v.value] + left.r.value) == done + [v.value] + left.r.value;
        done, rest := done + [v.value], rest.tail;
      }
      assert done + [] == done;
      r := Ok(done);
    }

    method EvalChain(first: Value, rest: Comparisons, fuel: nat) returns (r: Res<Value>)
      modifies this
      ensures Out(r, Now()) == Step.EvalChain(first, rest, old(Here()), old(Now()), fuel)
      ensures Here() == old(Here())
      decreases fuel, rest, 0
    {
      hide Step.Eval, Step.SpecChain;
      var prev, left := first, rest;
      while left.MoreCmp?
        invariant Here() == old(Here())
        invariant left == rest || left < rest
        invariant Step.EvalChain(first, rest, old(Here()), old(Now()), fuel)
                  == Step.EvalChain(prev, left, Here(), Now(), fuel)
        decreases left
      {
        r := Eval(left.right, fuel);
        if r.Err? {
          return;
        }
        if prev.Pending? || r.value.Pending? {
          speculating := speculating + 1;
          SpecChain(left.tail, fuel);
          speculating := speculating - 1;
          return Ok(Pending);
        }
        var holds := Comparison(left.op, prev.d, r.value.d);
        if holds.Err? {
          return Err(holds.error);
        }
        if !holds.value {
          return Ok(Known(Bool(false)));
        }
        prev, left := r.value, left.tail;
      }
      r := Ok(Known(Bool(true)));
    }

    method SpecChain(rest: Comparisons, fuel: nat)
      requires speculating > 0
      modifies this
      ensures Now() == Step.SpecChain(rest, old(Here()), old(Now()), fuel)
      ensures Here() == old(Here())
      decreases fuel, rest, 0
    {
      hide Step.Eval;
      var left := rest;
      while left.MoreCmp?
        invariant Here() == old(Here())
        invariant left == rest || left < rest
        invariant Step.SpecChain(rest, old(Here()), old(Now()), fuel) == Step.SpecChain(left, Here(), Now(), fuel)
        decreases left
      {
        var _ := Eval(left.right, fuel);
        left := left.tail;
      }
    }

    method EvalBool(conj: bool, es: Exprs, fuel: nat) returns (r: Res<Value>)
      modifies this
      ensures Out(r, Now()) == Step.EvalBool(conj, es, old(Here()), old(Now()), fuel)
      ensures Here() == old(Here())
      decreases fuel, es, 0
    {
      hide Step.Eval, Step.EvalAll;
      var rest := es;
      while rest.MoreExprs?
        invariant Here() == old(Here())
        invariant rest == es || rest < es
        invariant Step.EvalBool(conj, es, old(Here()), old(Now()), fuel)
                  == Step.EvalBool(conj, rest, Here(), Now(), fuel)
        decreases rest
      {
        r := Eval(rest.head, fuel);
        if r.Err? {
          return;
        }
        if r.value.Pending? {
          speculating := speculating + 1;
          var _ := EvalAll(rest.tail, fuel);
          speculating := speculating - 1;
          return Ok(Pending);
        }
        if !r.value.d.Bool? {
          return Err(Refused);
        }
        if r.value.d.b != conj {
          return Ok(Known(Bool(!conj)));
        }
        rest := rest.tail;
      }
      r := Ok(Known(Bool(conj)));
    }

    // ----- Calls -----

    method EvalCall(e: Expr, fuel: nat) returns (r: Res<Value>)
      requires e.Call?
      modifies this
      ensures Out(r, Now()) == Step.EvalCall(e, old(Here()), old(Now()), fuel)
      ensures Here() == old(Here())
      decreases fuel, e, 0
    {
      hide Step.BlockValue, Step.BindArgs;
      match Lookup(scopes, e.f) {
        case Some(Fn(f)) =>
          if |f.params| != Length(e.args) {
            return Err(Refused);
          }
          var outer, atCall, live := scopes, speculatingAtCall, |cells|;
          var params := BindArgs(f.params, e.args, f.env, fuel);
          if params.Err? {
            return Err(params.error);
          }
          if fuel == 0 {
            return Err(Refused);
          }
          scopes, speculatingAtCall := params.value, speculating;
          r := BlockValue(f.body, true, fuel - 1);
          scopes, speculatingAtCall := outer, atCall;
          cells := cells[..live];
        case _ => r := Err(Refused);
      }
    }

    method BindArgs(params: seq<Param>, args: Exprs, env: Env, fuel: nat) returns (r: Res<Env>)
      requires |params| == Length(args)
      modifies this
      ensures Out(r, Now()) == Step.BindArgs(params, args, env, old(Here()), old(Now()), fuel)
      ensures Here() == old(Here())
      decreases fuel, args, 0
    {
      hide Step.BindingOf;
      var bound, left, rest := env, params, args;
      while rest.MoreExprs?
        invariant Here() == old(Here())
        invariant rest == args || rest < args
        invariant |left| == Length(rest)
        invariant Step.BindArgs(params, args, env, old(Here()), old(Now()), fuel)
                  == Step.BindArgs(left, rest, bound, Here(), Now(), fuel)
        decreases rest
      {
        var slot := BindArg(left[0], rest.head, fuel);
        if slot.Err? {
          return Err(slot.error);
        }
        bound, left, rest := Bound(left[0].name, slot.value, bound), left[1..], rest.tail;
      }
      r := Ok(bound);
    }

    /** What a parameter is bound to: the cell its argument names, or the argument's binding. */
    method BindArg(param: Param, e: Expr, fuel: nat) returns (r: Res<Slot>)
      modifies this
      ensures !param.byRef ==> Out(r, Now()) == Step.BindingOf(e, old(Here()), old(Now()), fuel)
      ensures param.byRef ==> Now() == old(Now())
      ensures param.byRef ==>
                var slot := if e.Name? then Lookup(old(Here()).env, e.x) else None;
                r == if slot.Some? && slot.value.Mut? then Ok(slot.value) else Err(Refused)
      ensures Here() == old(Here())
      decreases fuel, e, 4
    {
      hide Step.BindingOf;
      if !param.byRef {
        r := BindingOf(e, fuel);
        return;
      }
      match (if e.Name? then Lookup(scopes, e.x) else None) {
        case Some(Mut(loc)) => r := Ok(Mut(loc));
        case _ => r := Err(Refused);
      }
    }

    method BindingOf(e: Expr, fuel: nat) returns (r: Res<Slot>)
      modifies this
      ensures Out(r, Now()) == Step.BindingOf(e, old(Here()), old(Now()), fuel)
      ensures Here() == old(Here())
      decreases fuel, e, 3
    {
      hide Step.Eval;
      if e.Lambda? {
        return Ok(Fn(Function(ByValue(e.params), MoreStmts(ExprStmt(e.body), NoStmts), Capture(scopes, cells))));
      }
      var slot := if e.Name? then Lookup(scopes, e.x) else None;
      if slot.Some? && (slot.value.Fn? || slot.value.Chan?) {
        return Ok(slot.value);
      }
      var v := Eval(e, fuel);
      r := if v.Err? then Err(v.error) else Ok(Val(v.value));
    }

    // ----- Comprehensions -----

    method Comprehend(cp: Comp, keys: seq<Value>, fuel: nat) returns (r: Res<seq<(Value, Value)>>)
      modifies this
      ensures Out(r, Now()) == Step.Comprehend(cp, keys, old(Here()), old(Now()), fuel)
      ensures Here() == old(Here())
      decreases fuel, cp, 1
    {
      hide Step.Eval, Step.CompOver;
      match cp {
        case Element(e) =>
          var v := Eval(e, fuel);
          r := if v.Err? then Err(v.error) else Ok([(TupleKey(keys), v.value)]);
        case Guard(cond, rest) =>
          var v := Eval(cond, fuel);
          if v.Err? {
            return Err(v.error);
          }
          if v.value.Pending? {
            speculating := speculating + 1;
            r := Comprehend(rest, keys, fuel);
            speculating := speculating - 1;
            r := PendingEntry(r);
          } else if v.value.d == Bool(true) {
            r := Comprehend(rest, keys, fuel);
          } else if v.value.d == Bool(false) {
            r := Ok([]);
          } else {
            r := Err(Refused);
          }
        case Generator(_, iter, _) =>
          var source := Eval(iter, fuel);
          if source.Err? {
            return Err(source.error);
          }
          r := CompOver(source.value, cp, keys, fuel);
      }
    }

    static function PendingEntry(r: Res<seq<(Value, Value)>>): Res<seq<(Value, Value)>> {
      if r.Err? then Err(Escaped) else Ok(r.value + [(Pending, Pending)])
    }

    method CompOver(source: Value, cp: Comp, keys: seq<Value>, fuel: nat) returns (r: Res<seq<(Value, Value)>>)
      requires cp.Generator?
      modifies this
      ensures Out(r, Now()) == Step.CompOver(source, cp, keys, old(Here()), old(Now()), fuel)
      ensures Here() == old(Here())
      decreases fuel, cp, 0
    {
      hide Step.Comprehend, Step.CompLoop, Step.Settled;
      if source.Known? {
        if !source.d.Coll? {
          return Err(Refused);
        }
        r := CompLoop(cp.x, source.d.entries, cp.rest, keys, fuel);
        return;
      }
      var outer := scopes;
      scopes, speculating := BindVar(scopes, cp.x, Pending), speculating + 1;
      r := Comprehend(cp.rest, keys + [Pending], fuel);
      ghost var again := Step.Comprehend(cp.rest, keys + [Pending], Here(), Now(), fuel);
      scopes, speculating := outer, speculating - 1;
      r := PendingEntry(r);
      if !(again.r.Ok? && Settled(Now(), again.st)) {
        carried := true;
      }
    }

    method CompLoop(x: string, entries: seq<(Data, Data)>, body: Comp, keys: seq<Value>,
            fuel: nat) returns (r: Res<seq<(Value, Value)>>)
      modifies this
      ensures Out(r, Now()) == Step.CompLoop(x, entries, body, keys, old(Here()), old(Now()), fuel)
      ensures Here() == old(Here())
      decreases fuel, body, 2
    {
      hide Step.Comprehend;
      ghost var all := Step.CompLoop(x, entries, body, keys, Here(), Now(), fuel);
      assert entries[0..] == entries && entries[|entries|..] == [];
      assert all.r.Ok? ==> [] + all.r.value == all.r.value;
      var outer, out := scopes, [];
      for i := 0 to |entries|
        invariant Here() == old(Here())
        invariant var left := Step.CompLoop(x, entries[i..], body, keys, Here(), Now(), fuel);
                  all == if left.r.Err? then left else Out(Ok(out + left.r.value), left.st)
      {
        assert entries[i..][1..] == entries[i + 1..];
        scopes := BindVar(scopes, x, Known(entries[i].1));
        var found := Comprehend(body, keys + [Known(entries[i].0)], fuel);
        scopes := outer;
        if found.Err? {
          return found;
        }
        ghost var left := Step.CompLoop(x, entries[i + 1..], body, keys, Here(), Now(), fuel);
        assert left.r.Ok? ==> out + (found.value + left.r.value) == out + found.value + left.r.value;
        out := out + found.value;
      }
      assert out + [] == out;
      r := Ok(out);
    }

    // ----- Blocks, branches and arms -----

    method RunBody(body: Stmts, m: Mode, fuel: nat) returns (r: Res<Option<Value>>)
      modifies this
      ensures Out(r, Now()) == Step.RunBody(body, m, old(Here()), old(Now()), fuel)
      ensures Here() == old(Here())
      decreases fuel, body, 1
    {
      hide Step.ExecStmts, Step.BlockValue;
      var outer, live := scopes, |cells|;
      if m.Run? {
        r := ExecBlock(body, fuel);
      } else {
        var v := BlockValue(body, m.unit, fuel);
        r := if v.Ok? then Ok(Some(v.value)) else Err(v.error);
      }
      scopes := outer;
      cells := cells[..live];
    }

    method BlockValue(body: Stmts, unit: bool, fuel: nat) returns (r: Res<Value>)
      modifies this
      ensures Out(r, Now()) == Step.BlockValue(body, unit, old(Here()), old(Now()), fuel)
      ensures Here() == old(Here()).In(scopes)
      decreases fuel, body, 0
    {
      hide Step.Exec, Step.LastValue;
      if body.NoStmts? {
        return Err(Refused);
      }
      var rest := body;
      while rest.tail.MoreStmts?
        invariant rest.MoreStmts?
        invariant Here() == old(Here()).In(scopes)
        invariant rest == body || rest < body
        invariant Step.BlockValue(body, unit, old(Here()), old(Now()), fuel)
                  == Step.BlockValue(rest, unit, Here(), Now(), fuel)
        decreases rest
      {
        var v := Exec(rest.head, fuel);
        if v != Ok(None) {
          return Denotes(v);
        }
        rest := rest.tail;
      }
      r := LastValue(rest.head, unit, fuel);
    }

    method LastValue(s: Stmt, unit: bool, fuel: nat) returns (r: Res<Value>)
      modifies this
      ensures Out(r, Now()) == Step.LastValue(s, unit, old(Here()), old(Now()), fuel)
      ensures Here() == old(Here()).In(scopes)
      decreases fuel, s, 3
    {
      hide Step.Eval, Step.Exec, Step.RunMatch, Step.RunBranches;
      if s.ExprStmt? || s.Return? {
        r := Eval(s.e, fuel);
        return;
      }
      var v := Ok(None);
      if s.Match? {
        v := RunMatch(s, Denote(unit), fuel);
      } else if s.If? && HasElse(s.branches) {
        v := RunBranches(s.branches, Denote(unit), fuel);
      } else if unit {
        v := Exec(s, fuel);
      } else {
        v := Err(Refused);
      }
      r := Denotes(v);
    }

    method RunBranches(bs: Branches, m: Mode, fuel: nat) returns (r: Res<Option<Value>>)
      modifies this
      ensures Out(r, Now()) == Step.RunBranches(bs, m, old(Here()), old(Now()), fuel)
      ensures Here() == old(Here())
      decreases fuel, bs, 1
    {
      hide Step.Eval, Step.RunBody, Step.SpecConds, Step.SpecBodies;
      var left := bs;
      while left.Branch?
        invariant Here() == old(Here())
        invariant left == bs || left < bs
        invariant Step.RunBranches(bs, m, old(Here()), old(Now()), fuel)
                  == Step.RunBranches(left, m, Here(), Now(), fuel)
        decreases left
      {
        var v := Eval(left.cond, fuel);
        if v.Err? {
          return Err(v.error);
        }
        if v.value.Pending? {
          speculating := speculating + 1;
          SpecConds(left.rest, fuel);
          var ran := SpecBodies(left, m, fuel);
          speculating := speculating - 1;
          return if ran.Err? then Err(Escaped) else Ok(Nothing(m));
        }
        if v.value.d == Bool(true) {
          r := RunBody(left.body, m, fuel);
          return;
        }
        if v.value.d != Bool(false) {
          return Err(Refused);
        }
        left := left.rest;
      }
      if left.Else? {
        r := RunBody(left.body, m, fuel);
      } else {
        r := if m.Run? then Ok(None) else Err(Refused);
      }
    }

    method SpecConds(bs: Branches, fuel: nat)
      requires speculating > 0
      modifies this
      ensures Now() == Step.SpecConds(bs, old(Here()), old(Now()), fuel)
      ensures Here() == old(Here())
      decreases fuel, bs, 0
    {
      hide Step.Eval;
      var left := bs;
      while left.Branch?
        invariant Here() == old(Here())
        invariant left == bs || left < bs
        invariant Step.SpecConds(bs, old(Here()), old(Now()), fuel) == Step.SpecConds(left, Here(), Now(), fuel)
        decreases left
      {
        var _ := Eval(left.cond, fuel);
        left := left.rest;
      }
    }

    method SpecBodies(bs: Branches, m: Mode, fuel: nat) returns (r: Res<()>)
      requires speculating > 0
      modifies this
      ensures Out(r, Now()) == Step.SpecBodies(bs, m, old(Here()), old(Now()), fuel)
      ensures Here() == old(Here())
      decreases fuel, bs, 0
    {
      hide Step.RunBody;
      var left := bs;
      while !left.NoElse?
        invariant Here() == old(Here())
        invariant left == bs || left < bs
        invariant Step.SpecBodies(bs, m, old(Here()), old(Now()), fuel) == Step.SpecBodies(left, m, Here(), Now(), fuel)
        decreases left
      {
        var v := RunBody(left.body, m, fuel);
        if v.Err? {
          return Err(v.error);
        }
        if left.Else? {
          return Ok(());
        }
        left := left.rest;
      }
      r := Ok(());
    }

    method RunMatch(s: Stmt, m: Mode, fuel: nat) returns (r: Res<Option<Value>>)
      requires s.Match?
      modifies this
      ensures Out(r, Now()) == Step.RunMatch(s, m, old(Here()), old(Now()), fuel)
      ensures Here() == old(Here())
      decreases fuel, s, 0
    {
      hide Step.Eval, Step.SpecArms, Step.RunArms;
      var v := Eval(s.scrutinee, fuel);
      if v.Err? {
        return Err(v.error);
      }
      if v.value.Pending? {
        speculating := speculating + 1;
        var ran := SpecArms(s.arms, m, fuel);
        speculating := speculating - 1;
        return if ran.Err? then Err(Escaped) else Ok(Nothing(m));
      }
      if v.value.d.Variant? || v.value.d.Nominal? {
        r := RunArms(s.arms, v.value.d, m, fuel);
      } else {
        r := Err(Refused);
      }
    }

    method RunArms(arms: Arms, v: Data, m: Mode, fuel: nat) returns (r: Res<Option<Value>>)
      modifies this
      ensures Out(r, Now()) == Step.RunArms(arms, v, m, old(Here()), old(Now()), fuel)
      ensures Here() == old(Here())
      decreases fuel, arms, 0
    {
      hide Step.RunBody;
      var left := arms;
      while left.Arm?
        invariant Here() == old(Here()) && Now() == old(Now())
        invariant left == arms || left < arms
        invariant Step.RunArms(arms, v, m, Here(), Now(), fuel) == Step.RunArms(left, v, m, Here(), Now(), fuel)
        decreases left
      {
        var b := MatchPattern(left.pattern, v);
        if b.Err? {
          return Err(b.error);
        }
        if b.value.Some? {
          var outer := scopes;
          scopes := BindAll(scopes, b.value.value);
          r := RunBody(left.body, m, fuel);
          scopes := outer;
          return;
        }
        left := left.rest;
      }
      r := Err(Refused);
    }

    method SpecArms(arms: Arms, m: Mode, fuel: nat) returns (r: Res<()>)
      requires speculating > 0
      modifies this
      ensures Out(r, Now()) == Step.SpecArms(arms, m, old(Here()), old(Now()), fuel)
      ensures Here() == old(Here())
      decreases fuel, arms, 0
    {
      hide Step.RunBody;
      var outer, left := scopes, arms;
      while left.Arm?
        invariant Here() == old(Here())
        invariant left == arms || left < arms
        invariant Step.SpecArms(arms, m, old(Here()), old(Now()), fuel) == Step.SpecArms(left, m, Here(), Now(), fuel)
        decreases left
      {
        scopes := BindAll(scopes, PendingNames(left.pattern));
        var v := RunBody(left.body, m, fuel);
        scopes := outer;
        if v.Err? {
          return Err(v.error);
        }
        left := left.rest;
      }
      r := Ok(());
    }

    // ----- Statements -----

    method ExecBlock(ss: Stmts, fuel: nat) returns (r: Res<Option<Value>>)
      modifies this
      ensures var d := Step.ExecStmts(ss, old(Here()), old(Now()), fuel);
              r == d.r && Now() == d.st && Here() == old(Here()).In(d.env)
      decreases fuel, ss, 0
    {
      hide Step.Exec;
      var rest := ss;
      while rest.MoreStmts?
        invariant Here() == old(Here()).In(scopes)
        invariant rest == ss || rest < ss
        invariant Step.ExecStmts(ss, old(Here()), old(Now()), fuel) == Step.ExecStmts(rest, Here(), Now(), fuel)
        decreases rest
      {
        r := Exec(rest.head, fuel);
        if r != Ok(None) {
          return;
        }
        rest := rest.tail;
      }
      r := Ok(None);
    }

    method Exec(s: Stmt, fuel: nat) returns (r: Res<Option<Value>>)
      modifies this
      ensures var d := Step.Exec(s, old(Here()), old(Now()), fuel);
              r == d.r && Now() == d.st && Here() == old(Here()).In(d.env)
      decreases fuel, s, 2
    {
      hide Step.ExecRaw;
      r := ExecRaw(s, fuel);
      if speculating > 0 && (r.Err? || (r.value.Some? && speculating > speculatingAtCall)) {
        lost := true;
        r := Ok(None);
      }
    }

    method ExecRaw(s: Stmt, fuel: nat) returns (r: Res<Option<Value>>)
      modifies this
      ensures var d := Step.ExecRaw(s, old(Here()), old(Now()), fuel);
              r == d.r && Now() == d.st && Here() == old(Here()).In(d.env)
      decreases fuel, s, 1
    {
      hide Step.Eval, Step.EvalRaw, Step.RunBranches, Step.RunMatch, Step.ExecFor, Step.ExecWith, Step.BindingOf,
          Step.DefineAs, Step.AssignMut, Step.AssignKey, Step.FeedInto, Step.Write, Step.Sticky;
      match s {
        case Assign(x, e) =>
          var slot := BindingOf(e, fuel);
          if slot.Err? {
            return Err(slot.error);
          }
          scopes := Bound(x, slot.value, scopes);
          r := Ok(None);
        case MutAssign(x, isTxn, e) =>
          var v := Eval(e, fuel);
          if v.Err? {
            return Err(v.error);
          }
          r := AssignMut(x, isTxn, v.value);
        case KeyedAssign(_, _, _) => r := ExecKeyed(s, fuel);
        case AugAssign(_, _, _) => r := ExecAug(s, fuel);
        case Define(x, e) =>
          var v := Eval(e, fuel);
          if v.Err? {
            return Err(v.error);
          }
          r := DefineAs(x, v.value);
        case Feed(_, _, _) => r := ExecFeed(s, fuel);
        case If(bs) => r := RunBranches(bs, Run, fuel);
        case Match(_, _) => r := RunMatch(s, Run, fuel);
        case For(_, _, _) => r := ExecFor(s, fuel);
        case With(body, site) => r := ExecWith(body, site, fuel);
        case FunctionDef(x, params, body) =>
          scopes := Bound(x, Fn(Function(params, body, Capture(scopes, cells))), scopes);
          r := Ok(None);
        case Return(e) =>
          var v := Eval(e, fuel);
          r := if v.Ok? then Ok(Some(v.value)) else Err(v.error);
        case ReturnUnit => r := Ok(Some(Known(Unit)));
        case ExprStmt(e) =>
          var v := Eval(e, fuel);
          r := if v.Ok? then Ok(None) else Err(v.error);
        case Pass => r := Ok(None);
      }
    }

    method ExecFeed(s: Stmt, fuel: nat) returns (r: Res<Option<Value>>)
      requires s.Feed?
      modifies this
      ensures var d := Step.ExecRaw(s, old(Here()), old(Now()), fuel);
              r == d.r && Now() == d.st && Here() == old(Here()).In(d.env)
      decreases fuel, s, 0
    {
      hide Step.Eval, Step.FeedInto;
      match Lookup(scopes, s.x) {
        case Some(Chan(key)) =>
          var v := Eval(s.e, fuel);
          if v.Err? {
            return Err(v.error);
          }
          FeedInto(key, calls + [s.at], v.value);
          r := Ok(None);
        case _ => r := Err(Refused);
      }
    }

    method ExecKeyed(s: Stmt, fuel: nat) returns (r: Res<Option<Value>>)
      requires s.KeyedAssign?
      modifies this
      ensures var d := Step.ExecRaw(s, old(Here()), old(Now()), fuel);
              r == d.r && Now() == d.st && Here() == old(Here()).In(d.env)
      decreases fuel, s, 0
    {
      hide Step.Eval, Step.AssignKey;
      var v := Eval(s.e, fuel);
      if v.Err? {
        return Err(v.error);
      }
      var k := Eval(s.index, fuel);
      if k.Err? {
        return Err(k.error);
      }
      var w := AssignKey(s.x, k.value, v.value);
      r := if w.Ok? then Ok(None) else Err(w.error);
    }

    method ExecAug(s: Stmt, fuel: nat) returns (r: Res<Option<Value>>)
      requires s.AugAssign?
      modifies this
      ensures var d := Step.ExecRaw(s, old(Here()), old(Now()), fuel);
              r == d.r && Now() == d.st && Here() == old(Here()).In(d.env)
      decreases fuel, s, 0
    {
      hide Step.Eval, Step.Write;
      match Lookup(scopes, s.x) {
        case Some(Mut(loc)) =>
          var current := ReadMut(s.x, loc);
          if current.Err? {
            return Err(current.error);
          }
          var v := Eval(s.e, fuel);
          if v.Err? {
            return Err(v.error);
          }
          var next := Apply(Binary(s.op), [current.value, v.value]);
          if next.Err? {
            return Err(next.error);
          }
          var w := Write(loc, next.value);
          r := if w.Ok? then Ok(None) else Err(w.error);
        case _ => r := Err(Refused);
      }
    }

    // ----- Loops and blocks of writes -----

    method ExecFor(s: Stmt, fuel: nat) returns (r: Res<Option<Value>>)
      requires s.For?
      modifies this
      ensures Out(r, Now()) == Step.ExecFor(s, old(Here()), old(Now()), fuel)
      ensures Here() == old(Here())
      decreases fuel, s, 0, 1
    {
      hide Step.Eval, Step.LoopOver;
      var source := Eval(s.iter, fuel);
      if source.Err? {
        return Err(source.error);
      }
      r := LoopOver(source.value, s, fuel);
    }

    method LoopOver(source: Value, s: Stmt, fuel: nat) returns (r: Res<Option<Value>>)
      requires s.For?
      modifies this
      ensures Out(r, Now()) == Step.LoopOver(source, s, old(Here()), old(Now()), fuel)
      ensures Here() == old(Here())
      decreases fuel, s, 0, 0
    {
      hide Step.RunBody, Step.ForLoop, Step.Eval;
      if source.Pending? {
        PendingTurn(s, fuel);
        ghost var again := Step.RunBody(s.body, Run, PendingElement(Here(), s.x), Now(), fuel);
        carried := Recorded(Out(Ok(()), Now()), again).st.carried;
        return Ok(None);
      }
      if !source.d.Coll? {
        return Err(Refused);
      }
      var entries := source.d.entries;
      if Positional(entries) {
        r := ForLoop(s.x, SortEntries(entries), s.body, fuel);
        return;
      }
      var n := |orderWatches|;
      orderWatches := orderWatches + [Watch(|cells|, false)];
      r := ForLoop(s.x, entries, s.body, fuel);
      var moved := orderWatches[n].moved;
      orderWatches := orderWatches[..n];
      if r.Ok? && (moved || (|entries| > 1 && r.value.Some?)) {
        r := Err(Refused);
      }
    }

    /** The one turn of a loop over a pending collection. */
    method PendingTurn(s: Stmt, fuel: nat)
      requires s.For?
      modifies this
      ensures Now() == Step.RunBody(s.body, Run, PendingElement(old(Here()), s.x), old(Now()), fuel).st
      ensures Here() == old(Here())
      decreases fuel, s.body, 2
    {
      hide Step.RunBody;
      var outer := scopes;
      scopes, speculating, loopKeys := BindVar(scopes, s.x, Pending), speculating + 1, loopKeys + [Pending];
      var _ := RunBody(s.body, Run, fuel);
      scopes, speculating, loopKeys := outer, speculating - 1, loopKeys[..|loopKeys| - 1];
    }

    method ForLoop(x: string, entries: seq<(Data, Data)>, body: Stmts, fuel: nat) returns (r: Res<Option<Value>>)
      modifies this
      ensures Out(r, Now()) == Step.ForLoop(x, entries, body, old(Here()), old(Now()), fuel)
      ensures Here() == old(Here())
      decreases fuel, body, 2
    {
      hide Step.RunBody;
      var outer := scopes;
      for i := 0 to |entries|
        invariant Here() == old(Here())
        invariant Step.ForLoop(x, entries, body, old(Here()), old(Now()), fuel)
                  == Step.ForLoop(x, entries[i..], body, Here(), Now(), fuel)
      {
        assert entries[i..][1..] == entries[i + 1..];
        scopes, loopKeys := BindVar(scopes, x, Known(entries[i].1)), loopKeys + [Known(entries[i].0)];
        r := RunBody(body, Run, fuel);
        scopes, loopKeys := outer, loopKeys[..|loopKeys| - 1];
        if r != Ok(None) {
          return;
        }
      }
      r := Ok(None);
    }

    method ExecWith(body: Stmts, site: nat, fuel: nat) returns (r: Res<Option<Value>>)
      modifies this
      ensures Out(r, Now()) == Step.ExecWith(body, site, old(Here()), old(Now()), fuel)
      ensures Here() == old(Here())
      decreases fuel, body, 3
    {
      hide Step.RunBody, Step.Commit;
      if txn.Some? {
        return Err(Refused);
      }
      txn := Some(TxnFrame(site, false, WrittenIn(body), [], false));
      r := RunBody(body, Run, fuel);
      var frame := txn.value;
      txn := None;
      if r.Err? {
        return;
      }
      Commit(frame);
      r := Ok(None);
    }

    method Commit(frame: TxnFrame)
      modifies this
      ensures Now() == Step.Commit(frame, old(Now()))
      ensures Here() == old(Here())
    {
      var at, pending := Pending, frame.uncertain;
      if frame.uncertain {
        clockKnown := false;
      } else if !frame.wrote && |frame.replies| == 0 {
        return;
      } else {
        commitTime := commitTime + 1;
        MarkAll();
        if clockKnown {
          at := Known(CommitTime(commitTime));
        }
      }
      for i := 0 to |frame.replies|
        invariant Here() == old(Here())
        invariant Step.Commit(frame, old(Now())) == PushReplies(Now(), frame.replies[i..], at, pending)
      {
        var reply := frame.replies[i];
        assert frame.replies[i..][1..] == frame.replies[i + 1..];
        Contribute(reply.chan, Contribution(reply.site, at, if pending then Pending else reply.value));
      }
    }

    // ----- The end of a pass -----

    /** What each decided channel of `wanted` holds, unless the contributions of one clash. */
    method Collect(p: Program, wanted: set<string>) returns (found: Option<Contents>)
      ensures found.None? <==> Clashes(Now(), ChannelSet(p) * wanted)
      ensures found.Some? ==> found.value == map k | k in Built(p, Now()) && k in wanted :: Built(p, Now())[k]
    {
      hide Step.Complete;
      var contents: Contents := map[];
      for i := 0 to |p.channels|
        invariant forall j | 0 <= j < i && p.channels[j] in wanted ::
                    var c := Complete(ChannelOf(Now(), p.channels[j]));
                    c.Some? ==> c.value.Ok? && p.channels[j] in contents
        invariant forall k | k in contents :: k in Built(p, Now()) && k in wanted && contents[k] == Built(p, Now())[k]
      {
        var key := p.channels[i];
        if key in wanted {
          var c := Complete(if key in channels then channels[key] else FRESH);
          if c.Some? {
            if c.value.Err? {
              assert key in ChannelSet(p) * wanted;
              return None;
            }
            contents := contents[key := c.value.value];
          }
        }
      }
      found := Some(contents);
    }

    /** What the driver makes of the pass this object ran. */
    method Judged(p: Program, r: Res<Option<Value>>) returns (o: Outcome)
      ensures o == Judge(p, finals, Done(r, Now(), scopes))
    {
      if r.Err? {
        return Failed(r.error);
      }
      if waitedOn == {} {
        var sinks := Collect(p, p.sinks);
        return if sinks.None? then Failed(Refused) else Answer(sinks.value);
      }
      if lost {
        return Lost;
      }
      assert ChannelSet(p) * (ChannelSet(p) - finals.Keys) == ChannelSet(p) - finals.Keys;
      var completed := Collect(p, ChannelSet(p) - finals.Keys);
      if completed.None? {
        return Failed(Refused);
      }
      assert completed.value == Built(p, Now()) - finals.Keys;
      o := if completed.value == map[] then Cycle else Again(finals + completed.value);
    }
  }

  /** The driver: passes over the program until one waits on nothing, each a fresh object that
      reads what the earlier ones completed. It stops within one pass per channel, plus one. */
  method Run(p: Program, fuel: nat) returns (answer: Outcome, passes: nat)
    ensures answer == RunFrom(p, map[], fuel)
    ensures !answer.Again?
    ensures passes <= |ChannelSet(p)| + 1
  {
    var finals: Contents := map[];
    passes := 0;
    while true
      invariant finals.Keys <= ChannelSet(p)
      invariant RunFrom(p, map[], fuel) == RunFrom(p, finals, fuel)
      invariant passes <= |finals.Keys|
      decreases ChannelSet(p) - finals.Keys
    {
      Smaller(finals.Keys, ChannelSet(p));
      var interp := new Interp(p, finals);
      var r := interp.ExecBlock(p.body, fuel);
      var o := interp.Judged(p, r);
      passes := passes + 1;
      if !o.Again? {
        return o, passes;
      }
      AgainGrows(p, finals, RunPass(p, finals, fuel));
      ProperlySmaller(finals.Keys, o.finals.Keys);
      finals := o.finals;
    }
  }
}
