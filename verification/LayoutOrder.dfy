/** The starts of a layout run's output never decrease, so a binary search over it finds what a
    scan would. */
module LayoutOrder {
  import opened Options
  import opened LayoutMachine
  import opened LayoutNesting

  ghost predicate Ascending(ts: seq<Lexeme>) {
    forall i, j :: 0 <= i <= j < |ts| ==> ts[i].span.start <= ts[j].span.start
  }

  /** Every token starts at or before `p`. */
  ghost predicate UpTo(ts: seq<Lexeme>, p: nat) {
    forall i :: 0 <= i < |ts| ==> ts[i].span.start <= p
  }

  /** A token at `x.1` may go before the one at `x.0`. */
  ghost predicate Fits(ts: seq<Lexeme>, x: (nat, nat)) {
    && (forall i :: 0 <= i < |ts| && i < x.0 ==> ts[i].span.start <= x.1)
    && (forall i :: x.0 <= i < |ts| ==> x.1 <= ts[i].span.start)
  }

  ghost predicate AllFit(ts: seq<Lexeme>, ins: seq<(nat, nat)>) {
    forall i :: 0 <= i < |ins| ==> Fits(ts, ins[i])
  }

  /** The output between lines. */
  ghost predicate RestOrder(s: State, p: nat) {
    Ascending(s.out) && UpTo(s.out, p) && AllFit(s.out, s.valueIndents)
  }

  /** The output within a line, whose next token starts at or after `p`. */
  ghost predicate LineOrder(s: State, p: nat) {
    RestOrder(s, p) && s.lineHead.0 <= |s.out| && Fits(s.out, s.lineHead) && s.lineHead.1 <= p
  }

  /** A newline character that the text up to `e` holds. */
  ghost predicate Break(source: string, d: Span, e: nat) {
    d.start < d.end <= e <= |source| && source[d.end - 1] == '\n'
  }

  /** The state after tokens that end by `e`. */
  ghost predicate Order(source: string, s: State, e: nat) {
    && e <= |source|
    && (if s.atLineStart then RestOrder(s, e) && (s.out != [] ==> Break(source, Last(s.out).span, e))
        else LineOrder(s, e))
    && (s.droppedNewline.Some? ==> Break(source, s.droppedNewline.value, e) && LineOrder(s,
        s.droppedNewline.value.start))
  }

  lemma {:induction false} LineAfterBreak(source: string, d: Span, at: nat)
    requires Break(source, d, at)
    ensures LineOf(source, at) >= d.end
    decreases at
  {
    if at > d.end && source[at - 1] != '\n' { LineAfterBreak(source, d, at - 1); }
  }

  // ----- Adding a token -----

  lemma RestPush(s: State, t: Lexeme, p: nat)
    requires RestOrder(s, t.span.start) && Placed(s.valueIndents, |s.out|) && t.span.start <= p
    ensures RestOrder(s.(out := s.out + [t]), p)
  {
    var out := s.out + [t];
    forall i | 0 <= i < |s.valueIndents|
      ensures Fits(out, s.valueIndents[i])
    {
      assert Fits(s.out, s.valueIndents[i]);
      assert s.valueIndents[i].1 <= s.out[s.valueIndents[i].0].span.start;
    }
  }

  lemma LinePush(s: State, t: Lexeme, p: nat)
    requires LineOrder(s, t.span.start) && Placed(s.valueIndents, |s.out|) && t.span.start <= p
    ensures LineOrder(s.(out := s.out + [t]), p)
  {
    RestPush(s, t, p);
  }

  lemma Later(s: State, p: nat, q: nat)
    requires RestOrder(s, p) && p <= q
    ensures RestOrder(s, q) && (LineOrder(s, p) ==> LineOrder(s, q))
  {
  }

  lemma {:induction false} CloseEarlyOrder(at: nat, s: State)
    requires LineOrder(s, at) && Placed(s.valueIndents, |s.out|)
    ensures var r := CloseEarly(at, s); LineOrder(r, at) && Placed(r.valueIndents, |r.out|)
    decreases |s.brackets|
  {
    if s.brackets != [] && Last(s.brackets).ClosesEarly() {
      LinePush(s, Lexeme(Close(Last(s.brackets).kind), At(at)), at);
      CloseEarlyOrder(at, GiveUp(at, s));
    }
  }

  lemma {:induction false} CloseDownOrder(n: nat, at: nat, s: State)
    requires LineOrder(s, at) && Placed(s.valueIndents, |s.out|)
    ensures var r := CloseDown(n, at, s); LineOrder(r, at) && Placed(r.valueIndents, |r.out|)
    decreases |s.brackets|
  {
    if |s.brackets| > n {
      LinePush(s, Lexeme(Close(Last(s.brackets).kind), At(at)), at);
      CloseDownOrder(n, at, GiveUp(at, s));
    }
  }

  lemma {:induction false} CloseLevelsOrder(indent: nat, at: nat, s: State)
    requires RestOrder(s, at) && Placed(s.valueIndents, |s.out|)
    ensures RestOrder(CloseLevels(indent, at, s), at)
    decreases |s.levels|
  {
    if TopCloses(s.levels, indent) {
      var t := Lexeme(Last(s.levels).Closer(), At(at));
      RestPush(s, t, at);
      CloseLevelsOrder(indent, at, s.(levels := Front(s.levels), out := s.out + [t]));
    }
  }

  // ----- Every step -----

  lemma SameOrder(s: State, t: State, p: nat)
    requires LineOrder(s, p) && t.out == s.out && t.valueIndents == s.valueIndents && t.lineHead == s.lineHead
    ensures LineOrder(t, p)
  {
  }

  lemma MatchingOrder(i: nat, kind: Bracket, span: Span, s: State)
    requires LineOrder(s, span.start) && Placed(s.valueIndents, |s.out|) && i < |s.brackets|
    ensures LineOrder(Matching(i, kind, span, s), span.start)
  {
    hide LineOrder, Placed, CloseDown;
    var others := i + 1 < |s.brackets|;
    var s0 := s.(brackets := Met(kind, span, s.brackets));
    SameOrder(s, s0, span.start);
    if others { CloseDownOrder(i + 1, span.start, s0); }
    var s1 := if others then CloseDown(i + 1, span.start, s0) else s;
    LinePush(s1, Lexeme(Close(kind), span), span.start);
    SameOrder(s1.(out := s1.out + [Lexeme(Close(kind), span)]), Matching(i, kind, span, s), span.start);
  }

  lemma StrayOrder(kind: Bracket, span: Span, s: State)
    requires LineOrder(s, span.start)
    ensures LineOrder(Stray(kind, span, s), span.start)
  {
    hide RestOrder, Fits;
    hide LineOrder;
    SameOrder(s, Stray(kind, span, s), span.start);
  }

  lemma CloseBracketOrder(kind: Bracket, span: Span, s: State)
    requires LineOrder(s, span.start) && Placed(s.valueIndents, |s.out|)
    ensures LineOrder(CloseBracket(kind, span, s), span.start)
  {
    hide LineOrder, Placed, Matching, Stray;
    var i := Innermost(kind, s.brackets);
    if i.Some? { MatchingOrder(i.value, kind, span, s); } else { StrayOrder(kind, span, s); }
  }

  lemma EndLineOrder(span: Span, s: State)
    requires LineOrder(s, span.start) && Placed(s.valueIndents, |s.out|) && (OpensBlock(s) ==> s.lineHead.0 < |s.out|)
    ensures RestOrder(EndLine(span, s), span.start)
  {
    var ins := if OpensBlock(s) && !s.opensAtFirst then s.valueIndents + [s.lineHead] else s.valueIndents;
    var s1 := s.(valueIndents := ins);
    forall i | 0 <= i < |ins|
      ensures Fits(s.out, ins[i]) && ins[i].0 < |s.out|
    {
      if i < |s.valueIndents| { assert ins[i] == s.valueIndents[i]; }
    }
    var t := Lexeme(Newline, span);
    var out := s.out + [t];
    forall i | 0 <= i < |ins|
      ensures Fits(out, ins[i])
    {
      assert ins[i].1 <= s.out[ins[i].0].span.start;
    }
  }

  lemma IndentedOrder(source: string, span: Span, s: State)
    requires span.start <= |source| && s.levels != [] && Placed(s.valueIndents, |s.out|)
    requires RestOrder(s, LineOf(source, span.start))
    ensures RestOrder(Indented(source, span, s), span.start)
  {
    var indent := Column(source, span.start);
    var s1 := s.(lineIndent := indent, lineShort := false, shortHeader := None);
    if indent > Threshold(s) {
      RestPush(s1, Lexeme(Indent, Span(LineOf(source, span.start), span.start)), span.start);
    } else {
      CloseLevelsOrder(indent, span.start, s1);
    }
  }

  lemma LineStartOrder(source: string, tok: Token, span: Span, s: State)
    requires span.start <= |source| && s.levels != [] && Placed(s.valueIndents, |s.out|)
    requires RestOrder(s, LineOf(source, span.start))
    ensures LineOrder(LineStart(source, tok, span, s), span.start)
  {
    hide Indented;
    IndentedOrder(source, span, s);
  }

  /** The end of a line moves to the next line's start. */
  lemma BreakOrder(source: string, s: State, d: Span, at: nat)
    requires RestOrder(s, d.start) && Break(source, d, at)
    ensures RestOrder(s, LineOf(source, at))
  {
    LineAfterBreak(source, d, at);
  }

  lemma PhysicalLineOrder(source: string, tok: Token, span: Span, newline: Span, s: State)
    requires span.start <= |source| && LineOrder(s, newline.start) && Break(source, newline, span.start)
             && !s.atLineStart
    requires LineOpen(s) && s.levels != [] && s.levels[0] == Fixed(0)
    ensures var r := PhysicalLine(source, tok, span, newline, s);
            if r.atLineStart then RestOrder(r, newline.start) else LineOrder(r, newline.start)
  {
    hide LineOrder, RestOrder, LineOpen, CloseEarly, EndLine;
    if Column(source, span.start) <= s.lineIndent && !tok.Close? {
      var s0 := s.(brackets := Ended(s.brackets));
      SameOrder(s, s0, newline.start);
      LinePlaced(s);
      CloseEarlyOrder(newline.start, s0);
      CloseEarlyFrame(newline.start, s0);
      var s1 := CloseEarly(newline.start, s0);
      KindsSame(s0.brackets, s.brackets);
      SameLineOpen(s, s0);
      CloseEarlyLine(newline.start, s0);
      if s1.brackets == [] {
        ColonInLine(s1);
        EndLineOrder(newline, s1);
        EndLineFrame(newline, s1);
      }
    }
  }

  lemma LinePlaced(s: State)
    requires LineOpen(s)
    ensures Placed(s.valueIndents, |s.out|)
  {
  }

  /** A `:` that ends a line is its last statement's. */
  lemma ColonInLine(s: State)
    requires LineOpen(s)
    ensures OpensBlock(s) ==> s.lineHead.0 < |s.out|
  {
  }

  lemma BeginOrder(source: string, t: Lexeme, s: State, e: nat)
    requires Shape(s) && Order(source, s, e) && e <= t.span.start <= |source| && !(s.atLineStart && t.tok.Newline?)
    ensures var r := Begin(source, t, s);
            LineOrder(r, t.span.start) && (r.droppedNewline.Some? ==>
                Break(source, r.droppedNewline.value, e) && LineOrder(r, r.droppedNewline.value.start))
  {
    hide LineOrder, RestOrder, LineOpen, NestedTo, PhysicalLine, LineStart;
    var dropped := !t.tok.Newline? && s.droppedNewline.Some?;
    if dropped {
      var d := s.droppedNewline.value;
      var s0 := s.(droppedNewline := None);
      SameLineOpen(s, s0);
      SameOrder(s, s0, d.start);
      PhysicalLineOrder(source, t.tok, t.span, d, s0);
      PhysicalLineShape(source, t.tok, t.span, d, s0);
      var s1 := PhysicalLine(source, t.tok, t.span, d, s0);
      AfterDropped(source, t, s1, d);
      SameOrder(if s1.atLineStart && s1.brackets == [] then LineStart(source, t.tok, t.span, s1) else s1,
          Begin(source, t, s), t.span.start);
    } else {
      NotDropped(source, t, s, e);
      var r := if s.atLineStart && s.brackets == [] then LineStart(source, t.tok, t.span, s)
               else if s.headNext && !t.tok.Newline? then StatementHead(t.tok, t.span, s) else s;
      SameOrder(r, Begin(source, t, s), t.span.start);
      if s.droppedNewline.Some? { SameOrder(r, Begin(source, t, s), s.droppedNewline.value.start); }
    }
  }

  lemma AfterDropped(source: string, t: Lexeme, s: State, d: Span)
    requires t.span.start <= |source| && Break(source, d, t.span.start) && s.levels != [] && s.levels[0] == Fixed(0)
             && !s.headNext
    requires if s.atLineStart then RestOrder(s, d.start) && Resting(s) else LineOrder(s, d.start) && LineOpen(s)
    requires s.droppedNewline.None?
    ensures var r := if s.atLineStart && s.brackets == [] then LineStart(source, t.tok, t.span, s) else s;
            LineOrder(r, t.span.start) && r.droppedNewline.None?
  {
    hide LineOrder, RestOrder, LineOpen, Indented, NestedTo;
    if s.atLineStart {
      BreakOrder(source, s, d, t.span.start);
      RestingPlaced(s);
      LineStartOrder(source, t.tok, t.span, s);
      IndentedFrame(source, t.span, s);
    } else {
      LineLater(s, d.start, t.span.start);
    }
  }

  lemma LineLater(s: State, p: nat, q: nat)
    requires LineOrder(s, p) && p <= q
    ensures LineOrder(s, q)
  {
    Later(s, p, q);
  }

  lemma NotDropped(source: string, t: Lexeme, s: State, e: nat)
    requires Shape(s) && Order(source, s, e) && e <= t.span.start <= |source| && !(s.atLineStart && t.tok.Newline?)
    requires t.tok.Newline? || s.droppedNewline.None?
    ensures var r := if s.atLineStart && s.brackets == [] then LineStart(source, t.tok, t.span, s)
                     else if s.headNext && !t.tok.Newline? then StatementHead(t.tok, t.span, s) else s;
            && LineOrder(r, t.span.start) && r.droppedNewline == s.droppedNewline
            && (s.droppedNewline.Some? ==> LineOrder(r, s.droppedNewline.value.start))
  {
    if s.atLineStart {
      RestingOrder(source, s, e, t.span.start);
      LineStartOrder(source, t.tok, t.span, s);
      IndentedFrame(source, t.span, s);
    } else {
      LineLater(s, e, t.span.start);
      if s.headNext && !t.tok.Newline? { HeadOrder(t.tok, t.span, s); }
    }
  }

  lemma HeadOrder(tok: Token, span: Span, s: State)
    requires LineOrder(s, span.start)
    ensures LineOrder(StatementHead(tok, span, s), span.start)
  {
  }

  lemma RestingOrder(source: string, s: State, e: nat, at: nat)
    requires Shape(s) && Order(source, s, e) && e <= at <= |source| && s.atLineStart
    ensures Placed(s.valueIndents, |s.out|) && RestOrder(s, LineOf(source, at))
  {
    if s.out != [] {
      assert forall i :: 0 <= i < |s.out| ==> s.out[i].span.start <= Last(s.out).span.start;
      BreakOrder(source, s, Last(s.out).span, at);
    }
  }

  lemma EmitOrder(source: string, resync: set<nat>, index: nat, t: Lexeme, s: State, e: nat)
    requires Ready(t.tok, s) && RawToken(source, t) && LineOrder(s, t.span.start) && e <= t.span.start
    requires s.droppedNewline.Some? ==> Break(source, s.droppedNewline.value, e) && LineOrder(s,
             s.droppedNewline.value.start)
    ensures Order(source, Emit(resync, index, t, s), t.span.end)
  {
    hide LineOrder, RestOrder, LineOpen, CloseBracket, EndLine, RawToken;
    assert t.span.start < t.span.end <= |source| by { RawBreak(source, t); }
    LinePlaced(s);
    var p, q := t.span.start, t.span.end;
    match t.tok {
      case Open(b) =>
        LinePush(s, t, q);
        SameOrder(s.(out := s.out + [t]), Emit(resync, index, t, s), q);
      case Close(b) =>
        CloseBracketOrder(b, t.span, s);
        CloseBracketFrame(b, t.span, s);
        LineLater(CloseBracket(b, t.span, s), p, q);
      case Newline =>
        RawBreak(source, t);
        var r := Emit(resync, index, t, s);
        if s.brackets == [] {
          ColonInLine(s);
          EndLineOrder(t.span, s);
          EndLineFrame(t.span, s);
          Later(r, p, q);
        } else {
          LineLater(s, p, q);
          SameOrder(s, r, q);
          SameOrder(s, r, p);
          if s.droppedNewline.Some? { SameOrder(s, r, s.droppedNewline.value.start); }
        }
      case Semi =>
        LinePush(s, t, q);
        SameOrder(s.(out := s.out + [t]), Emit(resync, index, t, s), q);
      case _ => LinePush(s, t, q);
    }
  }

  lemma RawBreak(source: string, t: Lexeme)
    requires RawToken(source, t)
    ensures t.span.start < t.span.end <= |source| && !IsLayout(t.tok)
            && (t.tok.Newline? ==> Break(source, t.span, t.span.end))
  {
  }

  lemma StepOrder(source: string, resync: set<nat>, index: nat, t: Lexeme, s: State, e: nat)
    requires Shape(s) && Order(source, s, e) && e <= t.span.start && RawToken(source, t)
    ensures Order(source, Step(source, resync, index, t, s), t.span.end)
  {
    if s.atLineStart && t.tok.Newline? {
      Later(s, e, t.span.end);
    } else {
      StepOrderEmits(source, resync, index, t, s, e);
    }
  }

  lemma StepOrderEmits(source: string, resync: set<nat>, index: nat, t: Lexeme, s: State, e: nat)
    requires Shape(s) && Order(source, s, e) && e <= t.span.start && RawToken(source, t)
             && !(s.atLineStart && t.tok.Newline?)
    ensures Order(source, Emit(resync, index, t, Begin(source, t, s)), t.span.end)
  {
    RawBreak(source, t);
    assert s.levels != [];
    hide Begin, Emit, Shape, Order, Ready, RawToken;
    BeginReady(source, t, s);
    BeginOrder(source, t, s, e);
    EmitOrder(source, resync, index, t, Begin(source, t, s), e);
  }

  // ----- The whole output -----

  function EndOf(raw: seq<Lexeme>, n: nat): nat
    requires n <= |raw|
  {
    if n == 0 then 0 else raw[n - 1].span.end
  }

  lemma StartOrder(source: string)
    ensures Order(source, START, 0)
  {
  }

  lemma {:induction false} AfterOrder(source: string, resync: set<nat>, raw: seq<Lexeme>, n: nat)
    requires n <= |raw| && Raw(source, raw)
    ensures Order(source, After(source, resync, raw, n), EndOf(raw, n))
  {
    hide Step, Shape, Order;
    if n == 0 {
      StartOrder(source);
    } else {
      AfterOrder(source, resync, raw, n - 1);
      AfterShape(source, resync, raw, n - 1);
      StepOrder(source, resync, n - 1, raw[n - 1], After(source, resync, raw, n - 1), EndOf(raw, n - 1));
    }
  }

  lemma {:induction false} GiveUpAllOrder(at: nat, s: State)
    requires LineOrder(s, at) && Placed(s.valueIndents, |s.out|)
    ensures RestOrder(GiveUpAll(at, s), at)
    decreases |s.brackets|
  {
    if s.brackets != [] {
      LinePush(s, Lexeme(Close(Last(s.brackets).kind), At(at)), at);
      GiveUpAllOrder(at, GiveUp(at, s).(resyncNext := s.resyncNext + [Last(s.brackets).index]));
    }
  }

  lemma {:induction false} CloseAllOrder(at: nat, s: State)
    requires RestOrder(s, at) && Placed(s.valueIndents, |s.out|)
    ensures RestOrder(CloseAll(at, s), at) && Placed(CloseAll(at, s).valueIndents, |CloseAll(at, s).out|)
    decreases |s.levels|
  {
    if |s.levels| > 1 {
      var t := Lexeme(Last(s.levels).Closer(), At(at));
      RestPush(s, t, at);
      CloseAllOrder(at, s.(levels := Front(s.levels), out := s.out + [t]));
    }
  }

  lemma {:induction false} InsertedOrder(out: seq<Lexeme>, ins: seq<(nat, nat)>, p: nat)
    requires Ascending(out) && AllFit(out, ins) && Placed(ins, |out|) && UpTo(out, p)
    ensures Ascending(Inserted(out, ins)) && UpTo(Inserted(out, ins), p)
    decreases |ins|
  {
    if ins != [] {
      var (k, at) := Last(ins);
      assert Fits(out, Last(ins)) && at <= out[k].span.start <= p;
      forall i | 0 <= i < |ins| - 1
        ensures Fits(out[..k], ins[i])
      {
        assert Fits(out, ins[i]);
      }
      InsertedOrder(out[..k], Front(ins), at);
      Joined(Inserted(out[..k], Front(ins)), Lexeme(BlockValueIndent, At(at)), out[k..]);
    }
  }

  lemma Joined(a: seq<Lexeme>, t: Lexeme, b: seq<Lexeme>)
    requires Ascending(a) && Ascending(b) && UpTo(a, t.span.start)
             && forall i :: 0 <= i < |b| ==> t.span.start <= b[i].span.start
    ensures Ascending(a + [t] + b)
  {
  }

  /** For every sequence of raw tokens and either run, the starts of the output never decrease. */
  lemma LaidOrder(source: string, resync: set<nat>, raw: seq<Lexeme>)
    requires Raw(source, raw)
    ensures Ascending(Laid(source, resync, raw).out)
  {
    AfterOrder(source, resync, raw, |raw|);
    AfterShape(source, resync, raw, |raw|);
    FinishOrder(source, After(source, resync, raw, |raw|), EndOf(raw, |raw|));
  }

  lemma FinishOrder(source: string, s: State, e: nat)
    requires Shape(s) && Order(source, s, e)
    ensures Ascending(Finish(|source|, s).out)
  {
    var at := |source|;
    GiveUpOrder(source, s, e);
    GiveUpAllRests(at, s);
    var s1 := GiveUpAll(at, s);
    RestingPlaced(s1);
    var s2 := EndInput(at, s1);
    EndInputOrder(at, s1);
    hide Shape, Order, Resting, RestOrder, EndInput, CloseAll, GiveUpAll;
    CloseAllOrder(at, s2);
    var s3 := CloseAll(at, s2);
    RestAscends(s3, at);
    InsertedOrder(s3.out, s3.valueIndents, at);
  }

  lemma RestAscends(s: State, p: nat)
    requires RestOrder(s, p)
    ensures Ascending(s.out) && AllFit(s.out, s.valueIndents) && UpTo(s.out, p)
  {
  }

  lemma EndInputOrder(at: nat, s: State)
    requires RestOrder(s, at) && Placed(s.valueIndents, |s.out|)
    ensures var r := EndInput(at, s); RestOrder(r, at) && Placed(r.valueIndents, |r.out|)
  {
    RestPush(s, Lexeme(Newline, At(at)), at);
  }

  lemma GiveUpOrder(source: string, s: State, e: nat)
    requires Shape(s) && Order(source, s, e)
    ensures RestOrder(GiveUpAll(|source|, s), |source|)
  {
    if s.atLineStart {
      Later(s, e, |source|);
    } else {
      LineLater(s, e, |source|);
      LinePlaced(s);
      GiveUpAllOrder(|source|, s);
    }
  }

  /** `partition_point` by start: the number of tokens that start before `p`. */
  method StartsBefore(ts: seq<Lexeme>, p: nat) returns (n: nat)
    requires Ascending(ts)
    ensures n <= |ts| && (forall i :: 0 <= i < n ==> ts[i].span.start < p)
            && (forall i :: n <= i < |ts| ==> ts[i].span.start >= p)
  {
    var hi := |ts|;
    n := 0;
    while n < hi
      invariant n <= hi <= |ts|
      invariant forall i :: 0 <= i < n ==> ts[i].span.start < p
      invariant forall i :: hi <= i < |ts| ==> ts[i].span.start >= p
    {
      var mid := (n + hi) / 2;
      if ts[mid].span.start < p { n := mid + 1; } else { hi := mid; }
    }
  }
}
