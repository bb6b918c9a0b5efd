/** Every layout run's output is well nested: levels pair, brackets pair inside them, and no line
    ends inside brackets. */
module LayoutNesting {
  import opened Options
  import opened LayoutMachine

  // ----- Well nested streams -----

  /** What is open at a point of a stream: blocks, with whether each is a right-hand side's, and
      the brackets open on the current line. */
  datatype Nest = Nest(blocks: seq<bool>, brackets: seq<Bracket>)

  function EnterBracket(t: Token, b: seq<Bracket>): Option<seq<Bracket>> {
    if t.Open? then Some(b + [t.b])
    else if t.Close? then (if b != [] && Last(b) == t.b then Some(Front(b)) else None)
    else Some(b)
  }

  /** A line ends, and a block opens or closes, only outside brackets. */
  function Enter(t: Token, n: Nest): Option<Nest> {
    if t.Newline? || IsLayout(t) then
      if n.brackets != [] then None
      else if t.Newline? then Some(n)
      else if t.Indent? || t.BlockValueIndent? then Some(n.(blocks := n.blocks + [t.BlockValueIndent?]))
      else if n.blocks != [] && Last(n.blocks) == t.BlockValueDedent? then Some(n.(blocks := Front(n.blocks)))
      else None
    else
      var b :- EnterBracket(t, n.brackets);
      Some(n.(brackets := b))
  }

  function Nesting(ts: seq<Lexeme>, n: Nest): Option<Nest> {
    if ts == [] then Some(n)
    else
      var m :- Nesting(Front(ts), n);
      Enter(Last(ts).tok, m)
  }

  function BracketRun(ts: seq<Lexeme>, b: seq<Bracket>): Option<seq<Bracket>> {
    if ts == [] then Some(b)
    else
      var m :- BracketRun(Front(ts), b);
      EnterBracket(Last(ts).tok, m)
  }

  const OUTSIDE := Nest([], [])

  ghost predicate WellNested(ts: seq<Lexeme>) {
    Nesting(ts, OUTSIDE) == Some(OUTSIDE)
  }

  lemma NestOne(ts: seq<Lexeme>, t: Lexeme, n: Nest)
    ensures Nesting(ts + [t], n) == if Nesting(ts, n).None? then None else Enter(t.tok, Nesting(ts, n).value)
  {
    assert Front(ts + [t]) == ts;
  }

  lemma BracketOne(ts: seq<Lexeme>, t: Lexeme, b: seq<Bracket>)
    ensures BracketRun(ts + [t], b) == if BracketRun(ts, b).None? then None
            else EnterBracket(t.tok, BracketRun(ts, b).value)
  {
    assert Front(ts + [t]) == ts;
  }

  ghost predicate MidLine(ts: seq<Lexeme>) {
    forall i :: 0 <= i < |ts| ==> !ts[i].tok.Newline? && !IsLayout(ts[i].tok)
  }

  /** Within a line only brackets open and close. */
  lemma {:induction false} NestMidLine(ts: seq<Lexeme>, seg: seq<Lexeme>, n: Nest)
    requires MidLine(seg) && Nesting(ts, n).Some?
    ensures var m := Nesting(ts, n).value;
            var b := BracketRun(seg, m.brackets);
            Nesting(ts + seg, n) == if b.None? then None else Some(m.(brackets := b.value))
  {
    if seg == [] {
      assert ts + seg == ts;
    } else {
      NestMidLine(ts, Front(seg), n);
      assert ts + seg == (ts + Front(seg)) + [Last(seg)];
      NestOne(ts + Front(seg), Last(seg), n);
    }
  }

  // ----- The deferred insertions -----

  /** Each insertion goes before a token of `out`, in ascending order. */
  ghost predicate Placed(ins: seq<(nat, nat)>, n: nat) {
    && (forall i :: 0 <= i < |ins| ==> ins[i].0 < n)
    && (forall i, j :: 0 <= i < j < |ins| ==> ins[i].0 < ins[j].0)
  }

  /** What follows the last insertion is what follows it in `out`. */
  lemma InsertedTail(out: seq<Lexeme>, more: seq<Lexeme>, ins: seq<(nat, nat)>)
    requires Placed(ins, |out|)
    ensures Inserted(out + more, ins) == Inserted(out, ins) + more
  {
    if ins != [] {
      var k, opener := Last(ins).0, [Lexeme(BlockValueIndent, At(Last(ins).1))];
      Sliced(out, more, k);
      hide Placed;
      var before := Inserted(out[..k], Front(ins)) + opener;
      assert Inserted(out + more, ins) == before + (out + more)[k..];
      assert Inserted(out, ins) == before + out[k..];
      Rejoined(before, out[k..], more);
    }
  }

  lemma Sliced<T>(a: seq<T>, b: seq<T>, k: nat)
    requires k <= |a|
    ensures (a + b)[..k] == a[..k] && (a + b)[k..] == a[k..] + b
  {
  }

  lemma Rejoined<T>(a: seq<T>, b: seq<T>, c: seq<T>)
    ensures a + (b + c) == a + b + c
  {
  }

  lemma InsertedPrefix(out: seq<Lexeme>, ins: seq<(nat, nat)>, h: nat)
    requires h <= |out| && Placed(ins, h)
    ensures Inserted(out, ins) == Inserted(out[..h], ins) + out[h..]
  {
    assert out == out[..h] + out[h..];
    hide Inserted, Placed;
    InsertedTail(out[..h], out[h..], ins);
  }

  lemma InsertedLast(out: seq<Lexeme>, ins: seq<(nat, nat)>, h: nat, at: nat)
    requires h <= |out|
    ensures Inserted(out, ins + [(h, at)]) == Inserted(out[..h], ins) + [Lexeme(BlockValueIndent, At(at))] + out[h..]
  {
    assert Front(ins + [(h, at)]) == ins && Last(ins + [(h, at)]) == (h, at);
  }

  // ----- The state of a run -----

  function Blocks(levels: seq<Level>): seq<bool> {
    if |levels| <= 1 then [] else Blocks(Front(levels)) + [!Last(levels).Fixed?]
  }

  function Kinds(bs: seq<OpenBracket>): seq<Bracket> {
    if bs == [] then [] else Kinds(Front(bs)) + [Last(bs).kind]
  }

  /** The output up to `h` is nested, with `levels` open and no bracket. */
  ghost predicate NestedTo(s: State, h: nat) {
    h <= |s.out| && Placed(s.valueIndents, h) && Nesting(Inserted(s.out[..h], s.valueIndents), OUTSIDE)
        == Some(Nest(Blocks(s.levels), []))
  }

  /** The current line, from its last statement's head. */
  ghost predicate LineOpen(s: State) {
    && NestedTo(s, s.lineHead.0) && (s.lineHead.0 > 0 ==> !s.out[s.lineHead.0 - 1].tok.Colon?)
    && MidLine(s.out[s.lineHead.0..]) && BracketRun(s.out[s.lineHead.0..], []) == Some(Kinds(s.brackets))
  }

  ghost predicate Shape(s: State) {
    && s.levels != [] && s.levels[0] == Fixed(0)
    && (s.droppedNewline.Some? ==> s.brackets != [])
    && (if s.atLineStart then s.brackets == [] && NestedTo(s, |s.out|) && (s.out == [] || Last(s.out).tok.Newline?)
        else LineOpen(s))
    && (s.headNext && !s.atLineStart ==> s.brackets == [] && s.out != [] && !Last(s.out).tok.Colon?)
  }

  lemma StartShape()
    ensures Shape(START)
  {
  }

  // ----- Within a line -----

  lemma NestedSame(s: State, r: State, h: nat)
    requires NestedTo(s, h) && s.out <= r.out && r.valueIndents == s.valueIndents && r.levels == s.levels
    ensures NestedTo(r, h) && h <= |s.out|
  {
    assert r.out[..h] == s.out[..h];
  }

  lemma MidLineOne(ts: seq<Lexeme>, t: Lexeme)
    requires MidLine(ts) && !t.tok.Newline? && !IsLayout(t.tok)
    ensures MidLine(ts + [t])
  {
  }

  /** A token of the line that opens and closes no block. */
  lemma LineGrows(s: State, t: Lexeme, bs: seq<OpenBracket>)
    requires LineOpen(s) && !t.tok.Newline? && !IsLayout(t.tok)
             && EnterBracket(t.tok, Kinds(s.brackets)) == Some(Kinds(bs))
    ensures LineOpen(s.(out := s.out + [t], brackets := bs))
  {
    hide NestedTo, BracketRun, EnterBracket, Kinds, MidLine, IsLayout;
    var h := s.lineHead.0;
    NestedSame(s, s.(out := s.out + [t], brackets := bs), h);
    BracketOne(s.out[h..], t, []);
    MidLineOne(s.out[h..], t);
    Sliced(s.out, [t], h);
  }

  lemma KindsOne(bs: seq<OpenBracket>, b: OpenBracket)
    ensures Kinds(bs + [b]) == Kinds(bs) + [b.kind]
  {
    assert Front(bs + [b]) == bs;
  }

  lemma {:induction false} KindsSame(bs: seq<OpenBracket>, cs: seq<OpenBracket>)
    requires |bs| == |cs| && forall i :: 0 <= i < |bs| ==> bs[i].kind == cs[i].kind
    ensures Kinds(bs) == Kinds(cs)
  {
    if bs != [] { KindsSame(Front(bs), Front(cs)); }
  }

  /** The parts of the state that `LineOpen` is about. */
  ghost predicate SameLine(s: State, t: State) {
    && t.out == s.out && t.levels == s.levels && t.lineHead == s.lineHead && t.valueIndents == s.valueIndents
    && Kinds(t.brackets) == Kinds(s.brackets)
  }

  lemma GiveUpLine(at: nat, s: State)
    requires LineOpen(s) && s.brackets != []
    ensures LineOpen(GiveUp(at, s))
  {
    var top := Last(s.brackets);
    assert Kinds(s.brackets) == Kinds(Front(s.brackets)) + [top.kind];
    LineGrows(s, Lexeme(Close(top.kind), At(at)), Front(s.brackets));
  }

  lemma {:induction false} CloseEarlyLine(at: nat, s: State)
    requires LineOpen(s)
    ensures LineOpen(CloseEarly(at, s))
    decreases |s.brackets|
  {
    if s.brackets != [] && Last(s.brackets).ClosesEarly() {
      GiveUpLine(at, s);
      CloseEarlyLine(at, GiveUp(at, s));
    }
  }

  lemma {:induction false} CloseDownLine(n: nat, at: nat, s: State)
    requires LineOpen(s) && n <= |s.brackets|
    ensures LineOpen(CloseDown(n, at, s)) && CloseDown(n, at, s).brackets == s.brackets[..n]
    decreases |s.brackets|
  {
    if |s.brackets| > n {
      GiveUpLine(at, s);
      CloseDownLine(n, at, GiveUp(at, s));
    } else {
      assert s.brackets[..n] == s.brackets;
    }
  }

  lemma MetKinds(kind: Bracket, span: Span, bs: seq<OpenBracket>)
    requires bs != []
    ensures Kinds(Met(kind, span, bs)) == Kinds(bs) && |Met(kind, span, bs)| == |bs|
            && Met(kind, span, bs)[..|bs| - 1] == bs[..|bs| - 1]
  {
    KindsSame(Met(kind, span, bs), bs);
  }

  lemma MatchingLine(i: nat, kind: Bracket, span: Span, s: State)
    requires LineOpen(s) && i < |s.brackets| && s.brackets[i].kind == kind
    ensures LineOpen(Matching(i, kind, span, s))
  {
    hide LineOpen, Kinds, CloseDown;
    var bs := s.brackets;
    MetKinds(kind, span, bs);
    var s0 := s.(brackets := Met(kind, span, bs));
    SameLineOpen(s, s0);
    var s1 := if i + 1 < |bs| then CloseDown(i + 1, span.start, s0) else s;
    if i + 1 < |bs| {
      CloseDownLine(i + 1, span.start, s0);
      assert Met(kind, span, bs)[..i + 1] == bs[..i + 1];
    } else {
      assert bs[..i + 1] == bs;
    }
    assert s1.brackets == bs[..i] + [bs[i]];
    KindsOne(bs[..i], bs[i]);
    LineGrows(s1, Lexeme(Close(kind), span), bs[..i]);
    SameLineOpen(s1.(out := s1.out + [Lexeme(Close(kind), span)], brackets := bs[..i]), Matching(i, kind, span, s));
  }

  lemma SameLineOpen(s: State, t: State)
    requires LineOpen(s) && SameLine(s, t)
    ensures LineOpen(t)
  {
  }

  lemma StrayLine(kind: Bracket, span: Span, s: State)
    requires LineOpen(s)
    ensures LineOpen(Stray(kind, span, s))
  {
    hide Nesting, Inserted, BracketRun, MidLine, Kinds;
    if s.brackets != [] { MetKinds(kind, span, s.brackets); }
  }

  lemma CloseBracketLine(kind: Bracket, span: Span, s: State)
    requires LineOpen(s)
    ensures LineOpen(CloseBracket(kind, span, s))
  {
    hide LineOpen, Matching, Stray;
    var i := Innermost(kind, s.brackets);
    if i.Some? { MatchingLine(i.value, kind, span, s); } else { StrayLine(kind, span, s); }
  }

  // ----- From line to line -----

  lemma BlocksOne(levels: seq<Level>, l: Level)
    requires levels != []
    ensures Blocks(levels + [l]) == Blocks(levels) + [!l.Fixed?]
  {
    assert Front(levels + [l]) == levels;
  }

  /** The line has ended. */
  ghost predicate Resting(s: State) {
    s.levels != [] && s.levels[0] == Fixed(0) && s.brackets == [] && NestedTo(s, |s.out|)
  }

  /** The line's `BlockValueIndent`, once its level opens. */
  lemma ValueLineNests(s: State)
    requires LineOpen(s) && s.brackets == [] && s.levels != [] && s.lineHead.0 < |s.out|
    ensures Nesting(Inserted(s.out, s.valueIndents + [s.lineHead]), OUTSIDE)
            == Some(Nest(Blocks(s.levels) + [true], []))
  {
    var h, head := s.lineHead.0, Lexeme(BlockValueIndent, At(s.lineHead.1));
    var before := Inserted(s.out[..h], s.valueIndents);
    NestOne(before, head, OUTSIDE);
    NestMidLine(before + [head], s.out[h..], OUTSIDE);
    InsertedLast(s.out, s.valueIndents, h, s.lineHead.1);
  }

  lemma LineNests(s: State)
    requires LineOpen(s) && s.brackets == []
    ensures Nesting(Inserted(s.out, s.valueIndents), OUTSIDE) == Some(Nest(Blocks(s.levels), []))
  {
    var h := s.lineHead.0;
    InsertedPrefix(s.out, s.valueIndents, h);
    NestMidLine(Inserted(s.out[..h], s.valueIndents), s.out[h..], OUTSIDE);
  }

  lemma EndLineRests(span: Span, s: State)
    requires LineOpen(s) && s.brackets == [] && s.levels != [] && s.levels[0] == Fixed(0)
    ensures Resting(EndLine(span, s))
  {
    hide Nesting, Inserted, MidLine, BracketRun, Blocks;
    var r, nl := EndLine(span, s), Lexeme(Newline, span);
    if OpensBlock(s) && !s.opensAtFirst {
      ValueLineNests(s);
      BlocksOne(s.levels, Pending(s.lineIndent));
    } else {
      LineNests(s);
    }
    InsertedTail(s.out, [nl], r.valueIndents);
    NestOne(Inserted(s.out, r.valueIndents), nl, OUTSIDE);
    assert r.out[..|r.out|] == s.out + [nl];
  }

  /** A layout token emitted between lines. */
  lemma RestingGrows(s: State, t: Lexeme, levels: seq<Level>)
    requires Resting(s) && levels != [] && levels[0] == Fixed(0)
    requires Enter(t.tok, Nest(Blocks(s.levels), [])) == Some(Nest(Blocks(levels), []))
    ensures Resting(s.(out := s.out + [t], levels := levels))
  {
    assert s.out[..|s.out|] == s.out && (s.out + [t])[..|s.out| + 1] == s.out + [t];
    InsertedTail(s.out, [t], s.valueIndents);
    NestOne(Inserted(s.out, s.valueIndents), t, OUTSIDE);
  }

  lemma PopRests(at: nat, s: State)
    requires Resting(s) && |s.levels| >= 2
    ensures Resting(s.(levels := Front(s.levels), out := s.out + [Lexeme(Last(s.levels).Closer(), At(at))]))
  {
    assert Blocks(s.levels) == Blocks(Front(s.levels)) + [!Last(s.levels).Fixed?];
    assert Front(Blocks(s.levels)) == Blocks(Front(s.levels));
    RestingGrows(s, Lexeme(Last(s.levels).Closer(), At(at)), Front(s.levels));
  }

  lemma {:induction false} CloseLevelsRests(indent: nat, at: nat, s: State)
    requires Resting(s)
    ensures Resting(CloseLevels(indent, at, s))
    decreases |s.levels|
  {
    if TopCloses(s.levels, indent) {
      PopRests(at, s);
      CloseLevelsRests(indent, at, s.(levels := Front(s.levels),
          out := s.out + [Lexeme(Last(s.levels).Closer(), At(at))]));
    }
  }

  lemma SettleRests(indent: nat, span: Span, s: State)
    requires Resting(s)
    ensures Resting(Settle(indent, span, s))
  {
    var top := Last(s.levels);
    if top.Pending? {
      BlocksOne(Front(s.levels), Pinned(indent));
      assert Blocks(s.levels) == Blocks(Front(s.levels)) + [true];
    }
  }

  lemma IndentedRests(source: string, span: Span, s: State)
    requires Resting(s) && span.start <= |source|
    ensures Resting(Indented(source, span, s))
  {
    var indent := Column(source, span.start);
    var s1 := s.(lineIndent := indent, lineShort := false, shortHeader := None);
    if indent > Threshold(s) {
      BlocksOne(s.levels, Fixed(indent));
      RestingGrows(s1, Lexeme(Indent, Span(LineOf(source, span.start), span.start)), s.levels + [Fixed(indent)]);
    } else {
      CloseLevelsRests(indent, span.start, s1);
      SettleRests(indent, span, CloseLevels(indent, span.start, s1));
    }
  }

  /** The output does not end in a `:` between lines. */
  ghost predicate NoColon(s: State) {
    s.out != [] ==> !Last(s.out).tok.Colon?
  }

  lemma {:induction false} CloseLevelsNoColon(indent: nat, at: nat, s: State)
    requires NoColon(s)
    ensures NoColon(CloseLevels(indent, at, s))
    decreases |s.levels|
  {
    if TopCloses(s.levels, indent) {
      CloseLevelsNoColon(indent, at, s.(levels := Front(s.levels),
          out := s.out + [Lexeme(Last(s.levels).Closer(), At(at))]));
    }
  }

  lemma IndentedNoColon(source: string, span: Span, s: State)
    requires s.levels != [] && span.start <= |source| && NoColon(s)
    ensures NoColon(Indented(source, span, s))
  {
    var s1 := s.(lineIndent := Column(source, span.start), lineShort := false, shortHeader := None);
    CloseLevelsNoColon(Column(source, span.start), span.start, s1);
  }

  lemma LineStartOpens(source: string, tok: Token, span: Span, s: State)
    requires Resting(s) && span.start <= |source| && NoColon(s)
    ensures var r := LineStart(source, tok, span, s);
            LineOpen(r) && r.brackets == [] && r.levels != [] && r.levels[0] == Fixed(0) && r.lineHead.0 == |r.out|
  {
    hide Indented, NoColon, LineOpen, NestedTo;
    IndentedRests(source, span, s);
    IndentedNoColon(source, span, s);
    RestingHead(tok, span, Indented(source, span, s));
  }

  lemma RestingHead(tok: Token, span: Span, s: State)
    requires Resting(s) && NoColon(s)
    ensures LineOpen(StatementHead(tok, span, s.(headIsFirst := true)))
  {
    HeadOpens(tok, span, s.(headIsFirst := true));
  }

  lemma HeadOpens(tok: Token, span: Span, s: State)
    requires s.brackets == [] && NestedTo(s, |s.out|) && NoColon(s)
    ensures LineOpen(StatementHead(tok, span, s))
  {
    assert s.out[|s.out|..] == [];
  }

  // ----- Every step -----

  lemma PhysicalLineShape(source: string, tok: Token, span: Span, newline: Span, s: State)
    requires LineOpen(s) && s.levels != [] && s.levels[0] == Fixed(0) && span.start <= |source|
    requires !s.atLineStart && !s.headNext && s.droppedNewline.None?
    ensures var r := PhysicalLine(source, tok, span, newline, s);
            && r.levels != [] && r.levels[0] == Fixed(0) && r.droppedNewline.None? && !r.headNext
            && (if r.atLineStart then Resting(r) && NoColon(r) else LineOpen(r))
  {
    hide LineOpen, Resting, CloseEarly;
    if Column(source, span.start) <= s.lineIndent && !tok.Close? {
      var s0 := s.(brackets := Ended(s.brackets));
      KindsSame(s0.brackets, s.brackets);
      SameLineOpen(s, s0);
      CloseEarlyLine(newline.start, s0);
      CloseEarlyFrame(newline.start, s0);
      var s1 := CloseEarly(newline.start, s0);
      if s1.brackets == [] { EndLineRests(newline, s1); }
    }
  }

  lemma {:induction false} CloseEarlyFrame(at: nat, s: State)
    ensures var r := CloseEarly(at, s);
            r.atLineStart == s.atLineStart && r.headNext == s.headNext && r.droppedNewline == s.droppedNewline
    decreases |s.brackets|
  {
    if s.brackets != [] && Last(s.brackets).ClosesEarly() { CloseEarlyFrame(at, GiveUp(at, s)); }
  }

  /** Where the token is about to be emitted. */
  ghost predicate Ready(tok: Token, s: State) {
    && s.levels != [] && s.levels[0] == Fixed(0) && LineOpen(s) && !s.atLineStart
    && (s.droppedNewline.Some? ==> s.brackets != [] && tok.Newline?)
    && (s.headNext ==> s.brackets == [] && (tok.Pub? || tok.Const? || tok.Newline?))
  }

  lemma BeginReady(source: string, t: Lexeme, s: State)
    requires Shape(s) && t.span.start <= |source| && !(s.atLineStart && t.tok.Newline?)
    ensures Ready(t.tok, Begin(source, t, s))
  {
    hide LineOpen, NestedTo, PhysicalLine, LineStart;
    var s1 := if !t.tok.Newline? && s.droppedNewline.Some?
              then PhysicalLine(source, t.tok, t.span, s.droppedNewline.value, s.(droppedNewline := None)) else s;
    if !t.tok.Newline? && s.droppedNewline.Some? {
      SameLineOpen(s, s.(droppedNewline := None));
      PhysicalLineShape(source, t.tok, t.span, s.droppedNewline.value, s.(droppedNewline := None));
    }
    BeginRest(source, t, s1);
  }

  /** What `Begin` does once the physical line has been taken into account. */
  lemma BeginRest(source: string, t: Lexeme, s: State)
    requires s.levels != [] && s.levels[0] == Fixed(0) && t.span.start <= |source| && !(s.atLineStart && t.tok.Newline?)
    requires if s.atLineStart then Resting(s) && NoColon(s) && s.droppedNewline.None? else LineOpen(s)
    requires s.droppedNewline.Some? ==> s.brackets != [] && t.tok.Newline?
    requires s.headNext && !s.atLineStart ==> s.brackets == [] && NoColon(s)
    ensures var s2 := if s.atLineStart && s.brackets == [] then LineStart(source, t.tok, t.span, s)
                      else if s.headNext && !t.tok.Newline? then StatementHead(t.tok, t.span, s) else s;
            Ready(t.tok, s2.(atLineStart := false))
  {
    hide LineOpen, NestedTo, Indented;
    if s.atLineStart {
      LineStartOpens(source, t.tok, t.span, s);
      IndentedFrame(source, t.span, s);
      var r := LineStart(source, t.tok, t.span, s);
      SameLineOpen(r, r.(atLineStart := false));
    } else if s.headNext && !t.tok.Newline? {
      LineHeads(t.tok, t.span, s);
      var r := StatementHead(t.tok, t.span, s);
      SameLineOpen(r, r.(atLineStart := false));
    }
  }

  lemma LineHeads(tok: Token, span: Span, s: State)
    requires LineOpen(s) && s.brackets == [] && NoColon(s)
    ensures LineOpen(StatementHead(tok, span, s))
  {
    LineNests(s);
    assert s.out[..|s.out|] == s.out;
    HeadOpens(tok, span, s);
  }

  lemma IndentedFrame(source: string, span: Span, s: State)
    requires span.start <= |source| && s.levels != []
    ensures Indented(source, span, s).droppedNewline == s.droppedNewline
  {
    var s1 := s.(lineIndent := Column(source, span.start), lineShort := false, shortHeader := None);
    CloseLevelsFrame(Column(source, span.start), span.start, s1);
  }

  lemma {:induction false} CloseLevelsFrame(indent: nat, at: nat, s: State)
    ensures CloseLevels(indent, at, s).droppedNewline == s.droppedNewline
    decreases |s.levels|
  {
    if TopCloses(s.levels, indent) {
      CloseLevelsFrame(indent, at, s.(levels := Front(s.levels),
          out := s.out + [Lexeme(Last(s.levels).Closer(), At(at))]));
    }
  }

  lemma EmitShape(resync: set<nat>, index: nat, t: Lexeme, s: State)
    requires Ready(t.tok, s) && !IsLayout(t.tok)
    ensures Shape(Emit(resync, index, t, s))
  {
    hide LineOpen, NestedTo, CloseBracket, EndLine;
    match t.tok {
      case Open(b) =>
        var o := OpenBracket(b, t.span, index, index in resync, false, None);
        KindsOne(s.brackets, o);
        LineGrows(s, t, s.brackets + [o]);
      case Close(b) =>
        CloseBracketLine(b, t.span, s);
        CloseBracketFrame(b, t.span, s);
      case Newline =>
        if s.brackets == [] {
          EndLineRests(t.span, s);
          EndLineFrame(t.span, s);
        } else {
          SameLineOpen(s, Emit(resync, index, t, s));
        }
      case Semi =>
        LineGrows(s, t, s.brackets);
        SameLineOpen(s.(out := s.out + [t]), Emit(resync, index, t, s));
      case _ => LineGrows(s, t, s.brackets);
    }
  }

  lemma EndLineFrame(span: Span, s: State)
    ensures var r := EndLine(span, s);
            r.atLineStart && r.droppedNewline == s.droppedNewline && r.out == s.out + [Lexeme(Newline, span)]
  {
  }

  lemma CloseBracketFrame(kind: Bracket, span: Span, s: State)
    ensures var r := CloseBracket(kind, span, s);
            r.atLineStart == s.atLineStart && r.headNext == s.headNext && r.droppedNewline == s.droppedNewline
  {
    var i := Innermost(kind, s.brackets);
    if i.Some? && i.value + 1 < |s.brackets| {
      CloseDownFrame(i.value + 1, span.start, s.(brackets := Met(kind, span, s.brackets)));
    }
  }

  lemma {:induction false} CloseDownFrame(n: nat, at: nat, s: State)
    ensures var r := CloseDown(n, at, s);
            r.atLineStart == s.atLineStart && r.headNext == s.headNext && r.droppedNewline == s.droppedNewline
    decreases |s.brackets|
  {
    if |s.brackets| > n { CloseDownFrame(n, at, GiveUp(at, s)); }
  }

  lemma StepShape(source: string, resync: set<nat>, index: nat, t: Lexeme, s: State)
    requires Shape(s) && RawToken(source, t)
    ensures Shape(Step(source, resync, index, t, s))
  {
    assert s.levels != [];
    hide Shape, Begin, Emit, Ready;
    if !(s.atLineStart && t.tok.Newline?) {
      BeginReady(source, t, s);
      EmitShape(resync, index, t, Begin(source, t, s));
    }
  }

  lemma {:induction false} AfterShape(source: string, resync: set<nat>, raw: seq<Lexeme>, n: nat)
    requires n <= |raw| && Raw(source, raw)
    ensures Shape(After(source, resync, raw, n))
  {
    hide Step, Shape;
    if n == 0 {
      StartShape();
    } else {
      AfterShape(source, resync, raw, n - 1);
      StepShape(source, resync, n - 1, raw[n - 1], After(source, resync, raw, n - 1));
    }
  }

  // ----- The end of input -----

  lemma {:induction false} GiveUpAllLine(at: nat, s: State)
    requires LineOpen(s) && s.levels != [] && s.levels[0] == Fixed(0)
    ensures var r := GiveUpAll(at, s); LineOpen(r) && r.brackets == [] && r.levels == s.levels
    decreases |s.brackets|
  {
    if s.brackets != [] {
      GiveUpLine(at, s);
      var s1 := GiveUp(at, s).(resyncNext := s.resyncNext + [Last(s.brackets).index]);
      SameLineOpen(GiveUp(at, s), s1);
      GiveUpAllLine(at, s1);
    }
  }

  lemma GiveUpAllRests(at: nat, s: State)
    requires Shape(s)
    ensures Resting(GiveUpAll(at, s))
  {
    if !s.atLineStart {
      GiveUpAllLine(at, s);
      var r := GiveUpAll(at, s);
      LineNests(r);
      assert r.out[..|r.out|] == r.out;
    }
  }

  /** The output up to `n` ends in a newline, and only closers of levels follow. */
  ghost predicate LineEnded(out: seq<Lexeme>, n: nat) {
    && 0 < n <= |out| && out[n - 1].tok.Newline?
    && forall i :: n <= i < |out| ==> out[i].tok.Dedent? || out[i].tok.BlockValueDedent?
  }

  lemma EndInputRests(at: nat, s: State)
    requires Resting(s)
    ensures var r := EndInput(at, s); Resting(r) && LineEnded(r.out, |r.out|)
  {
    if s.out == [] || !Last(s.out).tok.Newline? { RestingGrows(s, Lexeme(Newline, At(at)), s.levels); }
  }

  lemma {:induction false} CloseAllRests(at: nat, s: State, n: nat)
    requires Resting(s) && LineEnded(s.out, n) && Placed(s.valueIndents, n)
    ensures var r := CloseAll(at, s); Resting(r) && |r.levels| == 1 && LineEnded(r.out, n) && Placed(r.valueIndents, n)
    decreases |s.levels|
  {
    if |s.levels| > 1 {
      PopRests(at, s);
      CloseAllRests(at, s.(levels := Front(s.levels), out := s.out + [Lexeme(Last(s.levels).Closer(), At(at))]), n);
    }
  }

  lemma InsertedKeepsLast(out: seq<Lexeme>, ins: seq<(nat, nat)>)
    requires out != [] && Placed(ins, |out|)
    ensures Inserted(out, ins) != [] && Last(Inserted(out, ins)) == Last(out)
  {
    if ins != [] { assert Last(out[Last(ins).0..]) == Last(out); }
  }

  lemma InsertedEnds(out: seq<Lexeme>, ins: seq<(nat, nat)>, n: nat)
    requires LineEnded(out, n) && Placed(ins, n)
    ensures LineEnded(Inserted(out, ins), |Inserted(out[..n], ins)|)
  {
    InsertedPrefix(out, ins, n);
    InsertedKeepsLast(out[..n], ins);
  }

  lemma FinishNests(at: nat, s: State)
    requires Shape(s)
    ensures var out := Finish(at, s).out; WellNested(out) && exists n :: LineEnded(out, n)
  {
    hide Resting, LineEnded, Placed;
    GiveUpAllRests(at, s);
    var s1 := GiveUpAll(at, s);
    EndInputRests(at, s1);
    var s2 := EndInput(at, s1);
    RestingPlaced(s2);
    CloseAllRests(at, s2, |s2.out|);
    var s3 := CloseAll(at, s2);
    RestingPlaced(s3);
    InsertedEnds(s3.out, s3.valueIndents, |s2.out|);
  }

  lemma RestingPlaced(s: State)
    requires Resting(s)
    ensures Placed(s.valueIndents, |s.out|)
    ensures Nesting(Inserted(s.out, s.valueIndents), OUTSIDE) == Some(Nest(Blocks(s.levels), []))
  {
    assert s.out[..|s.out|] == s.out;
  }

  /** For every sequence of raw tokens and either run, the output is well nested, and ends in a
      newline followed only by closers of levels. */
  lemma LaidNests(source: string, resync: set<nat>, raw: seq<Lexeme>)
    requires Raw(source, raw)
    ensures var out := Laid(source, resync, raw).out; WellNested(out) && exists n :: LineEnded(out, n)
  {
    AfterShape(source, resync, raw, |raw|);
    FinishNests(|source|, After(source, resync, raw, |raw|));
  }
}
