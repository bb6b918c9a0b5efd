/** The layout pass as the lexer runs it: one object whose fields each token updates, run once, and
    a second time when the first run asks for brackets to close early. */
module LayoutRun {
  import opened Options
  import opened LayoutMachine
  import opened LayoutNesting
  import opened LayoutOrder
  import opened LayoutLedger
  import Blocks = LayoutBlocks

  /** The brackets whose statement has ended are at the bottom of the stack. */
  ghost predicate EndedBelow(bs: seq<OpenBracket>) {
    forall i, j :: 0 <= i <= j < |bs| && bs[j].ended ==> bs[i].ended
  }

  ghost predicate Rising(xs: seq<nat>) {
    forall i, j :: 0 <= i < j < |xs| ==> xs[i] < xs[j]
  }

  function AsSet(xs: seq<nat>): set<nat> {
    set x | x in xs
  }

  lemma {:induction false} CloseEarlyPrefix(at: nat, s: State)
    ensures CloseEarly(at, s).brackets <= s.brackets
    decreases |s.brackets|
  {
    if s.brackets != [] && Last(s.brackets).ClosesEarly() { CloseEarlyPrefix(at, GiveUp(at, s)); }
  }

  lemma PhysicalLineEnded(source: string, tok: Token, span: Span, newline: Span, s: State)
    requires span.start <= |source| && EndedBelow(s.brackets)
    ensures EndedBelow(PhysicalLine(source, tok, span, newline, s).brackets)
  {
    hide CloseEarly, Column;
    var s0 := s.(brackets := Ended(s.brackets));
    CloseEarlyPrefix(newline.start, s0);
    EndLineClean(newline, CloseEarly(newline.start, s0));
    hide EndLine;
    assert forall i :: 0 <= i < |CloseEarly(newline.start, s0).brackets| ==>
        CloseEarly(newline.start, s0).brackets[i] == s0.brackets[i];
  }

  lemma IndentedBrackets(source: string, span: Span, s: State)
    requires span.start <= |source| && s.levels != []
    ensures Indented(source, span, s).brackets == s.brackets
  {
    hide CloseLevels, LineOf, TopCloses;
    CloseLevelsClean(Column(source, span.start), span.start,
        s.(lineIndent := Column(source, span.start), lineShort := false, shortHeader := None));
  }

  lemma BeginEnded(source: string, t: Lexeme, s: State)
    requires t.span.start <= |source| && s.levels != [] && EndedBelow(s.brackets)
    ensures EndedBelow(Begin(source, t, s).brackets)
  {
    hide PhysicalLine, Indented, EndedBelow;
    var s0 := s.(droppedNewline := None);
    var dropped := !t.tok.Newline? && s.droppedNewline.Some?;
    if dropped { PhysicalLineEnded(source, t.tok, t.span, s.droppedNewline.value, s0); }
    var s1 := if dropped then PhysicalLine(source, t.tok, t.span, s.droppedNewline.value, s0) else s;
    if s1.atLineStart && s1.brackets == [] { IndentedBrackets(source, t.span, s1); }
  }

  lemma EmitEnded(resync: set<nat>, index: nat, t: Lexeme, s: State)
    requires EndedBelow(s.brackets)
    ensures EndedBelow(Emit(resync, index, t, s).brackets)
  {
    hide EndLine, CloseBracket;
    if t.tok.Newline? { EndLineClean(t.span, s); }
    if t.tok.Close? { CloseBracketEnded(t.tok.b, t.span, s); }
  }

  lemma CloseBracketEnded(kind: Bracket, span: Span, s: State)
    requires EndedBelow(s.brackets)
    ensures EndedBelow(CloseBracket(kind, span, s).brackets)
  {
    hide Matching;
    var i := Innermost(kind, s.brackets);
    if i.Some? {
      MatchingParts(i.value, kind, span, s);
    } else if s.brackets != [] {
      MetEnded(kind, span, s.brackets);
    }
  }

  lemma MetEnded(kind: Bracket, span: Span, bs: seq<OpenBracket>)
    requires bs != [] && EndedBelow(bs)
    ensures EndedBelow(Met(kind, span, bs))
  {
    assert forall i :: 0 <= i < |bs| ==> Met(kind, span, bs)[i].ended == bs[i].ended;
  }

  lemma StepEnded(source: string, resync: set<nat>, index: nat, t: Lexeme, s: State)
    requires t.span.start <= |source| && s.levels != [] && EndedBelow(s.brackets)
    ensures EndedBelow(Step(source, resync, index, t, s).brackets)
  {
    hide EndedBelow, Begin, Emit;
    if !(s.atLineStart && t.tok.Newline?) {
      BeginEnded(source, t, s);
      EmitEnded(resync, index, t, Begin(source, t, s));
    }
  }

  class Layout {
    const source: string
    const resync: seq<nat>
    var out: seq<Lexeme>
    var errors: seq<LexError>
    var levels: seq<Level>
    var brackets: seq<OpenBracket>
    var resyncNext: seq<nat>
    var atLineStart: bool
    var droppedNewline: Option<Span>
    var lineHead: (nat, nat)
    var valueIndents: seq<(nat, nat)>
    var opensAtFirst: bool
    var headNext: bool
    var headIsFirst: bool
    var lineShort: bool
    var shortHeader: Option<nat>
    var lineIndent: nat

    ghost function Now(): State
      reads this
    {
      State(out, errors, levels, brackets, resyncNext, atLineStart, droppedNewline, lineHead, valueIndents,
            opensAtFirst, headNext, headIsFirst, lineShort, shortHeader, lineIndent)
    }

    constructor (source: string, resync: seq<nat>)
      ensures this.source == source && this.resync == resync && Now() == START
    {
      this.source, this.resync := source, resync;
      out, errors, levels, brackets, resyncNext := [], [], [Fixed(0)], [], [];
      atLineStart, droppedNewline, lineHead, valueIndents := true, None, (0, 0), [];
      opensAtFirst, headNext, headIsFirst, lineShort, shortHeader, lineIndent := false, false, false, false, None, 0;
    }

    /** The start of the line that holds `at`, and the offset from it. */
    method ColumnOf(at: nat) returns (lineStart: nat, indent: nat)
      requires at <= |source|
      ensures lineStart == LineOf(source, at) && indent == Column(source, at)
    {
      lineStart := at;
      while lineStart > 0 && source[lineStart - 1] != '\n'
        invariant lineStart <= at && LineOf(source, lineStart) == LineOf(source, at)
      {
        lineStart := lineStart - 1;
      }
      indent := at - lineStart;
    }

    /** Whether the previous run asked for the bracket at `index` to close early. */
    method Asked(index: nat) returns (b: bool)
      requires Rising(resync)
      ensures b == (index in AsSet(resync))
    {
      var lo, hi := 0, |resync|;
      while lo < hi
        invariant 0 <= lo <= hi <= |resync|
        invariant forall i :: 0 <= i < lo ==> resync[i] < index
        invariant forall i :: hi <= i < |resync| ==> resync[i] > index
      {
        var mid := (lo + hi) / 2;
        if resync[mid] == index {
          return true;
        } else if resync[mid] < index {
          lo := mid + 1;
        } else {
          hi := mid;
        }
      }
      return false;
    }

    method BeginStatement(tok: Token, span: Span)
      modifies this
      ensures Now() == StatementHead(tok, span, old(Now()))
    {
      lineHead := (|out|, span.start);
      if headIsFirst {
        opensAtFirst := tok.BlockKeyword?;
      }
      headNext := tok.Pub? || tok.Const?;
    }

    method BeginLine(tok: Token, span: Span)
      requires span.start <= |source| && levels != []
      modifies this
      ensures Now() == LineStart(source, tok, span, old(Now()))
    {
      var start, indent := ColumnOf(span.start);
      IndentLine(span, start, indent);
      headIsFirst := true;
      BeginStatement(tok, span);
    }

    method IndentLine(span: Span, start: nat, indent: nat)
      requires span.start <= |source| && levels != [] && start == LineOf(source, span.start)
               && indent == Column(source, span.start)
      modifies this
      ensures Now() == Indented(source, span, old(Now()))
    {
      hide CloseLevels, Settle, Column, LineOf;
      var floor := levels[|levels| - 1].Floor();
      var current := if shortHeader.Some? && shortHeader.value < floor then shortHeader.value else floor;
      lineIndent, lineShort, shortHeader := indent, false, None;
      if indent > current {
        levels := levels + [Fixed(indent)];
        out := out + [Lexeme(Indent, Span(start, span.start))];
      } else {
        CloseTo(indent, span.start);
        SettleLine(indent, span);
      }
    }

    method CloseTo(indent: nat, at: nat)
      requires levels != []
      modifies this
      ensures Now() == CloseLevels(indent, at, old(Now()))
    {
      ghost var s := Now();
      while |levels| >= 2 && levels[|levels| - 1].ClosesAt(indent)
            && !(levels[|levels| - 1].Fixed? && levels[|levels| - 2].Strands(indent))
        invariant levels != [] && CloseLevels(indent, at, Now()) == CloseLevels(indent, at, s)
        decreases |levels|
      {
        var top := levels[|levels| - 1];
        levels := levels[..|levels| - 1];
        out := out + [Lexeme(top.Closer(), At(at))];
      }
    }

    method SettleLine(indent: nat, span: Span)
      requires levels != []
      modifies this
      ensures Now() == Settle(indent, span, old(Now()))
    {
      var top := levels[|levels| - 1];
      if top.Pending? {
        levels := levels[..|levels| - 1] + [Pinned(indent)];
      } else if top.c != indent {
        lineShort := top.c > indent;
        errors := errors + [InconsistentIndent(span)];
      }
    }

    method FinishLine(span: Span)
      modifies this
      ensures Now() == EndLine(span, old(Now()))
    {
      var opens := out != [] && out[|out| - 1].tok.Colon?;
      if opens && !opensAtFirst {
        levels := levels + [Pending(lineIndent)];
        valueIndents := valueIndents + [lineHead];
      }
      if opens && lineShort {
        shortHeader := Some(lineIndent);
      }
      out := out + [Lexeme(Newline, span)];
      atLineStart := true;
    }

    /** Closes the innermost bracket with a zero-width closer. */
    method GiveUpOne(at: nat)
      requires brackets != []
      modifies this
      ensures Now() == GiveUp(at, old(Now()))
    {
      var bracket := brackets[|brackets| - 1];
      brackets := brackets[..|brackets| - 1];
      out := out + [Lexeme(Close(bracket.kind), At(at))];
      errors := errors + [bracket.NeverClosed()];
    }

    /** Sets the flag on every open bracket. The walk goes down from the innermost bracket and stops
        at the first one that has it. */
    method MarkEnded()
      requires EndedBelow(brackets)
      modifies this`brackets
      ensures brackets == Ended(old(brackets))
    {
      ghost var bs := brackets;
      var i := |brackets|;
      while i > 0 && !brackets[i - 1].ended
        invariant 0 <= i <= |brackets| == |bs|
        invariant forall j :: 0 <= j < i ==> brackets[j] == bs[j]
        invariant forall j :: i <= j < |bs| ==> brackets[j] == bs[j].(ended := true)
      {
        i := i - 1;
        brackets := brackets[i := brackets[i].(ended := true)];
      }
      assert forall j :: 0 <= j < i ==> bs[j].ended && bs[j].(ended := true) == bs[j];
    }

    method PhysicalLineStart(tok: Token, span: Span, newline: Span)
      requires span.start <= |source| && EndedBelow(brackets)
      modifies this
      ensures Now() == PhysicalLine(source, tok, span, newline, old(Now()))
    {
      hide CloseEarly, EndLine, Column, Ended, EndedBelow;
      var _, indent := ColumnOf(span.start);
      if indent > lineIndent || tok.Close? {
        return;
      }
      MarkEnded();
      CloseEarlyOnes(newline.start);
      if brackets == [] {
        FinishLine(newline);
      }
    }

    method CloseEarlyOnes(at: nat)
      modifies this
      ensures Now() == CloseEarly(at, old(Now()))
    {
      ghost var s := Now();
      while brackets != [] && brackets[|brackets| - 1].ClosesEarly()
        invariant CloseEarly(at, Now()) == CloseEarly(at, s)
        decreases |brackets|
      {
        GiveUpOne(at);
      }
    }

    method FindInnermost(kind: Bracket) returns (i: Option<nat>)
      ensures i == Innermost(kind, brackets)
    {
      var j := |brackets|;
      while j > 0
        invariant 0 <= j <= |brackets| && Innermost(kind, brackets[..j]) == Innermost(kind, brackets)
      {
        assert Front(brackets[..j]) == brackets[..j - 1];
        if brackets[j - 1].kind == kind {
          return Some(j - 1);
        }
        j := j - 1;
      }
      return None;
    }

    method CloseOne(kind: Bracket, span: Span)
      modifies this
      ensures Now() == CloseBracket(kind, span, old(Now()))
    {
      var i := FindInnermost(kind);
      if i.None? {
        if brackets != [] && brackets[|brackets| - 1].stray.None? {
          MeetInnermost(kind, span);
        } else {
          errors := errors + [UnmatchedClose(span)];
        }
      } else {
        CloseMatching(i.value, kind, span);
      }
    }

    method MeetInnermost(kind: Bracket, span: Span)
      requires brackets != []
      modifies this`brackets
      ensures brackets == Met(kind, span, old(brackets))
    {
      var top := brackets[|brackets| - 1];
      if top.stray.None? {
        brackets := brackets[..|brackets| - 1] + [top.(stray := Some((kind, span)))];
      }
    }

    method CloseMatching(i: nat, kind: Bracket, span: Span)
      requires i < |brackets|
      modifies this
      ensures Now() == Matching(i, kind, span, old(Now()))
    {
      hide CloseDown, Met, TakeMatched;
      ghost var bs := brackets;
      var others := i + 1 < |brackets|;
      if others {
        MetKinds(kind, span, bs);
        MeetInnermost(kind, span);
        CloseInner(i + 1, span.start);
        assert Met(kind, span, bs)[..i + 1] == bs[..i + 1];
      }
      assert brackets == bs[..i] + [bs[i]];
      PopMatched(others, Lexeme(Close(kind), span));
    }

    method PopMatched(others: bool, t: Lexeme)
      requires brackets != []
      modifies this
      ensures Now() == TakeMatched(others, Last(old(brackets)), Front(old(brackets)), t, old(Now()))
    {
      var matched := brackets[|brackets| - 1];
      brackets := brackets[..|brackets| - 1];
      if others && matched.ended {
        resyncNext := resyncNext + [matched.index];
      }
      if matched.stray.Some? {
        errors := errors + [UnmatchedClose(matched.stray.value.1)];
      }
      out := out + [t];
    }

    method CloseInner(n: nat, at: nat)
      requires n <= |brackets|
      modifies this
      ensures Now() == CloseDown(n, at, old(Now())) && brackets == old(brackets)[..n]
    {
      ghost var s := Now();
      CloseDownLeaves(n, at, s);
      while |brackets| > n
        invariant n <= |brackets| && CloseDown(n, at, Now()) == CloseDown(n, at, s)
        decreases |brackets|
      {
        GiveUpOne(at);
      }
    }

    method BeginToken(t: Lexeme)
      requires t.span.start <= |source| && levels != [] && EndedBelow(brackets)
      modifies this
      ensures Now() == Begin(source, t, old(Now()))
    {
      hide PhysicalLine, LineStart, StatementHead, EndedBelow;
      if !t.tok.Newline? && droppedNewline.Some? {
        var newline := droppedNewline.value;
        droppedNewline := None;
        PhysicalLineStart(t.tok, t.span, newline);
      }
      if atLineStart && brackets == [] {
        BeginLine(t.tok, t.span);
      } else if headNext && !t.tok.Newline? {
        BeginStatement(t.tok, t.span);
      }
      atLineStart := false;
    }

    method OpenOne(b: Bracket, index: nat, t: Lexeme)
      requires Rising(resync)
      modifies this
      ensures Now() == old(Now()).(brackets := old(brackets)
              + [OpenBracket(b, t.span, index, index in AsSet(resync), false, None)],
                                   out := old(out) + [t])
    {
      var asked := Asked(index);
      brackets := brackets + [OpenBracket(b, t.span, index, asked, false, None)];
      out := out + [t];
    }

    /** A newline inside brackets: the first one is kept in case the next line closes them. */
    method DropNewline(span: Span)
      modifies this
      ensures Now() == old(Now()).(droppedNewline := if old(droppedNewline).Some? then old(droppedNewline)
              else Some(span))
    {
      if droppedNewline.None? {
        droppedNewline := Some(span);
      }
    }

    method EmitToken(index: nat, t: Lexeme)
      requires Rising(resync)
      modifies this
      ensures Now() == Emit(AsSet(resync), index, t, old(Now()))
    {
      hide CloseBracket, EndLine;
      match t.tok {
        case Open(b) => OpenOne(b, index, t);
        case Close(b) => CloseOne(b, t.span);
        case Newline =>
          if brackets == [] {
            FinishLine(t.span);
          } else {
            DropNewline(t.span);
          }
        case _ => EmitPlain(t);
      }
    }

    /** A token that is neither a bracket nor a newline; after a `;` a statement begins. */
    method EmitPlain(t: Lexeme)
      modifies this
      ensures var s := old(Now()).(out := old(out) + [t]);
              Now() == if t.tok.Semi? && old(brackets) == [] then s.(headNext := true, headIsFirst := false) else s
    {
      out := out + [t];
      if t.tok.Semi? && brackets == [] {
        headNext, headIsFirst := true, false;
      }
    }

    method Take(index: nat, t: Lexeme)
      requires t.span.start <= |source| && levels != [] && EndedBelow(brackets) && Rising(resync)
      modifies this
      ensures Now() == Step(source, AsSet(resync), index, t, old(Now())) && EndedBelow(brackets)
    {
      StepEnded(source, AsSet(resync), index, t, Now());
      hide Begin, Emit, EndedBelow;
      if atLineStart && t.tok.Newline? {
        return;
      }
      BeginToken(t);
      EmitToken(index, t);
    }

    method End()
      requires Shape(Now())
      modifies this
      ensures Now() == Finish(|source|, old(Now()))
    {
      FinishPlaced(|source|, Now());
      hide GiveUpAll, CloseAll, Inserted, Shape, Placed, EndInput;
      var at := |source|;
      GiveUpBrackets(at);
      EndLastLine(at);
      CloseAllLevels(at);
      out := InsertAll(out, valueIndents);
    }

    method EndLastLine(at: nat)
      modifies this
      ensures Now() == EndInput(at, old(Now()))
    {
      if out == [] || !out[|out| - 1].tok.Newline? {
        out := out + [Lexeme(Newline, At(at))];
      }
    }

    method GiveUpBrackets(at: nat)
      modifies this
      ensures Now() == GiveUpAll(at, old(Now()))
    {
      ghost var s := Now();
      while brackets != []
        invariant GiveUpAll(at, Now()) == GiveUpAll(at, s)
        decreases |brackets|
      {
        var index := brackets[|brackets| - 1].index;
        GiveUpOne(at);
        resyncNext := resyncNext + [index];
      }
    }

    method CloseAllLevels(at: nat)
      modifies this
      ensures Now() == CloseAll(at, old(Now()))
    {
      ghost var s := Now();
      while |levels| > 1
        invariant CloseAll(at, Now()) == CloseAll(at, s)
        decreases |levels|
      {
        var top := levels[|levels| - 1];
        levels := levels[..|levels| - 1];
        out := out + [Lexeme(top.Closer(), At(at))];
      }
    }
  }

  /** Makes the deferred insertions in one pass over the output. */
  method InsertAll(out: seq<Lexeme>, ins: seq<(nat, nat)>) returns (built: seq<Lexeme>)
    requires Placed(ins, |out|)
    ensures built == Inserted(out, ins)
  {
    built := [];
    var k: nat := 0;
    for i := 0 to |out|
      invariant k <= |ins| && built == Inserted(out[..i], ins[..k])
      invariant forall j :: 0 <= j < k ==> ins[j].0 < i
      invariant forall j :: k <= j < |ins| ==> ins[j].0 >= i
    {
      if k < |ins| && ins[k].0 == i {
        built := built + [Lexeme(BlockValueIndent, At(ins[k].1))];
        k := k + 1;
      }
      built := built + [out[i]];
      InsertedNext(out, ins, i, if k > 0 && ins[k - 1].0 == i then k - 1 else k);
    }
    assert out[..|out|] == out && ins[..k] == ins;
  }

  /** The output up to the token at `i`, where the first `k` insertions go before `i`. */
  lemma InsertedNext(out: seq<Lexeme>, ins: seq<(nat, nat)>, i: nat, k: nat)
    requires Placed(ins, |out|) && i < |out| && k <= |ins|
    requires (forall j :: 0 <= j < k ==> ins[j].0 < i) && (forall j :: k <= j < |ins| ==> ins[j].0 >= i)
    ensures if k < |ins| && ins[k].0 == i
            then Inserted(out[..i + 1], ins[..k + 1]) == Inserted(out[..i], ins[..k])
                + [Lexeme(BlockValueIndent, At(ins[k].1))] + [out[i]]
            else Inserted(out[..i + 1], ins[..k]) == Inserted(out[..i], ins[..k]) + [out[i]]
  {
    if k < |ins| && ins[k].0 == i {
      InsertedLast(out[..i + 1], ins[..k], i, ins[k].1);
      assert ins[..k + 1] == ins[..k] + [(i, ins[k].1)];
      assert out[..i + 1][..i] == out[..i] && out[..i + 1][i..] == [out[i]];
    } else {
      InsertedTail(out[..i], [out[i]], ins[..k]);
      assert out[..i + 1] == out[..i] + [out[i]];
    }
  }

  lemma FinishPlaced(at: nat, s: State)
    requires Shape(s)
    ensures var r := CloseAll(at, EndInput(at, GiveUpAll(at, s))); Placed(r.valueIndents, |r.out|)
  {
    hide Resting, LineEnded, Placed, CloseAll, EndInput, GiveUpAll, Shape;
    GiveUpAllRests(at, s);
    EndInputRests(at, GiveUpAll(at, s));
    var s2 := EndInput(at, GiveUpAll(at, s));
    RestingPlaced(s2);
    CloseAllRests(at, s2, |s2.out|);
    RestingPlaced(CloseAll(at, s2));
  }

  /** One run over the raw tokens. */
  method RunLayout(source: string, raw: seq<Lexeme>, resync: seq<nat>) returns (out: seq<Lexeme>,
          errors: seq<LexError>, resyncNext: seq<nat>)
    requires Raw(source, raw) && Rising(resync)
    ensures var s := Laid(source, AsSet(resync), raw); out == s.out && errors == s.errors && resyncNext == s.resyncNext
  {
    var layout := new Layout(source, resync);
    for n := 0 to |raw|
      invariant layout.source == source && layout.resync == resync && EndedBelow(layout.brackets)
      invariant layout.Now() == After(source, AsSet(resync), raw, n)
    {
      assert RawToken(source, raw[n]);
      layout.Take(n, raw[n]);
    }
    AfterShape(source, AsSet(resync), raw, |raw|);
    layout.End();
    out, errors, resyncNext := layout.out, layout.errors, layout.resyncNext;
  }

  /** `xs` in rising order, without repeats. */
  method SortedDistinct(xs: seq<nat>) returns (ys: seq<nat>)
    ensures Rising(ys) && AsSet(ys) == AsSet(xs)
  {
    ys := [];
    for n := 0 to |xs|
      invariant Rising(ys) && AsSet(ys) == AsSet(xs[..n])
    {
      var i := 0;
      while i < |ys| && ys[i] < xs[n]
        invariant 0 <= i <= |ys| && forall j :: 0 <= j < i ==> ys[j] < xs[n]
      {
        i := i + 1;
      }
      assert AsSet(xs[..n + 1]) == AsSet(xs[..n]) + {xs[n]} by { assert xs[..n + 1] == xs[..n] + [xs[n]]; }
      if i == |ys| || ys[i] != xs[n] {
        var zs := ys[..i] + [xs[n]] + ys[i..];
        assert AsSet(zs) == AsSet(ys) + {xs[n]} by {
          assert ys == ys[..i] + ys[i..];
          assert forall x :: x in zs <==> x in ys || x == xs[n];
        }
        ys := zs;
      } else {
        assert xs[n] in AsSet(ys);
      }
    }
    assert xs[..|xs|] == xs;
  }

  /** The layout of a source: the second run, with the brackets the first one asks to close early.
      Its stream is well nested, ends in a newline and closers, its starts never decrease, and its
      block values open on the lines that say so. */
  method Tokenize(source: string, raw: seq<Lexeme>) returns (out: seq<Lexeme>, errors: seq<LexError>,
          ghost resync: set<nat>)
    requires Raw(source, raw)
    ensures out == Laid(source, resync, raw).out && errors == Laid(source, resync, raw).errors
    ensures WellNested(out) && (exists n :: LineEnded(out, n)) && Ascending(out) && Blocks.ValuesStand(raw, out)
    ensures resync == AsSet(Laid(source, {}, raw).resyncNext)
    ensures resync != {} ==> Laid(source, {}, raw).errors != []
    ensures BracketRun(raw, []) == Some([]) ==> resync == {}
  {
    var next;
    out, errors, next := RunLayout(source, raw, []);
    assert AsSet([]) == {};
    resync := {};
    LaidBooks(source, {}, raw);
    if BracketRun(raw, []) == Some([]) { BalancedInput(source, raw); }
    if next != [] {
      var again := SortedDistinct(next);
      resync := AsSet(again);
      out, errors, next := RunLayout(source, raw, again);
    }
    LaidNests(source, resync, raw);
    LaidOrder(source, resync, raw);
    Blocks.LaidBlocks(source, resync, raw);
  }
}
