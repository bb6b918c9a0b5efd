/** The layout stack's columns: which level a line lands in, and how the columns are ordered. */
module LayoutMargins {
  import opened Options
  import opened LayoutMachine
  import opened LayoutNesting

  ghost predicate Consistent(errors: seq<LexError>) {
    forall i :: 0 <= i < |errors| ==> !errors[i].InconsistentIndent?
  }

  /** Columns rise up the stack; a pending level may stand at the column below it. */
  ghost predicate Stairs(levels: seq<Level>) {
    forall i :: 0 < i < |levels| ==>
      levels[i - 1].Floor() < levels[i].Floor() || (levels[i].Pending? && levels[i - 1].Floor() == levels[i].Floor())
  }

  /** Without an inconsistent indentation, the top level is at the line's column. */
  ghost predicate Margins(s: State) {
    && s.levels != []
    && (Consistent(s.errors) ==>
          !s.lineShort && s.shortHeader.None? && Stairs(s.levels) && Last(s.levels).Floor() == s.lineIndent)
  }

  lemma {:induction false} CloseLevelsStairs(indent: nat, at: nat, s: State)
    requires s.levels != [] && Stairs(s.levels)
    ensures var r := CloseLevels(indent, at, s); r.levels != [] && Stairs(r.levels) && !TopCloses(r.levels, indent)
    decreases |s.levels|
  {
    if TopCloses(s.levels, indent) {
      CloseLevelsStairs(indent, at, s.(levels := Front(s.levels),
          out := s.out + [Lexeme(Last(s.levels).Closer(), At(at))]));
    }
  }

  lemma {:induction false} CloseLevelsStops(indent: nat, at: nat, s: State)
    ensures var r := CloseLevels(indent, at, s);
            && !TopCloses(r.levels, indent) && r.levels <= s.levels && r.errors == s.errors
                && r.lineIndent == s.lineIndent
            && r.lineShort == s.lineShort && r.shortHeader == s.shortHeader
    decreases |s.levels|
  {
    if TopCloses(s.levels, indent) {
      CloseLevelsStops(indent, at, s.(levels := Front(s.levels),
          out := s.out + [Lexeme(Last(s.levels).Closer(), At(at))]));
    }
  }

  /** A line lands in a level at its own column exactly when it draws no error. */
  lemma LineLands(source: string, span: Span, s: State)
    requires span.start <= |source| && s.levels != [] && s.levels[0] == Fixed(0)
    ensures var r := Indented(source, span, s);
            && r.lineIndent == Column(source, span.start)
            && (r.errors == s.errors <==> Last(r.levels).Floor() == r.lineIndent)
            && (r.errors == s.errors || r.errors == s.errors + [InconsistentIndent(span)])
  {
    var indent := Column(source, span.start);
    var s1 := s.(lineIndent := indent, lineShort := false, shortHeader := None);
    CloseLevelsStops(indent, span.start, s1);
  }

  lemma SettleMargins(indent: nat, span: Span, s: State)
    requires s.levels != [] && s.levels[0] == Fixed(0) && Stairs(s.levels) && !TopCloses(s.levels, indent)
    requires s.lineIndent == indent && !s.lineShort && s.shortHeader.None?
    ensures Margins(Settle(indent, span, s))
  {
    var r, top := Settle(indent, span, s), Last(s.levels);
    if top.Pending? {
      forall i | 0 < i < |r.levels|
        ensures r.levels[i - 1].Floor() < r.levels[i].Floor()
                || (r.levels[i].Pending? && r.levels[i - 1].Floor() == r.levels[i].Floor())
      {
        if i < |s.levels| - 1 { assert r.levels[i] == s.levels[i]; }
        assert r.levels[i - 1] == s.levels[i - 1];
      }
    } else if top.c != indent {
      assert r.errors[|s.errors|].InconsistentIndent?;
    }
  }

  lemma IndentedMargins(source: string, span: Span, s: State)
    requires span.start <= |source| && Margins(s) && s.levels[0] == Fixed(0)
    ensures Margins(Indented(source, span, s))
  {
    hide Column, LineOf;
    var indent := Column(source, span.start);
    var s1 := s.(lineIndent := indent, lineShort := false, shortHeader := None);
    if indent > Threshold(s) {
      var levels := s.levels + [Fixed(indent)];
      if Stairs(s.levels) && Last(s.levels).Floor() < indent {
        forall i | 0 < i < |levels|
          ensures levels[i - 1].Floor() < levels[i].Floor()
                  || (levels[i].Pending? && levels[i - 1].Floor() == levels[i].Floor())
        {
          if i < |s.levels| { assert levels[i] == s.levels[i] && levels[i - 1] == s.levels[i - 1]; }
        }
        assert Stairs(levels);
      }
    } else {
      SettledMargins(indent, span, s1);
    }
  }

  lemma SettledMargins(indent: nat, span: Span, s: State)
    requires s.levels != [] && s.levels[0] == Fixed(0) && (Consistent(s.errors) ==> Stairs(s.levels))
    requires s.lineIndent == indent && !s.lineShort && s.shortHeader.None?
    ensures Margins(Settle(indent, span, CloseLevels(indent, span.start, s)))
  {
    hide Settle, CloseLevels, TopCloses;
    CloseLevelsStops(indent, span.start, s);
    var r := CloseLevels(indent, span.start, s);
    SettleErrors(indent, span, r);
    if Consistent(s.errors) {
      CloseLevelsStairs(indent, span.start, s);
      SettleMargins(indent, span, r);
    }
  }

  lemma SettleErrors(indent: nat, span: Span, s: State)
    requires s.levels != []
    ensures Settle(indent, span, s).levels != [] && (Consistent(Settle(indent, span, s).errors) ==>
            Consistent(s.errors))
  {
    var r := Settle(indent, span, s);
    assert forall i :: 0 <= i < |s.errors| ==> r.errors[i] == s.errors[i];
  }

  lemma EndLineMargins(span: Span, s: State)
    requires Margins(s)
    ensures Margins(EndLine(span, s))
  {
    var levels := s.levels + [Pending(s.lineIndent)];
    if Stairs(s.levels) && Last(s.levels).Floor() == s.lineIndent {
      forall i | 0 < i < |levels|
        ensures levels[i - 1].Floor() < levels[i].Floor()
                || (levels[i].Pending? && levels[i - 1].Floor() == levels[i].Floor())
      {
        if i < |s.levels| { assert levels[i] == s.levels[i] && levels[i - 1] == s.levels[i - 1]; }
      }
      assert Stairs(levels);
    }
  }

  /** The parts of the state that `Margins` is about, with perhaps more errors. */
  ghost predicate SameMargins(s: State, r: State) {
    && r.levels == s.levels && r.lineIndent == s.lineIndent && r.lineShort == s.lineShort
        && r.shortHeader == s.shortHeader
    && s.errors <= r.errors
  }

  lemma MarginsStay(s: State, r: State)
    requires Margins(s) && SameMargins(s, r)
    ensures Margins(r)
  {
    assert forall i :: 0 <= i < |s.errors| ==> r.errors[i] == s.errors[i];
  }

  lemma {:induction false} CloseEarlyMargins(at: nat, s: State)
    ensures SameMargins(s, CloseEarly(at, s))
    decreases |s.brackets|
  {
    if s.brackets != [] && Last(s.brackets).ClosesEarly() { CloseEarlyMargins(at, GiveUp(at, s)); }
  }

  lemma {:induction false} CloseDownMargins(n: nat, at: nat, s: State)
    ensures SameMargins(s, CloseDown(n, at, s))
    decreases |s.brackets|
  {
    if |s.brackets| > n { CloseDownMargins(n, at, GiveUp(at, s)); }
  }

  lemma PhysicalLineMargins(source: string, tok: Token, span: Span, newline: Span, s: State)
    requires span.start <= |source| && Margins(s)
    ensures Margins(PhysicalLine(source, tok, span, newline, s))
  {
    hide Margins, CloseEarly, EndLine, Column;
    var s0 := s.(brackets := Ended(s.brackets));
    CloseEarlyMargins(newline.start, s0);
    var s1 := CloseEarly(newline.start, s0);
    MarginsStay(s, s1);
    EndLineMargins(newline, s1);
  }

  lemma BeginMargins(source: string, t: Lexeme, s: State)
    requires t.span.start <= |source| && Margins(s) && s.levels[0] == Fixed(0)
    ensures Margins(Begin(source, t, s))
  {
    assert s.levels != [];
    hide Margins, PhysicalLine, Indented;
    var s0 := s.(droppedNewline := None);
    MarginsStay(s, s0);
    var dropped := !t.tok.Newline? && s.droppedNewline.Some?;
    if dropped { PhysicalLineMargins(source, t.tok, t.span, s.droppedNewline.value, s0); }
    var s1 := if dropped then PhysicalLine(source, t.tok, t.span, s.droppedNewline.value, s0) else s;
    if s1.atLineStart && s1.brackets == [] {
      IndentedMargins(source, t.span, s1);
      MarginsStay(Indented(source, t.span, s1), Begin(source, t, s));
    } else {
      MarginsStay(s1, Begin(source, t, s));
    }
  }

  lemma CloseBracketMargins(kind: Bracket, span: Span, s: State)
    ensures SameMargins(s, CloseBracket(kind, span, s))
  {
    hide CloseDown, Met, Innermost;
    var i := Innermost(kind, s.brackets);
    if i.Some? && i.value + 1 < |s.brackets| {
      CloseDownMargins(i.value + 1, span.start, s.(brackets := Met(kind, span, s.brackets)));
    }
  }

  lemma EmitMargins(resync: set<nat>, index: nat, t: Lexeme, s: State)
    requires Margins(s)
    ensures Margins(Emit(resync, index, t, s))
  {
    hide Margins, CloseBracket, EndLine;
    var r := Emit(resync, index, t, s);
    if t.tok.Close? {
      CloseBracketMargins(t.tok.b, t.span, s);
      MarginsStay(s, r);
    } else if t.tok.Newline? && s.brackets == [] {
      EndLineMargins(t.span, s);
    } else {
      MarginsStay(s, r);
    }
  }

  lemma StartMargins()
    ensures Margins(START)
  {
  }

  lemma Bottom(s: State)
    requires Shape(s)
    ensures s.levels != [] && s.levels[0] == Fixed(0)
  {
  }

  /** In every run without an inconsistent indentation, after every token, columns rise up the
      stack and the top level is at the current line's column; in every run the bottom level is at
      column zero. */
  lemma {:induction false} AfterMargins(source: string, resync: set<nat>, raw: seq<Lexeme>, n: nat)
    requires n <= |raw| && Raw(source, raw)
    ensures var s := After(source, resync, raw, n); Margins(s) && s.levels[0] == Fixed(0)
  {
    hide Step, Margins, Shape;
    AfterShape(source, resync, raw, n);
    Bottom(After(source, resync, raw, n));
    if n == 0 {
      StartMargins();
    } else {
      AfterMargins(source, resync, raw, n - 1);
      StepMargins(source, resync, n - 1, raw[n - 1], After(source, resync, raw, n - 1));
    }
  }

  lemma StepMargins(source: string, resync: set<nat>, index: nat, t: Lexeme, s: State)
    requires t.span.start <= |source| && Margins(s) && s.levels[0] == Fixed(0)
    ensures Margins(Step(source, resync, index, t, s))
  {
    assert s.levels != [];
    hide Margins, Begin, Emit;
    if !(s.atLineStart && t.tok.Newline?) {
      BeginMargins(source, t, s);
      EmitMargins(resync, index, t, Begin(source, t, s));
    }
  }
}
