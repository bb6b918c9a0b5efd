/** A layout run loses nothing silently: what it drops and what it adds is named by its errors. */
module LayoutLedger {
  import opened Options
  import opened LayoutMachine
  import opened LayoutNesting
  import opened LayoutOrder

  // ----- What the output and the errors say -----

  /** The tokens of a stream that the source wrote, newlines aside. */
  function Kept(ts: seq<Lexeme>): seq<Lexeme> {
    if ts == [] then [] else Kept(Front(ts)) + (if IsWritten(Last(ts)) then [Last(ts)] else [])
  }

  predicate IsWritten(t: Lexeme) {
    t.span.start < t.span.end && !t.tok.Newline? && !IsLayout(t.tok)
  }

  /** The kinds of the zero-width closers of a stream, in order. */
  function Repairs(ts: seq<Lexeme>): seq<Bracket> {
    if ts == [] then [] else Repairs(Front(ts)) + (if IsRepair(Last(ts)) then [Last(ts).tok.b] else [])
  }

  predicate IsRepair(t: Lexeme) {
    t.tok.Close? && t.span.start == t.span.end
  }

  /** The open brackets named as never closed, in order. */
  function NeverClosed(es: seq<LexError>): seq<Span> {
    if es == [] then []
    else NeverClosed(Front(es)) + (match Last(es)
                                   case UnclosedBracket(span) => [span]
                                   case MismatchedClose(_, _, open, _) => [open]
                                   case _ => [])
  }

  /** The close brackets that errors name. */
  function Blamed(es: seq<LexError>): multiset<Span> {
    if es == [] then multiset{}
    else Blamed(Front(es)) + (match Last(es)
                              case UnmatchedClose(span) => multiset{span}
                              case MismatchedClose(span, _, _, _) => multiset{span}
                              case _ => multiset{})
  }

  function Strays(bs: seq<OpenBracket>): multiset<Span> {
    if bs == [] then multiset{}
    else Strays(Front(bs)) + (if Last(bs).stray.Some? then multiset{Last(bs).stray.value.1} else multiset{})
  }

  function Spans(bs: seq<OpenBracket>): multiset<Span> {
    if bs == [] then multiset{} else Spans(Front(bs)) + multiset{Last(bs).span}
  }

  /** The close brackets that errors name, or will once the brackets they met close. */
  function Named(s: State): multiset<Span> {
    Blamed(s.errors) + Strays(s.brackets)
  }

  /** The open brackets that errors name, or that are open still. */
  function Unsettled(s: State): multiset<Span> {
    multiset(NeverClosed(s.errors)) + Spans(s.brackets)
  }

  ghost predicate Wrote(raw: seq<Lexeme>, kind: Bracket, span: Span) {
    exists i :: 0 <= i < |raw| && raw[i] == Lexeme(Open(kind), span)
  }

  /** Each zero-width closer has its error, for an open bracket of its kind. */
  ghost predicate Explained(raw: seq<Lexeme>, s: State) {
    && |Repairs(s.out)| == |NeverClosed(s.errors)|
    && (forall j :: 0 <= j < |NeverClosed(s.errors)| ==> Wrote(raw, Repairs(s.out)[j], NeverClosed(s.errors)[j]))
    && (forall j :: 0 <= j < |s.brackets| ==> Wrote(raw, s.brackets[j].kind, s.brackets[j].span))
  }

  /** The books of `r` are those of `s`. */
  ghost predicate SameBooks(raw: seq<Lexeme>, s: State, r: State) {
    && Kept(r.out) == Kept(s.out) && Named(r) == Named(s) && Unsettled(r) == Unsettled(s)
    && (Explained(raw, s) ==> Explained(raw, r))
    && (s.resyncNext != [] && s.errors != [] ==> r.errors != [])
  }

  // ----- One more -----

  lemma OutOne(out: seq<Lexeme>, t: Lexeme)
    ensures Kept(out + [t]) == Kept(out) + (if IsWritten(t) then [t] else [])
    ensures Repairs(out + [t]) == Repairs(out) + (if IsRepair(t) then [t.tok.b] else [])
  {
    assert Front(out + [t]) == out;
  }

  lemma ErrorOne(es: seq<LexError>, e: LexError)
    ensures NeverClosed(es + [e]) == NeverClosed(es) + (if e.UnclosedBracket? then [e.span] else if e.MismatchedClose?
            then [e.open] else [])
    ensures Blamed(es + [e]) == Blamed(es) + (if e.UnmatchedClose? || e.MismatchedClose? then multiset{e.span}
            else multiset{})
  {
    assert Front(es + [e]) == es;
  }

  lemma BracketsOne(bs: seq<OpenBracket>, b: OpenBracket)
    ensures Spans(bs + [b]) == Spans(bs) + multiset{b.span}
    ensures Strays(bs + [b]) == Strays(bs) + (if b.stray.Some? then multiset{b.stray.value.1} else multiset{})
  {
    assert Front(bs + [b]) == bs;
  }

  /** A token that the source did not write and that closes no bracket. */
  lemma LayoutOut(raw: seq<Lexeme>, s: State, t: Lexeme)
    requires t.tok.Newline? || IsLayout(t.tok)
    ensures SameBooks(raw, s, s.(out := s.out + [t]))
  {
    OutOne(s.out, t);
  }

  lemma GiveUpSums(at: nat, s: State)
    requires s.brackets != []
    ensures var top, r := Last(s.brackets), GiveUp(at, s);
            && Kept(r.out) == Kept(s.out) && Repairs(r.out) == Repairs(s.out) + [top.kind]
            && NeverClosed(r.errors) == NeverClosed(s.errors) + [top.span]
            && Named(r) == Named(s) && Unsettled(r) == Unsettled(s)
  {
    hide Kept, Repairs, NeverClosed, Blamed;
    var top, r := Last(s.brackets), GiveUp(at, s);
    OutOne(s.out, Lexeme(Close(top.kind), At(at)));
    ErrorOne(s.errors, top.NeverClosed());
    assert multiset(NeverClosed(s.errors) + [top.span]) == multiset(NeverClosed(s.errors)) + multiset{top.span};
  }

  lemma GiveUpBooks(raw: seq<Lexeme>, at: nat, s: State)
    requires s.brackets != []
    ensures SameBooks(raw, s, GiveUp(at, s))
  {
    hide Kept, Named, Unsettled, Wrote, Repairs, NeverClosed;
    GiveUpSums(at, s);
    if Explained(raw, s) {
      var top, r := Last(s.brackets), GiveUp(at, s);
      forall j | 0 <= j < |NeverClosed(r.errors)|
        ensures Wrote(raw, Repairs(r.out)[j], NeverClosed(r.errors)[j])
      {
        if j == |NeverClosed(s.errors)| { assert Wrote(raw, top.kind, top.span); }
      }
    }
  }

  lemma {:induction false} CloseEarlyBooks(raw: seq<Lexeme>, at: nat, s: State)
    ensures SameBooks(raw, s, CloseEarly(at, s)) && CloseEarly(at, s).resyncNext == s.resyncNext
    decreases |s.brackets|
  {
    hide SameBooks;
    if s.brackets != [] && Last(s.brackets).ClosesEarly() {
      GiveUpBooks(raw, at, s);
      CloseEarlyBooks(raw, at, GiveUp(at, s));
      BooksTwice(raw, s, GiveUp(at, s), CloseEarly(at, s));
    } else {
      BooksItself(raw, s);
    }
  }

  lemma BooksItself(raw: seq<Lexeme>, s: State)
    ensures SameBooks(raw, s, s)
  {
  }

  lemma BooksTwice(raw: seq<Lexeme>, s: State, t: State, r: State)
    requires SameBooks(raw, s, t) && SameBooks(raw, t, r) && t.resyncNext == s.resyncNext
    ensures SameBooks(raw, s, r)
  {
  }

  lemma {:induction false} CloseDownBooks(raw: seq<Lexeme>, n: nat, at: nat, s: State)
    ensures var r := CloseDown(n, at, s);
            SameBooks(raw, s, r) && r.resyncNext == s.resyncNext && |s.errors| <= |r.errors|
    ensures |s.brackets| > n ==> CloseDown(n, at, s).errors != []
    decreases |s.brackets|
  {
    hide SameBooks;
    if |s.brackets| > n {
      GiveUpBooks(raw, at, s);
      CloseDownBooks(raw, n, at, GiveUp(at, s));
      BooksTwice(raw, s, GiveUp(at, s), CloseDown(n, at, s));
    } else {
      BooksItself(raw, s);
    }
  }

  lemma {:induction false} GiveUpAllBooks(raw: seq<Lexeme>, at: nat, s: State)
    requires s.resyncNext != [] ==> s.errors != []
    ensures var r := GiveUpAll(at, s);
            SameBooks(raw, s, r) && r.brackets == [] && (r.resyncNext != [] ==> r.errors != [])
    decreases |s.brackets|
  {
    if s.brackets != [] {
      GiveUpBooks(raw, at, s);
      var s1 := GiveUp(at, s).(resyncNext := s.resyncNext + [Last(s.brackets).index]);
      GiveUpAllBooks(raw, at, s1);
    }
  }

  lemma {:induction false} EndedBooks(bs: seq<OpenBracket>)
    ensures Spans(Ended(bs)) == Spans(bs) && Strays(Ended(bs)) == Strays(bs)
  {
    if bs != [] {
      EndedBooks(Front(bs));
      BracketsOne(Ended(Front(bs)), Last(bs).(ended := true));
    }
  }

  lemma {:induction false} CloseLevelsBooks(raw: seq<Lexeme>, indent: nat, at: nat, s: State)
    ensures SameBooks(raw, s, CloseLevels(indent, at, s)) && CloseLevels(indent, at, s).resyncNext == s.resyncNext
    decreases |s.levels|
  {
    hide SameBooks;
    if TopCloses(s.levels, indent) {
      var t := Lexeme(Last(s.levels).Closer(), At(at));
      LayoutOut(raw, s, t);
      var s1 := s.(levels := Front(s.levels), out := s.out + [t]);
      PartBooks(raw, s.(out := s.out + [t]), s1);
      BooksTwice(raw, s, s.(out := s.out + [t]), s1);
      CloseLevelsBooks(raw, indent, at, s1);
      BooksTwice(raw, s, s1, CloseLevels(indent, at, s));
    } else {
      BooksItself(raw, s);
    }
  }

  /** The books read the output, the errors and the brackets. */
  lemma PartBooks(raw: seq<Lexeme>, s: State, r: State)
    requires r.out == s.out && r.errors == s.errors && r.brackets == s.brackets
    ensures SameBooks(raw, s, r)
  {
  }

  lemma {:induction false} CloseAllBooks(raw: seq<Lexeme>, at: nat, s: State)
    ensures var r := CloseAll(at, s);
            SameBooks(raw, s, r) && r.brackets == s.brackets && r.errors == s.errors && r.resyncNext == s.resyncNext
    decreases |s.levels|
  {
    hide SameBooks;
    if |s.levels| > 1 {
      var t := Lexeme(Last(s.levels).Closer(), At(at));
      LayoutOut(raw, s, t);
      var s1 := s.(levels := Front(s.levels), out := s.out + [t]);
      PartBooks(raw, s.(out := s.out + [t]), s1);
      BooksTwice(raw, s, s.(out := s.out + [t]), s1);
      CloseAllBooks(raw, at, s1);
      BooksTwice(raw, s, s1, CloseAll(at, s));
    } else {
      BooksItself(raw, s);
    }
  }

  // ----- Before the token -----

  lemma IndentErrorBooks(raw: seq<Lexeme>, s: State, span: Span)
    ensures SameBooks(raw, s, s.(errors := s.errors + [InconsistentIndent(span)]))
  {
    ErrorOne(s.errors, InconsistentIndent(span));
    hide Kept, Repairs, Wrote, Strays, Spans, Blamed, NeverClosed;
  }

  lemma SettleBooks(raw: seq<Lexeme>, indent: nat, span: Span, s: State)
    requires s.levels != []
    ensures SameBooks(raw, s, Settle(indent, span, s)) && Settle(indent, span, s).resyncNext == s.resyncNext
  {
    hide SameBooks;
    var top := Last(s.levels);
    if top.Pending? || top.c == indent {
      PartBooks(raw, s, Settle(indent, span, s));
    } else {
      IndentErrorBooks(raw, s, span);
      var s1 := s.(errors := s.errors + [InconsistentIndent(span)]);
      PartBooks(raw, s1, Settle(indent, span, s));
      BooksTwice(raw, s, s1, Settle(indent, span, s));
    }
  }

  lemma IndentedBooks(raw: seq<Lexeme>, source: string, span: Span, s: State)
    requires span.start <= |source| && s.levels != []
    ensures SameBooks(raw, s, Indented(source, span, s)) && Indented(source, span, s).resyncNext == s.resyncNext
  {
    hide SameBooks, Settle, CloseLevels;
    var indent := Column(source, span.start);
    var s1 := s.(lineIndent := indent, lineShort := false, shortHeader := None);
    PartBooks(raw, s, s1);
    var r := Indented(source, span, s);
    if indent > Threshold(s) {
      var t := Lexeme(Indent, Span(LineOf(source, span.start), span.start));
      LayoutOut(raw, s, t);
      PartBooks(raw, s.(out := s.out + [t]), r);
      BooksTwice(raw, s, s.(out := s.out + [t]), r);
    } else {
      CloseLevelsBooks(raw, indent, span.start, s1);
      var s2 := CloseLevels(indent, span.start, s1);
      SettleBooks(raw, indent, span, s2);
      BooksTwice(raw, s, s1, s2);
      BooksTwice(raw, s, s2, r);
    }
  }

  lemma LineStartBooks(raw: seq<Lexeme>, source: string, tok: Token, span: Span, s: State)
    requires span.start <= |source| && s.levels != []
    ensures SameBooks(raw, s, LineStart(source, tok, span, s))
            && LineStart(source, tok, span, s).resyncNext == s.resyncNext
  {
    hide SameBooks, Indented;
    IndentedBooks(raw, source, span, s);
    PartBooks(raw, Indented(source, span, s), LineStart(source, tok, span, s));
    BooksTwice(raw, s, Indented(source, span, s), LineStart(source, tok, span, s));
  }

  lemma EndLineBooks(raw: seq<Lexeme>, span: Span, s: State)
    ensures SameBooks(raw, s, EndLine(span, s)) && EndLine(span, s).resyncNext == s.resyncNext
  {
    hide SameBooks;
    var t := Lexeme(Newline, span);
    LayoutOut(raw, s, t);
    PartBooks(raw, s.(out := s.out + [t]), EndLine(span, s));
    BooksTwice(raw, s, s.(out := s.out + [t]), EndLine(span, s));
  }

  lemma PhysicalLineBooks(raw: seq<Lexeme>, source: string, tok: Token, span: Span, newline: Span, s: State)
    requires span.start <= |source|
    ensures var r := PhysicalLine(source, tok, span, newline, s); SameBooks(raw, s, r) && r.resyncNext == s.resyncNext
  {
    hide SameBooks, CloseEarly, EndLine;
    if Column(source, span.start) <= s.lineIndent && !tok.Close? {
      var s0 := s.(brackets := Ended(s.brackets));
      EndedSame(raw, s);
      CloseEarlyBooks(raw, newline.start, s0);
      var s1 := CloseEarly(newline.start, s0);
      BooksTwice(raw, s, s0, s1);
      if s1.brackets == [] {
        EndLineBooks(raw, newline, s1);
        BooksTwice(raw, s, s1, EndLine(newline, s1));
      }
    } else {
      BooksItself(raw, s);
    }
  }

  lemma EndedSame(raw: seq<Lexeme>, s: State)
    ensures SameBooks(raw, s, s.(brackets := Ended(s.brackets)))
  {
    EndedBooks(s.brackets);
  }

  lemma BeginBooks(raw: seq<Lexeme>, source: string, t: Lexeme, s: State)
    requires t.span.start <= |source| && s.levels != []
    ensures SameBooks(raw, s, Begin(source, t, s)) && Begin(source, t, s).resyncNext == s.resyncNext
  {
    hide SameBooks, PhysicalLine, LineStart, StatementHead;
    var s0 := if !t.tok.Newline? && s.droppedNewline.Some? then s.(droppedNewline := None) else s;
    PartBooks(raw, s, s0);
    var s1 := if !t.tok.Newline? && s.droppedNewline.Some?
        then PhysicalLine(source, t.tok, t.span, s.droppedNewline.value, s0) else s;
    if !t.tok.Newline? && s.droppedNewline.Some? {
      PhysicalLineBooks(raw, source, t.tok, t.span, s.droppedNewline.value, s0);
    }
    BooksTwice(raw, s, s0, s1);
    BeginRestBooks(raw, source, t, s1);
    BooksTwice(raw, s, s1, Begin(source, t, s));
  }

  lemma BeginRestBooks(raw: seq<Lexeme>, source: string, t: Lexeme, s: State)
    requires t.span.start <= |source| && s.levels != []
    ensures var s2 := if s.atLineStart && s.brackets == [] then LineStart(source, t.tok, t.span, s)
                      else if s.headNext && !t.tok.Newline? then StatementHead(t.tok, t.span, s) else s;
            SameBooks(raw, s, s2.(atLineStart := false)) && s2.resyncNext == s.resyncNext
  {
    hide SameBooks, LineStart;
    var s2 := if s.atLineStart && s.brackets == [] then LineStart(source, t.tok, t.span, s)
              else if s.headNext && !t.tok.Newline? then StatementHead(t.tok, t.span, s) else s;
    if s.atLineStart && s.brackets == [] {
      LineStartBooks(raw, source, t.tok, t.span, s);
    } else {
      PartBooks(raw, s, s2);
    }
    PartBooks(raw, s2, s2.(atLineStart := false));
    BooksTwice(raw, s, s2, s2.(atLineStart := false));
  }

  // ----- The token -----

  /** A close bracket with no open bracket of its kind. */
  predicate IsDropped(source: string, t: Lexeme, s: State)
    requires t.span.start <= |source| && s.levels != []
  {
    t.tok.Close? && Innermost(t.tok.b, Begin(source, t, s).brackets).None?
  }

  /** What a raw token adds to the books. */
  ghost predicate Booked(raw: seq<Lexeme>, t: Lexeme, dropped: bool, s: State, r: State) {
    && Kept(r.out) == Kept(s.out) + (if t.tok.Newline? || dropped then [] else [t])
    && (if dropped then Named(r) == Named(s) + multiset{t.span}
        else Named(r) == Named(s) || (t.tok.Close? && Named(r) == Named(s) + multiset{t.span}))
    && Unsettled(r) <= Unsettled(s) + (if t.tok.Open? then multiset{t.span} else multiset{})
    && (Explained(raw, s) && (t.tok.Open? ==> Wrote(raw, t.tok.b, t.span)) ==> Explained(raw, r))
    && ((s.resyncNext != [] ==> s.errors != []) ==> r.resyncNext != [] ==> r.errors != [])
  }

  lemma {:induction false} MetBooks(kind: Bracket, span: Span, bs: seq<OpenBracket>)
    requires bs != []
    ensures var r := Met(kind, span, bs);
            && Spans(r) == Spans(bs) && Strays(r) == Strays(bs)
                + (if Last(bs).stray.None? then multiset{span} else multiset{})
            && |r| == |bs| && forall i :: 0 <= i < |bs| ==> r[i].kind == bs[i].kind && r[i].span == bs[i].span
  {
    if Last(bs).stray.None? { BracketsOne(Front(bs), Last(bs).(stray := Some((kind, span)))); }
  }

  lemma StrayMetBooks(raw: seq<Lexeme>, t: Lexeme, s: State)
    requires t.tok.Close? && s.brackets != [] && Last(s.brackets).stray.None?
    ensures Booked(raw, t, true, s, s.(brackets := Met(t.tok.b, t.span, s.brackets)))
  {
    hide Met, Kept, Named, Unsettled, Explained;
    InnerBooks(raw, t, s);
  }

  lemma StrayErrorBooks(raw: seq<Lexeme>, t: Lexeme, s: State)
    requires t.tok.Close?
    ensures Booked(raw, t, true, s, s.(errors := s.errors + [UnmatchedClose(t.span)]))
  {
    ErrorOne(s.errors, UnmatchedClose(t.span));
    hide Kept, Repairs, Wrote, Strays, Spans, Blamed, NeverClosed;
  }

  lemma StrayBooks(raw: seq<Lexeme>, t: Lexeme, s: State)
    requires t.tok.Close?
    ensures Booked(raw, t, true, s, Stray(t.tok.b, t.span, s))
  {
    hide Booked, Met;
    if s.brackets != [] && Last(s.brackets).stray.None? {
      StrayMetBooks(raw, t, s);
    } else {
      StrayErrorBooks(raw, t, s);
    }
  }

  /** The bracket that a close bracket closes goes, and so does the close bracket it met. */
  lemma PopBooks(raw: seq<Lexeme>, t: Lexeme, s: State, r: State)
    requires s.brackets != [] && t.tok.Close? && IsWritten(t)
    requires r.out == s.out + [t] && r.brackets == Front(s.brackets)
    requires r.errors == if Last(s.brackets).stray.Some?
             then s.errors + [UnmatchedClose(Last(s.brackets).stray.value.1)] else s.errors
    ensures Kept(r.out) == Kept(s.out) + [t] && Named(r) == Named(s) && Unsettled(r) <= Unsettled(s)
    ensures Explained(raw, s) ==> Explained(raw, r)
  {
    hide Kept, Repairs, Wrote, Strays, Spans, Blamed, NeverClosed;
    var top := Last(s.brackets);
    OutOne(s.out, t);
    if top.stray.Some? { ErrorOne(s.errors, UnmatchedClose(top.stray.value.1)); }
    assert s.brackets == Front(s.brackets) + [top];
    BracketsOne(Front(s.brackets), top);
    hide Kept, Repairs, Wrote, Strays, Spans, Blamed, NeverClosed;
  }

  /** What `Matching` does after the brackets inside have closed. */
  lemma MatchingParts(i: nat, kind: Bracket, span: Span, s: State)
    requires i < |s.brackets|
    ensures var r, b := Matching(i, kind, span, s), s.brackets[i];
            var s1 := if i + 1 < |s.brackets| then CloseDown(i + 1, span.start,
                s.(brackets := Met(kind, span, s.brackets))) else s;
            && r.out == s1.out + [Lexeme(Close(kind), span)] && r.brackets == s.brackets[..i]
            && r.errors == (if b.stray.Some? then s1.errors + [UnmatchedClose(b.stray.value.1)] else s1.errors)
            && (r.resyncNext == s1.resyncNext || i + 1 < |s.brackets|)
  {
  }

  lemma MatchingBooks(raw: seq<Lexeme>, i: nat, t: Lexeme, s: State)
    requires i < |s.brackets| && t.tok.Close? && IsWritten(t)
    ensures Booked(raw, t, false, s, Matching(i, t.tok.b, t.span, s))
  {
    hide CloseDown, Matching, Kept, Named, Unsettled, Explained, Met;
    var r := Matching(i, t.tok.b, t.span, s);
    var bs := s.brackets;
    MatchingParts(i, t.tok.b, t.span, s);
    if i + 1 < |bs| {
      var s0 := s.(brackets := Met(t.tok.b, t.span, bs));
      InnerBooks(raw, t, s);
      MetKinds(t.tok.b, t.span, bs);
      CloseDownBooks(raw, i + 1, t.span.start, s0);
      CloseDownLeaves(i + 1, t.span.start, s0);
      assert Met(t.tok.b, t.span, bs)[..i + 1] == bs[..i + 1];
      assert Front(bs[..i + 1]) == bs[..i];
      PopBooks(raw, t, CloseDown(i + 1, t.span.start, s0), r);
    } else {
      assert bs[..i] == Front(bs);
      PopBooks(raw, t, s, r);
    }
  }

  lemma InnerBooks(raw: seq<Lexeme>, t: Lexeme, s: State)
    requires s.brackets != [] && t.tok.Close?
    ensures var s0 := s.(brackets := Met(t.tok.b, t.span, s.brackets));
            && Named(s0) == Named(s) + (if Last(s.brackets).stray.None? then multiset{t.span} else multiset{})
            && Unsettled(s0) == Unsettled(s)
            && (Explained(raw, s) ==> Explained(raw, s0))
  {
    MetBooks(t.tok.b, t.span, s.brackets);
    hide Met, Kept, Repairs, Wrote, Strays, Spans, Blamed, NeverClosed;
  }

  lemma {:induction false} CloseDownLeaves(n: nat, at: nat, s: State)
    requires n <= |s.brackets|
    ensures CloseDown(n, at, s).brackets == s.brackets[..n]
    decreases |s.brackets|
  {
    if |s.brackets| > n { CloseDownLeaves(n, at, GiveUp(at, s)); } else { assert s.brackets[..n] == s.brackets; }
  }

  lemma WrittenBooks(raw: seq<Lexeme>, t: Lexeme, s: State)
    requires IsWritten(t) && !t.tok.Open? && !t.tok.Close?
    ensures Booked(raw, t, false, s, s.(out := s.out + [t]))
  {
    OutOne(s.out, t);
    hide Kept, Repairs, Wrote, Strays, Spans, Blamed, NeverClosed;
  }

  lemma OpenBooks(raw: seq<Lexeme>, t: Lexeme, s: State, b: OpenBracket)
    requires IsWritten(t) && t.tok.Open? && b.kind == t.tok.b && b.span == t.span && b.stray.None?
    ensures Booked(raw, t, false, s, s.(brackets := s.brackets + [b], out := s.out + [t]))
  {
    OutOne(s.out, t);
    BracketsOne(s.brackets, b);
    hide Kept, Repairs, Wrote, Strays, Spans, Blamed, NeverClosed;
  }

  lemma BookedPart(raw: seq<Lexeme>, t: Lexeme, dropped: bool, s: State, r: State, r': State)
    requires Booked(raw, t, dropped, s, r)
    requires r'.out == r.out && r'.errors == r.errors && r'.brackets == r.brackets && r'.resyncNext == r.resyncNext
    ensures Booked(raw, t, dropped, s, r')
  {
  }

  lemma QuietBooks(raw: seq<Lexeme>, t: Lexeme, s: State, r: State)
    requires t.tok.Newline? && SameBooks(raw, s, r) && r.resyncNext == s.resyncNext
    ensures Booked(raw, t, false, s, r)
  {
  }

  lemma EmitBooks(raw: seq<Lexeme>, resync: set<nat>, index: nat, t: Lexeme, s: State)
    requires IsWritten(t) || t.tok.Newline?
    ensures Booked(raw, t, t.tok.Close? && Innermost(t.tok.b, s.brackets).None?, s, Emit(resync, index, t, s))
  {
    hide Booked, SameBooks, Matching, Stray, EndLine;
    match t.tok {
      case Open(b) => OpenBooks(raw, t, s, OpenBracket(b, t.span, index, index in resync, false, None));
      case Close(b) =>
        var i := Innermost(b, s.brackets);
        if i.Some? { MatchingBooks(raw, i.value, t, s); } else { StrayBooks(raw, t, s); }
      case Newline =>
        var r := Emit(resync, index, t, s);
        if s.brackets == [] { EndLineBooks(raw, t.span, s); } else { PartBooks(raw, s, r); }
        QuietBooks(raw, t, s, r);
      case _ =>
        WrittenBooks(raw, t, s);
        BookedPart(raw, t, false, s, s.(out := s.out + [t]), Emit(resync, index, t, s));
    }
  }

  lemma BooksThenBooked(raw: seq<Lexeme>, t: Lexeme, dropped: bool, s: State, s1: State, r: State)
    requires SameBooks(raw, s, s1) && s1.resyncNext == s.resyncNext && Booked(raw, t, dropped, s1, r)
    ensures Booked(raw, t, dropped, s, r)
  {
  }

  lemma StepBooks(raw: seq<Lexeme>, source: string, resync: set<nat>, index: nat, t: Lexeme, s: State)
    requires s.levels != [] && RawToken(source, t)
    ensures Booked(raw, t, !t.tok.Newline? && IsDropped(source, t, s), s, Step(source, resync, index, t, s))
  {
    hide Booked, SameBooks, Begin, Emit;
    if s.atLineStart && t.tok.Newline? {
      BooksItself(raw, s);
      QuietBooks(raw, t, s, s);
    } else {
      BeginBooks(raw, source, t, s);
      var s1 := Begin(source, t, s);
      EmitBooks(raw, resync, index, t, s1);
      BooksThenBooked(raw, t, !t.tok.Newline? && IsDropped(source, t, s), s, s1, Emit(resync, index, t, s1));
    }
  }

  // ----- The whole run -----

  /** The close brackets among the first `n` tokens that met no open bracket of their kind. */
  ghost function Dropped(source: string, resync: set<nat>, raw: seq<Lexeme>, n: nat): set<nat>
    requires n <= |raw| && Raw(source, raw)
  {
    if n == 0 then {}
    else
      var s := After(source, resync, raw, n - 1);
      Dropped(source, resync, raw, n - 1) + (if IsDropped(source, raw[n - 1], s) then {n - 1} else {})
  }

  /** The first `n` tokens, without newlines and the tokens at `dropped`. */
  function Picked(raw: seq<Lexeme>, dropped: set<nat>, n: nat): seq<Lexeme>
    requires n <= |raw|
  {
    if n == 0 then []
    else Picked(raw, dropped, n - 1) + (if raw[n - 1].tok.Newline? || n - 1 in dropped then [] else [raw[n - 1]])
  }

  function Opened(raw: seq<Lexeme>, n: nat): multiset<Span>
    requires n <= |raw|
  {
    if n == 0 then multiset{} else Opened(raw, n - 1) + (if raw[n - 1].tok.Open? then multiset{raw[n - 1].span}
        else multiset{})
  }

  /** The books balance after `n` tokens. */
  ghost predicate Balanced(raw: seq<Lexeme>, dropped: set<nat>, n: nat, s: State)
    requires n <= |raw|
  {
    && Kept(s.out) == Picked(raw, dropped, n)
    && (forall i :: i in dropped ==> 0 <= i < n && raw[i].tok.Close? && Named(s)[raw[i].span] == 1)
    && (forall sp :: sp in Named(s) ==> sp.end <= EndOf(raw, n))
    && Unsettled(s) <= Opened(raw, n) && Explained(raw, s) && (s.resyncNext != [] ==> s.errors != [])
  }

  lemma {:induction false} PickedSame(raw: seq<Lexeme>, d: set<nat>, e: set<nat>, n: nat)
    requires n <= |raw| && forall i :: 0 <= i < n ==> (i in d <==> i in e)
    ensures Picked(raw, d, n) == Picked(raw, e, n)
  {
    if n > 0 { PickedSame(raw, d, e, n - 1); }
  }

  /** The close brackets named so far, and one more perhaps. */
  lemma NamedStep(source: string, raw: seq<Lexeme>, d: set<nat>, n: nat, names: multiset<Span>, dropped: bool,
          names': multiset<Span>)
    requires n < |raw| && Raw(source, raw) && (dropped ==> raw[n].tok.Close?)
    requires forall i :: i in d ==> 0 <= i < n && raw[i].tok.Close? && names[raw[i].span] == 1
    requires forall sp :: sp in names ==> sp.end <= EndOf(raw, n)
    requires names' == names + multiset{raw[n].span} || (!dropped && names' == names)
    ensures forall i :: i in d + (if dropped then {n} else {}) ==>
            0 <= i < n + 1 && raw[i].tok.Close? && names'[raw[i].span] == 1
    ensures forall sp :: sp in names' ==> sp.end <= EndOf(raw, n + 1)
  {
    Ends(source, raw, n);
    forall i | i in d
      ensures raw[i].span != raw[n].span
    {
      assert raw[i].span.end <= raw[n].span.start;
    }
    assert raw[n].span !in names;
  }

  lemma BalancedStep(source: string, raw: seq<Lexeme>, d: set<nat>, n: nat, s: State, dropped: bool, r: State)
    requires n < |raw| && Raw(source, raw) && Balanced(raw, d, n, s) && (dropped ==> raw[n].tok.Close?)
    requires Booked(raw, raw[n], dropped, s, r)
    ensures Balanced(raw, d + (if dropped then {n} else {}), n + 1, r)
  {
    hide Kept, Named, Unsettled, Explained, Wrote, Raw;
    var d' := d + (if dropped then {n} else {});
    PickedSame(raw, d, d', n);
    NamedStep(source, raw, d, n, Named(s), dropped, Named(r));
    OpenWritten(raw, n);
  }

  lemma OpenWritten(raw: seq<Lexeme>, n: nat)
    requires n < |raw|
    ensures raw[n].tok.Open? ==> Wrote(raw, raw[n].tok.b, raw[n].span)
  {
    assert raw[n].tok.Open? ==> raw[n] == Lexeme(Open(raw[n].tok.b), raw[n].span);
  }

  lemma Ends(source: string, raw: seq<Lexeme>, n: nat)
    requires n < |raw| && Raw(source, raw)
    ensures EndOf(raw, n) <= raw[n].span.start < raw[n].span.end
  {
    assert RawToken(source, raw[n]);
  }

  lemma {:induction false} AfterBalanced(source: string, resync: set<nat>, raw: seq<Lexeme>, n: nat)
    requires n <= |raw| && Raw(source, raw)
    ensures Balanced(raw, Dropped(source, resync, raw, n), n, After(source, resync, raw, n))
  {
    hide Balanced, Booked, Step;
    if n == 0 {
      StartBalanced(raw);
    } else {
      AfterBalanced(source, resync, raw, n - 1);
      var s := After(source, resync, raw, n - 1);
      StepBooks(raw, source, resync, n - 1, raw[n - 1], s);
      BalancedStep(source, raw, Dropped(source, resync, raw, n - 1), n - 1, s, IsDropped(source, raw[n - 1], s),
          Step(source, resync, n - 1, raw[n - 1], s));
    }
  }

  lemma StartBalanced(raw: seq<Lexeme>)
    ensures Balanced(raw, {}, 0, START)
  {
  }

  lemma {:induction false} OutJoined(a: seq<Lexeme>, b: seq<Lexeme>)
    ensures Kept(a + b) == Kept(a) + Kept(b) && Repairs(a + b) == Repairs(a) + Repairs(b)
  {
    if b == [] {
      assert a + b == a;
    } else {
      OutJoined(a, Front(b));
      assert a + b == (a + Front(b)) + [Last(b)];
      OutOne(a + Front(b), Last(b));
    }
  }

  lemma {:induction false} InsertedBooks(out: seq<Lexeme>, ins: seq<(nat, nat)>)
    ensures Kept(Inserted(out, ins)) == Kept(out) && Repairs(Inserted(out, ins)) == Repairs(out)
    decreases |ins|
  {
    if ins != [] && Last(ins).0 <= |out| {
      var k, t := Last(ins).0, Lexeme(BlockValueIndent, At(Last(ins).1));
      var before := Inserted(out[..k], Front(ins));
      InsertedBooks(out[..k], Front(ins));
      OutOne(before, t);
      OutJoined(before + [t], out[k..]);
      OutJoined(out[..k], out[k..]);
      assert out == out[..k] + out[k..];
    }
  }

  lemma EndInputBooks(raw: seq<Lexeme>, at: nat, s: State)
    ensures var r := EndInput(at, s);
            SameBooks(raw, s, r) && r.brackets == s.brackets && r.errors == s.errors && r.resyncNext == s.resyncNext
  {
    LayoutOut(raw, s, Lexeme(Newline, At(at)));
  }

  lemma FinishBooks(raw: seq<Lexeme>, at: nat, s: State)
    requires s.resyncNext != [] ==> s.errors != []
    ensures var r := Finish(at, s); SameBooks(raw, s, r) && r.brackets == [] && (r.resyncNext != [] ==> r.errors != [])
  {
    GiveUpAllBooks(raw, at, s);
    var s1 := GiveUpAll(at, s);
    EndInputBooks(raw, at, s1);
    var s2 := EndInput(at, s1);
    CloseAllBooks(raw, at, s2);
    var s3 := CloseAll(at, s2);
    InsertedBooks(s3.out, s3.valueIndents);
    hide Kept, Repairs, Wrote, Strays, Spans, Blamed, NeverClosed, GiveUpAll, EndInput, CloseAll;
  }

  lemma {:induction false} OpenedOnce(source: string, raw: seq<Lexeme>, n: nat, sp: Span)
    requires n <= |raw| && Raw(source, raw)
    ensures Opened(raw, n)[sp] <= 1 && (sp in Opened(raw, n) ==> sp.end <= EndOf(raw, n))
  {
    if n > 0 {
      OpenedOnce(source, raw, n - 1, sp);
      Ends(source, raw, n - 1);
    }
  }

  lemma Distinct(xs: seq<Span>, i: nat, j: nat)
    requires i < j < |xs| && xs[i] == xs[j]
    ensures multiset(xs)[xs[i]] >= 2
  {
    assert xs == xs[..j] + xs[j..];
    assert xs[..j][i] == xs[i] && xs[j..][0] == xs[i];
  }

  /** Every token the source wrote comes out once and in order, but for newlines and the close
      brackets that meet no open bracket of their kind, and each of those is named by exactly one
      error. The zero-width closers have one error each, in order, for an open bracket of their
      kind, and no open bracket has two. */
  lemma LaidBooks(source: string, resync: set<nat>, raw: seq<Lexeme>)
    requires Raw(source, raw)
    ensures var f, dropped := Laid(source, resync, raw), Dropped(source, resync, raw, |raw|);
            var open := NeverClosed(f.errors);
            && Kept(f.out) == Picked(raw, dropped, |raw|)
            && (forall i :: i in dropped ==> 0 <= i < |raw| && raw[i].tok.Close? && Blamed(f.errors)[raw[i].span] == 1)
            && |Repairs(f.out)| == |open| && (forall j :: 0 <= j < |open| ==> Wrote(raw, Repairs(f.out)[j], open[j]))
            && (forall i, j :: 0 <= i < j < |open| ==> open[i] != open[j])
            && (f.resyncNext != [] ==> f.errors != [])
  {
    var n := |raw|;
    var s := After(source, resync, raw, n);
    AfterBalanced(source, resync, raw, n);
    FinishBooks(raw, |source|, s);
    var f := Laid(source, resync, raw);
    var open := NeverClosed(f.errors);
    hide Finish, After, Kept, Repairs, NeverClosed, Wrote, Dropped, Raw;
    assert Strays(f.brackets) == multiset{} && Spans(f.brackets) == multiset{};
    forall i, j | 0 <= i < j < |open|
      ensures open[i] != open[j]
    {
      OpenedOnce(source, raw, n, open[i]);
      if open[i] == open[j] { Distinct(open, i, j); }
    }
  }

  // ----- Balanced input -----

  /** No bracket error so far, and none to come from the brackets open. */
  ghost predicate Clean(s: State) {
    && (forall i :: 0 <= i < |s.brackets| ==> !s.brackets[i].ClosesEarly())
    && (forall i :: 0 <= i < |s.errors| ==> s.errors[i].InconsistentIndent?)
    && s.resyncNext == []
  }

  lemma {:induction false} CloseLevelsClean(indent: nat, at: nat, s: State)
    ensures var r := CloseLevels(indent, at, s);
            r.brackets == s.brackets && r.errors == s.errors && r.resyncNext == s.resyncNext
    decreases |s.levels|
  {
    if TopCloses(s.levels, indent) {
      CloseLevelsClean(indent, at, s.(levels := Front(s.levels),
          out := s.out + [Lexeme(Last(s.levels).Closer(), At(at))]));
    }
  }

  lemma SettleClean(indent: nat, span: Span, s: State)
    requires s.levels != [] && Clean(s)
    ensures var r := Settle(indent, span, s); Clean(r) && r.brackets == s.brackets
  {
  }

  lemma LineStartClean(source: string, tok: Token, span: Span, s: State)
    requires span.start <= |source| && s.levels != [] && Clean(s)
    ensures var r := LineStart(source, tok, span, s); Clean(r) && r.brackets == s.brackets
  {
    hide CloseLevels, LineOf, TopCloses, Column, Threshold, Settle;
    var indent := Column(source, span.start);
    var s1 := s.(lineIndent := indent, lineShort := false, shortHeader := None);
    CloseLevelsClean(indent, span.start, s1);
    if indent <= Threshold(s) { SettleClean(indent, span, CloseLevels(indent, span.start, s1)); }
  }

  lemma PhysicalLineClean(source: string, tok: Token, span: Span, newline: Span, s: State)
    requires span.start <= |source| && s.brackets != [] && Clean(s)
    ensures var r := PhysicalLine(source, tok, span, newline, s);
            Clean(r) && Kinds(r.brackets) == Kinds(s.brackets) && r.brackets != []
  {
    KindsSame(Ended(s.brackets), s.brackets);
  }

  lemma BeginClean(source: string, t: Lexeme, s: State)
    requires t.span.start <= |source| && s.levels != [] && Clean(s) && (s.droppedNewline.Some? ==> s.brackets != [])
    ensures Clean(Begin(source, t, s)) && Kinds(Begin(source, t, s).brackets) == Kinds(s.brackets)
  {
    hide PhysicalLine, LineStart, StatementHead;
    var s0 := s.(droppedNewline := None);
    var dropped := !t.tok.Newline? && s.droppedNewline.Some?;
    if dropped { PhysicalLineClean(source, t.tok, t.span, s.droppedNewline.value, s0); }
    var s1 := if dropped then PhysicalLine(source, t.tok, t.span, s.droppedNewline.value, s0) else s;
    if s1.atLineStart && s1.brackets == [] {
      LineStartClean(source, t.tok, t.span, s1);
    } else {
      HeadClean(t.tok, t.span, s1);
    }
  }

  lemma HeadClean(tok: Token, span: Span, s: State)
    ensures var r := StatementHead(tok, span, s);
            r.brackets == s.brackets && r.errors == s.errors && r.resyncNext == s.resyncNext
  {
  }

  lemma CloseClean(t: Lexeme, s: State)
    requires t.tok.Close? && Clean(s) && EnterBracket(t.tok, Kinds(s.brackets)).Some?
    ensures s.brackets != []
    ensures var r := CloseBracket(t.tok.b, t.span, s);
            && r.brackets == Front(s.brackets) && r.errors == s.errors && r.resyncNext == s.resyncNext
            && EnterBracket(t.tok, Kinds(s.brackets)) == Some(Kinds(Front(s.brackets)))
  {
    assert s.brackets != [];
    var top := Last(s.brackets);
    assert Kinds(s.brackets) == Kinds(Front(s.brackets)) + [top.kind];
    assert Innermost(t.tok.b, s.brackets) == Some(|s.brackets| - 1);
    assert !s.brackets[|s.brackets| - 1].ClosesEarly();
  }

  lemma EndLineClean(span: Span, s: State)
    ensures var r := EndLine(span, s); r.brackets == s.brackets && r.errors == s.errors && r.resyncNext == s.resyncNext
  {
  }

  lemma EmitClean(index: nat, t: Lexeme, s: State)
    requires Clean(s) && EnterBracket(t.tok, Kinds(s.brackets)).Some?
    ensures var r := Emit({}, index, t, s);
            Clean(r) && Some(Kinds(r.brackets)) == EnterBracket(t.tok, Kinds(s.brackets))
  {
    hide CloseBracket, Kinds, EndLine;
    match t.tok {
      case Open(b) =>
        var o := OpenBracket(b, t.span, index, false, false, None);
        KindsOne(s.brackets, o);
        assert Emit({}, index, t, s).brackets == s.brackets + [o];
      case Close(b) =>
        CloseClean(t, s);
      case Newline => EndLineClean(t.span, s);
      case _ =>
    }
  }

  lemma {:induction false} AfterClean(source: string, raw: seq<Lexeme>, n: nat)
    requires n <= |raw| && Raw(source, raw) && BracketRun(raw[..n], []).Some?
    ensures var s := After(source, {}, raw, n); Clean(s) && BracketRun(raw[..n], []) == Some(Kinds(s.brackets))
  {
    if n > 0 {
      assert raw[..n] == raw[..n - 1] + [raw[n - 1]];
      BracketOne(raw[..n - 1], raw[n - 1], []);
      AfterClean(source, raw, n - 1);
      var t, s := raw[n - 1], After(source, {}, raw, n - 1);
      AfterShape(source, {}, raw, n - 1);
      assert RawToken(source, t);
      StepClean(source, n - 1, t, s);
    }
  }

  lemma StepClean(source: string, index: nat, t: Lexeme, s: State)
    requires RawToken(source, t) && Shape(s) && Clean(s) && EnterBracket(t.tok, Kinds(s.brackets)).Some?
    ensures var r := Step(source, {}, index, t, s);
            Clean(r) && Some(Kinds(r.brackets)) == EnterBracket(t.tok, Kinds(s.brackets))
  {
    assert s.levels != [] && (s.droppedNewline.Some? ==> s.brackets != []);
    hide Shape, Begin, Emit;
    if !(s.atLineStart && t.tok.Newline?) {
      BeginClean(source, t, s);
      EmitClean(index, t, Begin(source, t, s));
    }
  }

  /** Balanced brackets are neither repaired nor reported, and ask for no second run. */
  lemma BalancedInput(source: string, raw: seq<Lexeme>)
    requires Raw(source, raw) && BracketRun(raw, []) == Some([])
    ensures var f := Laid(source, {}, raw);
            f.resyncNext == [] && forall i :: 0 <= i < |f.errors| ==> f.errors[i].InconsistentIndent?
  {
    assert raw[..|raw|] == raw;
    AfterClean(source, raw, |raw|);
    var s := After(source, {}, raw, |raw|);
    assert s.brackets == [];
    CloseAllBooks(raw, |source|, EndInput(|source|, s));
  }
}
