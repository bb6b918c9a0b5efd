/** Which lines open a block value, said of the written tokens: a `BlockValueIndent` stands before the
    head of a line's last statement exactly when the line ends in a `:` and its first token, after
    any `pub` or `const`, is no block keyword. */
module LayoutBlocks {
  import opened Options
  import opened LayoutMachine
  import opened LayoutNesting
  import opened LayoutOrder

  // ----- The written tokens of a line -----

  /** The tokens other than newlines that start from `lo` on and before `hi`. */
  function Between(raw: seq<Lexeme>, lo: nat, hi: nat): seq<Lexeme> {
    if raw == [] then []
    else
      var t := Last(raw);
      Between(Front(raw), lo, hi) + (if !t.tok.Newline? && lo <= t.span.start < hi then [t] else [])
  }

  predicate Prefix(t: Lexeme) {
    t.tok.Pub? || t.tok.Const?
  }

  predicate AllPrefixes(ts: seq<Lexeme>) {
    forall i | 0 <= i < |ts| :: Prefix(ts[i])
  }

  /** The first token, after any `pub` or `const`, is a block keyword. */
  predicate LedByKeyword(ts: seq<Lexeme>) {
    exists i | 0 <= i < |ts| :: ts[i].tok.BlockKeyword? && AllPrefixes(ts[..i])
  }

  /** Where a statement's head starts: its first token after any `pub` or `const`. */
  function HeadStart(ts: seq<Lexeme>): nat
    requires ts != []
  {
    if |ts| == 1 || !Prefix(ts[0]) then ts[0].span.start else HeadStart(ts[1..])
  }

  // ----- The lines of a stream -----

  /** A stream up to a point: where the last line break ended, where the last statement did (at that
      break or at a `;` outside brackets), the statement's first place in the stream, and how many
      brackets are open. */
  datatype View = View(line: nat, semi: nat, from: nat, depth: nat)

  function Viewed(out: seq<Lexeme>): View {
    if out == [] then View(0, 0, 0, 0)
    else
      var v, t := Viewed(Front(out)), Last(out);
      if t.tok.Newline? then View(t.span.end, t.span.end, |out|, 0)
      else if IsLayout(t.tok) then v.(from := |out|)
      else if t.tok.Open? then v.(depth := v.depth + 1)
      else if t.tok.Close? then v.(depth := if v.depth == 0 then 0 else v.depth - 1)
      else if t.tok.Semi? && v.depth == 0 then v.(semi := t.span.end, from := |out|)
      else v
  }

  /** The first place from `k` on of a token that starts at or after `at`. */
  function PlaceOf(out: seq<Lexeme>, k: nat, at: nat): nat
    requires k <= |out|
    decreases |out| - k
  {
    if k == |out| || out[k].span.start >= at then k else PlaceOf(out, k + 1, at)
  }

  /** A line with these written tokens, in a stream that ends in its last one, opens a block value. */
  predicate OpensValue(raw: seq<Lexeme>, out: seq<Lexeme>, newline: Span) {
    && newline.start < newline.end && out != [] && Last(out).tok.Colon?
    && !LedByKeyword(Between(raw, Viewed(out).line, newline.start))
  }

  lemma {:induction false} FromWithin(out: seq<Lexeme>)
    ensures Viewed(out).from <= |out|
  {
    if out != [] { FromWithin(Front(out)); }
  }

  /** Where a line's block value opens: before the token its last statement's head is at. */
  function ValueAt(raw: seq<Lexeme>, out: seq<Lexeme>, newline: Span): (nat, nat) {
    var v := Viewed(out);
    var us := Between(raw, v.semi, newline.start);
    FromWithin(out);
    if us == [] then (v.from, newline.start) else (PlaceOf(out, v.from, HeadStart(us)), HeadStart(us))
  }

  /** The places where a stream's lines open block values, line by line. */
  function Values(raw: seq<Lexeme>, out: seq<Lexeme>): seq<(nat, nat)> {
    if out == [] then []
    else
      var t := Last(out);
      Values(raw, Front(out))
      + (if t.tok.Newline? && OpensValue(raw, Front(out), t.span) then [ValueAt(raw, Front(out), t.span)] else [])
  }

  /** A stream without its `BlockValueIndent`s. */
  function Unmarked(out: seq<Lexeme>): seq<Lexeme> {
    if out == [] then []
    else Unmarked(Front(out)) + (if Last(out).tok.BlockValueIndent? then [] else [Last(out)])
  }

  // ----- Adding a token -----

  lemma ViewedOne(out: seq<Lexeme>, t: Lexeme)
    ensures Front(out + [t]) == out && Last(out + [t]) == t
  {}

  lemma {:induction false} BetweenAgree(raw: seq<Lexeme>, lo: nat, hi: nat, lo': nat, hi': nat)
    requires forall i | 0 <= i < |raw| :: !raw[i].tok.Newline? ==>
               (lo <= raw[i].span.start < hi <==> lo' <= raw[i].span.start < hi')
    ensures Between(raw, lo, hi) == Between(raw, lo', hi')
  {
    if raw != [] { BetweenAgree(Front(raw), lo, hi, lo', hi'); }
  }

  ghost predicate Apart(raw: seq<Lexeme>) {
    && (forall i | 0 <= i < |raw| :: raw[i].span.start < raw[i].span.end)
    && (forall i, j | 0 <= i < j < |raw| :: raw[i].span.end <= raw[j].span.start)
  }

  /** The next token, taken into account. */
  lemma {:induction false} BetweenNext(raw: seq<Lexeme>, lo: nat, n: nat)
    requires Apart(raw) && n < |raw|
    ensures Between(raw, lo, raw[n].span.end)
         == Between(raw, lo, EndOf(raw, n)) + if !raw[n].tok.Newline? && lo <= raw[n].span.start then [raw[n]] else []
  {
    var m := |raw| - 1;
    if n == m {
      BetweenAgree(Front(raw), lo, raw[n].span.end, lo, EndOf(raw, n));
    } else {
      BetweenNext(Front(raw), lo, n);
      assert EndOf(Front(raw), n) == EndOf(raw, n);
    }
  }

  lemma {:induction false} BetweenEmpty(raw: seq<Lexeme>, lo: nat)
    ensures Between(raw, lo, lo) == []
  {
    if raw != [] { BetweenEmpty(Front(raw), lo); }
  }

  lemma {:induction false} HeadStartOne(ts: seq<Lexeme>, t: Lexeme)
    ensures HeadStart(ts + [t]) == if AllPrefixes(ts) then t.span.start else HeadStart(ts)
  {
    if ts != [] {
      assert (ts + [t])[1..] == ts[1..] + [t];
      if Prefix(ts[0]) {
        HeadStartOne(ts[1..], t);
        assert AllPrefixes(ts) <==> AllPrefixes(ts[1..]);
      }
    }
  }

  lemma LedOne(ts: seq<Lexeme>, t: Lexeme)
    ensures LedByKeyword(ts + [t]) <==> if AllPrefixes(ts) then t.tok.BlockKeyword? else LedByKeyword(ts)
  {
    var us := ts + [t];
    if LedByKeyword(us) {
      var i :| 0 <= i < |us| && us[i].tok.BlockKeyword? && AllPrefixes(us[..i]);
      if i < |ts| {
        assert us[..i] == ts[..i] && ts[i] == us[i];
      } else {
        assert us[..i] == ts;
      }
    }
    if AllPrefixes(ts) && t.tok.BlockKeyword? {
      assert us[..|ts|] == ts && us[|ts|] == t;
    }
    if !AllPrefixes(ts) && LedByKeyword(ts) {
      var i :| 0 <= i < |ts| && ts[i].tok.BlockKeyword? && AllPrefixes(ts[..i]);
      assert us[..i] == ts[..i] && us[i] == ts[i];
    }
  }

  lemma {:induction false} PlaceFound(out: seq<Lexeme>, k: nat, h: nat, at: nat)
    requires k <= h <= |out| && (forall j | k <= j < h :: out[j].span.start < at)
    requires h < |out| ==> at <= out[h].span.start
    ensures PlaceOf(out, k, at) == h
    decreases h - k
  {
    if k < h { PlaceFound(out, k + 1, h, at); }
  }

  // ----- The state of a run -----

  /** Within a line: the written tokens that start before `hi` have been taken into account. */
  ghost predicate LineMarked(raw: seq<Lexeme>, s: State, hi: nat) {
    var v := Viewed(s.out);
    var ts, us := Between(raw, v.line, hi), Between(raw, v.semi, hi);
    && s.valueIndents == Values(raw, s.out) && v.depth == |s.brackets|
    && v.line <= v.semi <= hi && s.lineHead.0 <= |s.out|
    && (forall j | v.from <= j < |s.out| :: s.out[j].span.start < hi)
    && ts != [] && (s.opensAtFirst <==> LedByKeyword(ts))
    && (s.headIsFirst ==> v.semi == v.line) && (!s.headIsFirst ==> !AllPrefixes(ts))
    && (s.headNext <==> AllPrefixes(us))
    && (us == [] ==> s.brackets == [] && s.out != [] && Last(s.out).tok.Semi?)
    && (us != [] ==>
          && v.from <= s.lineHead.0 && s.lineHead.1 == HeadStart(us)
          && forall j | v.from <= j < s.lineHead.0 :: s.out[j].span.start < s.lineHead.1)
  }

  ghost predicate RestMarked(raw: seq<Lexeme>, s: State, hi: nat) {
    var v := Viewed(s.out);
    && s.valueIndents == Values(raw, s.out) && v.depth == 0 && v.line == v.semi <= hi && v.from == |s.out|
    && Between(raw, v.line, hi) == []
  }

  /** A newline with no written token between it and `hi`. */
  ghost predicate LastBreak(raw: seq<Lexeme>, d: Span, hi: nat) {
    && d.start < d.end <= hi && Between(raw, d.end, hi) == []
    && forall lo :: Between(raw, lo, d.start) == Between(raw, lo, hi)
  }

  ghost predicate Marked(raw: seq<Lexeme>, s: State, hi: nat) {
    && (if s.atLineStart then RestMarked(raw, s, hi) else LineMarked(raw, s, hi))
    && (s.droppedNewline.Some? ==> LastBreak(raw, s.droppedNewline.value, hi))
  }

  // ----- Within a line -----

  lemma SameMarked(raw: seq<Lexeme>, s: State, r: State, hi: nat)
    requires LineMarked(raw, s, hi) && r.out == s.out && r.valueIndents == s.valueIndents
             && |r.brackets| == |s.brackets|
    requires r.opensAtFirst == s.opensAtFirst && r.headIsFirst == s.headIsFirst && r.headNext == s.headNext
    requires r.lineHead == s.lineHead
    ensures LineMarked(raw, r, hi)
  {}

  /** A token of the statement. */
  lemma PushMarked(raw: seq<Lexeme>, s: State, t: Lexeme, bs: seq<OpenBracket>, hi: nat)
    requires LineMarked(raw, s, hi) && Between(raw, Viewed(s.out).semi, hi) != [] && t.span.start < hi
    requires !t.tok.Newline? && !IsLayout(t.tok) && !(t.tok.Semi? && s.brackets == [])
    requires |bs| == |s.brackets| + if t.tok.Open? then 1 else if t.tok.Close? then -1 else 0
    ensures LineMarked(raw, s.(out := s.out + [t], brackets := bs), hi)
    ensures Viewed(s.out + [t]).semi == Viewed(s.out).semi
  {
    hide Between, HeadStart, LedByKeyword, AllPrefixes;
    ViewedOne(s.out, t);
    FromWithin(s.out);
  }

  lemma GiveUpMarked(raw: seq<Lexeme>, at: nat, s: State, hi: nat)
    requires LineMarked(raw, s, hi) && s.brackets != [] && at < hi
    ensures LineMarked(raw, GiveUp(at, s), hi)
  {
    hide Viewed, Between, HeadStart, LedByKeyword, AllPrefixes, Values;
    PushMarked(raw, s, Lexeme(Close(Last(s.brackets).kind), At(at)), Front(s.brackets), hi);
  }

  lemma {:induction false} CloseEarlyMarked(raw: seq<Lexeme>, at: nat, s: State, hi: nat)
    requires LineMarked(raw, s, hi) && at < hi
    ensures LineMarked(raw, CloseEarly(at, s), hi)
    decreases |s.brackets|
  {
    hide LineMarked;
    if s.brackets != [] && Last(s.brackets).ClosesEarly() {
      GiveUpMarked(raw, at, s, hi);
      CloseEarlyMarked(raw, at, GiveUp(at, s), hi);
    }
  }

  lemma {:induction false} CloseDownMarked(raw: seq<Lexeme>, n: nat, at: nat, s: State, hi: nat)
    requires LineMarked(raw, s, hi) && at < hi && n <= |s.brackets|
    ensures LineMarked(raw, CloseDown(n, at, s), hi) && |CloseDown(n, at, s).brackets| == n
    decreases |s.brackets|
  {
    hide LineMarked;
    if |s.brackets| > n {
      GiveUpMarked(raw, at, s, hi);
      CloseDownMarked(raw, n, at, GiveUp(at, s), hi);
    }
  }

  lemma MatchingMarked(raw: seq<Lexeme>, i: nat, kind: Bracket, span: Span, s: State, hi: nat)
    requires LineMarked(raw, s, hi) && i < |s.brackets| && span.start < hi
    ensures LineMarked(raw, Matching(i, kind, span, s), hi)
  {
    hide LineMarked, CloseDown, Viewed, Between;
    var s0 := s.(brackets := Met(kind, span, s.brackets));
    SameMarked(raw, s, s0, hi);
    var s1 := if i + 1 < |s.brackets| then CloseDown(i + 1, span.start, s0) else s;
    if i + 1 < |s.brackets| { CloseDownMarked(raw, i + 1, span.start, s0, hi); }
    var t := Lexeme(Close(kind), span);
    StatementBegun(raw, s1, hi);
    PushMarked(raw, s1, t, s.brackets[..i], hi);
    SameMarked(raw, s1.(out := s1.out + [t], brackets := s.brackets[..i]), Matching(i, kind, span, s), hi);
  }

  /** Inside brackets, the statement has a token. */
  lemma StatementBegun(raw: seq<Lexeme>, s: State, hi: nat)
    requires LineMarked(raw, s, hi) && s.brackets != []
    ensures Between(raw, Viewed(s.out).semi, hi) != []
  {}

  lemma CloseBracketMarked(raw: seq<Lexeme>, kind: Bracket, span: Span, s: State, hi: nat)
    requires LineMarked(raw, s, hi) && span.start < hi
    ensures LineMarked(raw, CloseBracket(kind, span, s), hi)
  {
    hide LineMarked, Matching;
    var i := Innermost(kind, s.brackets);
    if i.Some? {
      MatchingMarked(raw, i.value, kind, span, s, hi);
    } else {
      SameMarked(raw, s, Stray(kind, span, s), hi);
    }
  }

  // ----- From line to line -----

  lemma HeadFits(s: State, p: nat)
    requires LineOrder(s, p) && s.lineHead.0 < |s.out|
    ensures s.lineHead.1 <= s.out[s.lineHead.0].span.start
  {}

  /** A line ends. */
  lemma EndLineMarked(raw: seq<Lexeme>, d: Span, s: State, hi: nat)
    requires LineMarked(raw, s, hi) && s.brackets == [] && LastBreak(raw, d, hi) && LineOrder(s, d.start) && LineOpen(s)
    ensures RestMarked(raw, EndLine(d, s), hi) && EndLine(d, s).atLineStart
  {
    hide Between, HeadStart, LedByKeyword, AllPrefixes, LineOpen, LineOrder;
    var v, nl := Viewed(s.out), Lexeme(Newline, d);
    ViewedOne(s.out, nl);
    assert Between(raw, v.line, d.start) == Between(raw, v.line, hi);
    assert Between(raw, v.semi, d.start) == Between(raw, v.semi, hi);
    if OpensBlock(s) {
      FromWithin(s.out);
      ColonInLine(s);
      HeadFits(s, d.start);
      PlaceFound(s.out, v.from, s.lineHead.0, s.lineHead.1);
    }
  }

  /** Layout tokens between lines. */
  ghost predicate OnlyLayout(out: seq<Lexeme>, more: seq<Lexeme>) {
    out <= more && forall i | |out| <= i < |more| :: IsLayout(more[i].tok)
  }

  lemma {:induction false} LayoutViewed(raw: seq<Lexeme>, out: seq<Lexeme>, more: seq<Lexeme>)
    requires OnlyLayout(out, more) && Viewed(out).from == |out|
    ensures Viewed(more) == Viewed(out).(from := |more|) && Values(raw, more) == Values(raw, out)
    decreases |more|
  {
    if |more| > |out| {
      LayoutViewed(raw, out, Front(more));
      assert IsLayout(Last(more).tok);
    } else {
      assert more == out;
    }
  }

  lemma {:induction false} CloseLevelsLays(indent: nat, at: nat, s: State)
    ensures var r := CloseLevels(indent, at, s);
            OnlyLayout(s.out, r.out) && r == s.(levels := r.levels, out := r.out)
    decreases |s.levels|
  {
    if TopCloses(s.levels, indent) {
      CloseLevelsLays(indent, at, s.(levels := Front(s.levels),
          out := s.out + [Lexeme(Last(s.levels).Closer(), At(at))]));
    }
  }

  lemma LayoutTokens()
    ensures IsLayout(Indent) && IsLayout(Dedent) && IsLayout(BlockValueDedent)
  {}

  lemma IndentedLays(source: string, span: Span, s: State)
    requires span.start <= |source| && s.levels != []
    ensures var r := Indented(source, span, s);
            && OnlyLayout(s.out, r.out) && r.valueIndents == s.valueIndents && r.brackets == s.brackets
            && r.droppedNewline == s.droppedNewline && r.atLineStart == s.atLineStart
  {
    hide IsLayout, LineOf, CloseLevels;
    var indent := Column(source, span.start);
    var s1 := s.(lineIndent := indent, lineShort := false, shortHeader := None);
    CloseLevelsLays(indent, span.start, s1);
    LayoutTokens();
  }

  /** The first token of a line, the `n`th. */
  lemma LineStartMarked(source: string, raw: seq<Lexeme>, n: nat, s: State)
    requires Apart(raw) && n < |raw| && raw[n].span.start <= |source| && s.levels != [] && s.brackets == []
    requires RestMarked(raw, s, EndOf(raw, n)) && !raw[n].tok.Newline?
    ensures LineMarked(raw, LineStart(source, raw[n].tok, raw[n].span, s), raw[n].span.end)
  {
    hide Indented, Viewed, Values, Between, LedByKeyword;
    var t, s1 := raw[n], Indented(source, raw[n].span, s);
    IndentedLays(source, t.span, s);
    LayoutViewed(raw, s.out, s1.out);
    var lo := Viewed(s.out).line;
    BetweenNext(raw, lo, n);
    assert lo <= EndOf(raw, n) <= t.span.start;
    assert Between(raw, lo, t.span.end) == [] + [t];
    LedOne([], t);
    HeadStartOne([], t);
    assert [] + [t] == [t];
  }

  /** A token within a line, the `n`th, before it is emitted. */
  lemma TokenMarked(raw: seq<Lexeme>, n: nat, s: State)
    requires Apart(raw) && n < |raw| && LineMarked(raw, s, EndOf(raw, n))
    ensures var t := raw[n];
            var r := if s.headNext && !t.tok.Newline? then StatementHead(t.tok, t.span, s) else s;
            LineMarked(raw, r, t.span.end)
    ensures !raw[n].tok.Newline? ==> Between(raw, Viewed(s.out).semi, raw[n].span.end) != []
  {
    hide Viewed, Values, Between, LedByKeyword, HeadStart;
    var t, v, e := raw[n], Viewed(s.out), EndOf(raw, n);
    BetweenNext(raw, v.line, n);
    BetweenNext(raw, v.semi, n);
    assert e <= t.span.start;
    FromWithin(s.out);
    var ts, us := Between(raw, v.line, e), Between(raw, v.semi, e);
    if !t.tok.Newline? {
      LedOne(ts, t);
      if us != [] { HeadStartOne(us, t); } else { HeadStartOne([], t); assert us + [t] == [] + [t]; }
      PrefixesOne(ts, t);
      PrefixesOne(us, t);
    } else {
      assert ts + [] == ts && us + [] == us;
    }
  }

  lemma PrefixesOne(ts: seq<Lexeme>, t: Lexeme)
    ensures AllPrefixes(ts + [t]) <==> AllPrefixes(ts) && Prefix(t)
  {
    var us := ts + [t];
    assert us[|ts|] == t && forall i | 0 <= i < |ts| :: us[i] == ts[i];
  }

  // ----- Every step -----

  lemma RawApart(source: string, raw: seq<Lexeme>)
    requires Raw(source, raw)
    ensures Apart(raw)
  {
    forall i | 0 <= i < |raw| ensures raw[i].span.start < raw[i].span.end { assert RawToken(source, raw[i]); }
  }

  lemma NewlineBreaks(raw: seq<Lexeme>, n: nat)
    requires Apart(raw) && n < |raw| && raw[n].tok.Newline?
    ensures LastBreak(raw, raw[n].span, raw[n].span.end)
  {
    var d := raw[n].span;
    BetweenEmpty(raw, d.end);
    forall lo ensures Between(raw, lo, d.start) == Between(raw, lo, d.end) {
      BetweenAgree(raw, lo, d.start, lo, d.end);
    }
  }

  lemma StillBreaks(raw: seq<Lexeme>, n: nat, d: Span)
    requires Apart(raw) && n < |raw| && raw[n].tok.Newline? && LastBreak(raw, d, EndOf(raw, n))
    ensures LastBreak(raw, d, raw[n].span.end)
  {
    var e := EndOf(raw, n);
    forall lo ensures Between(raw, lo, d.start) == Between(raw, lo, raw[n].span.end) {
      BetweenNext(raw, lo, n);
      assert Between(raw, lo, d.start) == Between(raw, lo, e);
    }
    BetweenNext(raw, d.end, n);
  }

  lemma DroppedBreaks(raw: seq<Lexeme>, n: nat, s: State)
    requires Apart(raw) && n < |raw| && raw[n].tok.Newline?
    requires s.droppedNewline.Some? ==> LastBreak(raw, s.droppedNewline.value, EndOf(raw, n))
    ensures s.droppedNewline.Some? ==> LastBreak(raw, s.droppedNewline.value, raw[n].span.end)
  {
    if s.droppedNewline.Some? { StillBreaks(raw, n, s.droppedNewline.value); }
  }

  lemma EndedKinds(bs: seq<OpenBracket>)
    ensures |Ended(bs)| == |bs| && Kinds(Ended(bs)) == Kinds(bs)
  {
    KindsSame(Ended(bs), bs);
  }

  /** A physical line inside brackets that ends the statement ends the line too, or leaves it. */
  lemma PhysicalMarked(source: string, raw: seq<Lexeme>, tok: Token, span: Span, d: Span, s: State, e: nat)
    requires span.start <= |source| && LineMarked(raw, s, e) && LastBreak(raw, d, e) && LineOrder(s, d.start)
    requires LineOpen(s) && !s.atLineStart && s.brackets != []
    ensures var r := PhysicalLine(source, tok, span, d, s);
            if r.atLineStart then RestMarked(raw, r, e) && r.brackets == [] else LineMarked(raw, r, e)
  {
    hide LineMarked, RestMarked, LineOrder, LineOpen, CloseEarly, EndLine, LastBreak, LineOf, Kinds, Ended;
    if Column(source, span.start) <= s.lineIndent && !tok.Close? {
      assert d.start < e by { BreakBefore(raw, d, e); }
      var s0 := s.(brackets := Ended(s.brackets));
      EndedKinds(s.brackets);
      SameMarked(raw, s, s0, e);
      CloseEarlyMarked(raw, d.start, s0, e);
      SameLineOpen(s, s0);
      CloseEarlyLine(d.start, s0);
      CloseEarlyFrame(d.start, s0);
      SameOrder(s, s0, d.start);
      LinePlaced(s);
      CloseEarlyOrder(d.start, s0);
      var s1 := CloseEarly(d.start, s0);
      if s1.brackets == [] {
        EndLineMarked(raw, d, s1, e);
        EndLineBrackets(d, s1);
      }
    }
  }

  lemma BreakBefore(raw: seq<Lexeme>, d: Span, e: nat)
    requires LastBreak(raw, d, e)
    ensures d.start < e
  {}

  lemma EndLineBrackets(d: Span, s: State)
    ensures EndLine(d, s).brackets == s.brackets
  {}

  /** Before the `n`th token is emitted. */
  lemma BeginMarked(source: string, raw: seq<Lexeme>, n: nat, s: State)
    requires Raw(source, raw) && n < |raw| && Shape(s) && Order(source, s, EndOf(raw, n))
             && Marked(raw, s, EndOf(raw, n))
    requires !(s.atLineStart && raw[n].tok.Newline?)
    ensures LineMarked(raw, Begin(source, raw[n], s), raw[n].span.end)
    ensures !raw[n].tok.Newline? ==> Between(raw, Viewed(Begin(source, raw[n], s).out).semi, raw[n].span.end) != []
  {
    var t, e := raw[n], EndOf(raw, n);
    RawApart(source, raw);
    assert RawToken(source, t);
    hide LineMarked, RestMarked, LineOrder, RestOrder, LineOpen, NestedTo, PhysicalLine, LineStart, RawToken, Raw,
        LastBreak,
        Between, Viewed;
    var dropped := !t.tok.Newline? && s.droppedNewline.Some?;
    var s0 := s.(droppedNewline := None);
    var s1 := if dropped then PhysicalLine(source, t.tok, t.span, s.droppedNewline.value, s0) else s;
    if dropped {
      var d := s.droppedNewline.value;
      SameMarked(raw, s, s0, e);
      SameLineOpen(s, s0);
      SameOrder(s, s0, d.start);
      PhysicalMarked(source, raw, t.tok, t.span, d, s0, e);
      PhysicalLineShape(source, t.tok, t.span, d, s0);
    }
    assert s1.levels != [];
    var s2 := if s1.atLineStart && s1.brackets == [] then LineStart(source, t.tok, t.span, s1)
              else if s1.headNext && !t.tok.Newline? then StatementHead(t.tok, t.span, s1) else s1;
    if s1.atLineStart {
      LineStartMarked(source, raw, n, s1);
      FirstBegun(raw, s2, t.span.end);
    } else {
      TokenMarked(raw, n, s1);
    }
    SameMarked(raw, s2, s2.(atLineStart := false), t.span.end);
  }

  lemma FirstBegun(raw: seq<Lexeme>, s: State, hi: nat)
    requires LineMarked(raw, s, hi) && s.headIsFirst
    ensures Between(raw, Viewed(s.out).semi, hi) != []
  {}

  lemma SemiMarked(raw: seq<Lexeme>, s: State, t: Lexeme, hi: nat)
    requires LineMarked(raw, s, hi) && t.tok.Semi? && s.brackets == [] && t.span.end == hi && t.span.start < hi
    requires Between(raw, Viewed(s.out).semi, hi) != [] && t in Between(raw, Viewed(s.out).line, hi)
    ensures LineMarked(raw, s.(out := s.out + [t], headNext := true, headIsFirst := false), hi)
  {
    hide Between, HeadStart, LedByKeyword;
    ViewedOne(s.out, t);
    FromWithin(s.out);
    BetweenEmpty(raw, hi);
    assert !Prefix(t);
  }

  lemma NewlineMarked(resync: set<nat>, raw: seq<Lexeme>, n: nat, s: State)
    requires Apart(raw) && n < |raw| && LineOpen(s) && !s.atLineStart && raw[n].tok.Newline?
    requires LineOrder(s, raw[n].span.start) && LineMarked(raw, s, raw[n].span.end)
    requires s.droppedNewline.Some? ==> LastBreak(raw, s.droppedNewline.value, EndOf(raw, n))
    ensures Marked(raw, Emit(resync, n, raw[n], s), raw[n].span.end)
  {
    hide LineMarked, RestMarked, LineOrder, LineOpen, EndLine, Between, Viewed, LastBreak, Apart;
    var t, hi := raw[n], raw[n].span.end;
    NewlineBreaks(raw, n);
    DroppedBreaks(raw, n, s);
    if s.brackets == [] {
      EndLineMarked(raw, t.span, s, hi);
      EndLineFrame(t.span, s);
    } else {
      SameMarked(raw, s, Emit(resync, n, t, s), hi);
    }
  }

  lemma EmitMarked(source: string, resync: set<nat>, raw: seq<Lexeme>, n: nat, s: State)
    requires Apart(raw) && n < |raw| && LineOpen(s) && !s.atLineStart && RawToken(source, raw[n])
    requires s.droppedNewline.Some? ==> raw[n].tok.Newline?
    requires LineOrder(s, raw[n].span.start) && LineMarked(raw, s, raw[n].span.end)
    requires s.droppedNewline.Some? ==> LastBreak(raw, s.droppedNewline.value, EndOf(raw, n))
    requires !raw[n].tok.Newline? ==> Between(raw, Viewed(s.out).semi, raw[n].span.end) != []
    ensures Marked(raw, Emit(resync, n, raw[n], s), raw[n].span.end)
  {
    hide LineMarked, RestMarked, LineOrder, LineOpen, CloseBracket, EndLine, Between, Viewed, LastBreak, Apart;
    var t, hi := raw[n], raw[n].span.end;
    assert t.span.start < hi && !IsLayout(t.tok);
    if t.tok.Semi? && s.brackets == [] { LineHas(raw, n, s); }
    hide RawToken, IsLayout;
    match t.tok {
      case Open(b) =>
        PushMarked(raw, s, t, s.brackets + [OpenBracket(b, t.span, n, n in resync, false, None)], hi);
      case Close(b) =>
        CloseBracketMarked(raw, b, t.span, s, hi);
        CloseBracketFrame(b, t.span, s);
      case Newline => NewlineMarked(resync, raw, n, s);
      case Semi =>
        if s.brackets == [] { SemiMarked(raw, s, t, hi); } else { PushMarked(raw, s, t, s.brackets, hi); }
      case _ => PushMarked(raw, s, t, s.brackets, hi);
    }
  }

  lemma LineHas(raw: seq<Lexeme>, n: nat, s: State)
    requires Apart(raw) && n < |raw| && !raw[n].tok.Newline? && LineMarked(raw, s, raw[n].span.end)
    requires Between(raw, Viewed(s.out).semi, raw[n].span.end) != []
    ensures raw[n] in Between(raw, Viewed(s.out).line, raw[n].span.end)
  {
    hide Viewed;
    BetweenNext(raw, Viewed(s.out).line, n);
    SomeBetween(raw, Viewed(s.out).semi, n);
  }

  /** Of the tokens up to the `n`th, the `n`th starts last. */
  lemma SomeBetween(raw: seq<Lexeme>, lo: nat, n: nat)
    requires Apart(raw) && n < |raw| && Between(raw, lo, raw[n].span.end) != []
    ensures lo <= raw[n].span.start
  {
    var t := Between(raw, lo, raw[n].span.end)[0];
    BetweenIn(raw, lo, raw[n].span.end, 0);
    var i :| 0 <= i < |raw| && raw[i] == t;
    if i < n { assert raw[i].span.end <= raw[n].span.start; }
  }

  lemma {:induction false} BetweenIn(raw: seq<Lexeme>, lo: nat, hi: nat, k: nat)
    requires k < |Between(raw, lo, hi)|
    ensures Between(raw, lo, hi)[k] in raw && lo <= Between(raw, lo, hi)[k].span.start < hi
  {
    if k < |Between(Front(raw), lo, hi)| {
      BetweenIn(Front(raw), lo, hi, k);
      assert Between(raw, lo, hi)[k] == Between(Front(raw), lo, hi)[k];
    } else {
      assert Between(raw, lo, hi)[k] == Last(raw);
    }
  }

  lemma ReadyLine(tok: Token, s: State)
    requires Ready(tok, s)
    ensures LineOpen(s) && !s.atLineStart && (s.droppedNewline.Some? ==> tok.Newline?)
  {
    hide LineOpen;
  }

  lemma StepMarked(source: string, resync: set<nat>, raw: seq<Lexeme>, n: nat, s: State)
    requires Raw(source, raw) && n < |raw| && Shape(s) && Order(source, s, EndOf(raw, n))
             && Marked(raw, s, EndOf(raw, n))
    ensures Marked(raw, Step(source, resync, n, raw[n], s), raw[n].span.end)
  {
    var t, e := raw[n], EndOf(raw, n);
    RawApart(source, raw);
    assert RawToken(source, t) && e <= t.span.start;
    if s.atLineStart && t.tok.Newline? {
      BetweenNext(raw, Viewed(s.out).line, n);
    } else {
      var r := Begin(source, t, s);
      BeginMarked(source, raw, n, s);
      BeginReady(source, t, s);
      ReadyLine(t.tok, Begin(source, t, s));
      BeginOrder(source, t, s, e);
      BeginDropped(source, raw, n, s);
      hide Begin, Emit, Shape, Order, Ready, RawToken, Marked, LineMarked, LineOrder, Between, Viewed, LastBreak, Raw;
      EmitMarked(source, resync, raw, n, r);
    }
  }

  lemma BeginDropped(source: string, raw: seq<Lexeme>, n: nat, s: State)
    requires Raw(source, raw) && n < |raw| && Shape(s) && Marked(raw, s, EndOf(raw, n))
    requires !(s.atLineStart && raw[n].tok.Newline?) && raw[n].span.start <= |source|
    ensures var d := Begin(source, raw[n], s).droppedNewline; d.Some? ==> LastBreak(raw, d.value, EndOf(raw, n))
  {
    var t := raw[n];
    hide LineMarked, RestMarked, LineOpen, NestedTo, PhysicalLine, Indented, Raw, LastBreak, Between, Viewed;
    BeginReady(source, t, s);
    if t.tok.Newline? { assert Begin(source, t, s).droppedNewline == s.droppedNewline; }
  }

  lemma StartMarked(raw: seq<Lexeme>)
    ensures Marked(raw, START, 0)
  {
    hide Between;
    BetweenEmpty(raw, 0);
  }

  lemma {:induction false} AfterMarked(source: string, resync: set<nat>, raw: seq<Lexeme>, n: nat)
    requires n <= |raw| && Raw(source, raw)
    ensures Marked(raw, After(source, resync, raw, n), EndOf(raw, n))
  {
    hide Step, Shape, Order, Marked;
    if n == 0 {
      StartMarked(raw);
    } else {
      AfterMarked(source, resync, raw, n - 1);
      AfterShape(source, resync, raw, n - 1);
      AfterOrder(source, resync, raw, n - 1);
      StepMarked(source, resync, raw, n - 1, After(source, resync, raw, n - 1));
    }
  }

  // ----- The whole stream -----

  /** Tokens after the last written newline open nothing. */
  lemma OneMore(raw: seq<Lexeme>, out: seq<Lexeme>, t: Lexeme)
    requires !t.tok.Newline? || t.span.start >= t.span.end
    ensures Values(raw, out + [t]) == Values(raw, out)
  {
    ViewedOne(out, t);
  }

  lemma {:induction false} GiveUpAllValues(raw: seq<Lexeme>, at: nat, s: State)
    ensures var r := GiveUpAll(at, s); Values(raw, r.out) == Values(raw, s.out) && r.valueIndents == s.valueIndents
    decreases |s.brackets|
  {
    if s.brackets != [] {
      OneMore(raw, s.out, Lexeme(Close(Last(s.brackets).kind), At(at)));
      GiveUpAllValues(raw, at, GiveUp(at, s).(resyncNext := s.resyncNext + [Last(s.brackets).index]));
    }
  }

  lemma EndInputValues(raw: seq<Lexeme>, at: nat, s: State)
    requires Unmarking(s.out)
    ensures var r := EndInput(at, s);
            Values(raw, r.out) == Values(raw, s.out) && r.valueIndents == s.valueIndents && Unmarking(r.out)
  {
    hide Values;
    OneMore(raw, s.out, Lexeme(Newline, At(at)));
  }

  lemma {:induction false} CloseAllValues(raw: seq<Lexeme>, at: nat, s: State)
    ensures var r := CloseAll(at, s); Values(raw, r.out) == Values(raw, s.out) && r.valueIndents == s.valueIndents
    decreases |s.levels|
  {
    if |s.levels| > 1 {
      var t := Lexeme(Last(s.levels).Closer(), At(at));
      OneMore(raw, s.out, t);
      CloseAllValues(raw, at, s.(levels := Front(s.levels), out := s.out + [t]));
    }
  }

  /** A run adds no `BlockValueIndent` before its end. */
  ghost predicate Unmarking(out: seq<Lexeme>) {
    forall i | 0 <= i < |out| :: !out[i].tok.BlockValueIndent?
  }

  lemma {:induction false} UnmarkedSame(out: seq<Lexeme>)
    requires Unmarking(out)
    ensures Unmarked(out) == out
  {
    if out != [] {
      UnmarkedSame(Front(out));
      assert out == Front(out) + [Last(out)];
    }
  }

  lemma {:induction false} UnmarkedJoin(a: seq<Lexeme>, b: seq<Lexeme>)
    ensures Unmarked(a + b) == Unmarked(a) + Unmarked(b)
  {
    if b == [] {
      assert a + b == a;
    } else {
      UnmarkedJoin(a, Front(b));
      ViewedOne(a + Front(b), Last(b));
      assert a + b == (a + Front(b)) + [Last(b)];
    }
  }

  lemma OpenerUnmarked(t: Lexeme)
    requires t.tok.BlockValueIndent?
    ensures Unmarked([t]) == []
  {
    assert Front([t]) == [];
  }

  lemma {:induction false} InsertedUnmarked(out: seq<Lexeme>, ins: seq<(nat, nat)>)
    requires Unmarking(out)
    ensures Unmarked(Inserted(out, ins)) == out
    decreases |ins|
  {
    hide Unmarked;
    if ins == [] || Last(ins).0 > |out| {
      UnmarkedSame(out);
    } else {
      var k, opener := Last(ins).0, [Lexeme(BlockValueIndent, At(Last(ins).1))];
      var before := Inserted(out[..k], Front(ins));
      assert Inserted(out, ins) == before + opener + out[k..];
      InsertedUnmarked(out[..k], Front(ins));
      hide Inserted;
      UnmarkedSame(out[k..]);
      UnmarkedJoin(before + opener, out[k..]);
      UnmarkedJoin(before, opener);
      OpenerUnmarked(opener[0]);
      assert out[..k] + [] + out[k..] == out;
    }
  }

  /** Where the insertions stand: the `i`th before the token it was listed for. */
  lemma {:induction false} InsertedAt(out: seq<Lexeme>, ins: seq<(nat, nat)>, i: nat)
    requires Placed(ins, |out|) && i < |ins|
    ensures |Inserted(out, ins)| == |out| + |ins|
    ensures Inserted(out, ins)[ins[i].0 + i] == Lexeme(BlockValueIndent, At(ins[i].1))
    ensures Inserted(out, ins)[ins[i].0 + i + 1] == out[ins[i].0]
    decreases |ins|
  {
    var k, before := Last(ins).0, out[..Last(ins).0];
    assert Placed(Front(ins), |before|);
    if |ins| > 1 { InsertedAt(before, Front(ins), if i < |ins| - 1 then i else 0); }
    assert |Inserted(before, Front(ins))| == k + |ins| - 1 by { if |ins| == 1 { assert Front(ins) == []; } }
    var r := Inserted(before, Front(ins)) + [Lexeme(BlockValueIndent, At(Last(ins).1))] + out[k..];
    assert Inserted(out, ins) == r;
    if i < |ins| - 1 {
      assert ins[i].0 < ins[|ins| - 1].0;
      assert Front(ins)[i] == ins[i];
    }
  }

  lemma {:induction false} PlainRun(source: string, resync: set<nat>, raw: seq<Lexeme>, n: nat)
    requires n <= |raw| && Raw(source, raw)
    ensures Unmarking(After(source, resync, raw, n).out)
  {
    if n > 0 {
      PlainRun(source, resync, raw, n - 1);
      assert RawToken(source, raw[n - 1]);
      PlainStep(source, resync, n - 1, raw[n - 1], After(source, resync, raw, n - 1));
    }
  }

  lemma PlainStep(source: string, resync: set<nat>, index: nat, t: Lexeme, s: State)
    requires t.span.start <= |source| && s.levels != [] && Unmarking(s.out) && !t.tok.BlockValueIndent?
    ensures Unmarking(Step(source, resync, index, t, s).out)
  {
    hide Column, LineOf;
    if !(s.atLineStart && t.tok.Newline?) {
      PlainBegin(source, t, s);
      PlainEmit(resync, index, t, Begin(source, t, s));
    }
  }

  lemma PlainBegin(source: string, t: Lexeme, s: State)
    requires t.span.start <= |source| && s.levels != [] && Unmarking(s.out)
    ensures Unmarking(Begin(source, t, s).out)
  {
    hide PhysicalLine, Indented, Unmarking;
    var s1 := if !t.tok.Newline? && s.droppedNewline.Some?
              then PhysicalLine(source, t.tok, t.span, s.droppedNewline.value, s.(droppedNewline := None)) else s;
    if !t.tok.Newline? && s.droppedNewline.Some? {
      PlainPhysical(source, t.tok, t.span, s.droppedNewline.value, s.(droppedNewline := None));
    }
    IndentedPlain(source, t.span, s1);
  }

  lemma PlainPhysical(source: string, tok: Token, span: Span, newline: Span, s: State)
    requires span.start <= |source| && Unmarking(s.out)
    ensures Unmarking(PhysicalLine(source, tok, span, newline, s).out)
  {
    hide Column;
    PlainCloses(0, newline.start, s.(brackets := Ended(s.brackets)));
  }

  lemma IndentedPlain(source: string, span: Span, s: State)
    requires span.start <= |source| && s.levels != [] && Unmarking(s.out)
    ensures Unmarking(Indented(source, span, s).out)
  {
    hide Column, LineOf;
    var indent := Column(source, span.start);
    CloseLevelsPlain(indent, span.start, s.(lineIndent := indent, lineShort := false, shortHeader := None));
  }

  lemma {:induction false} CloseLevelsPlain(indent: nat, at: nat, s: State)
    requires Unmarking(s.out)
    ensures Unmarking(CloseLevels(indent, at, s).out)
    decreases |s.levels|
  {
    if TopCloses(s.levels, indent) {
      CloseLevelsPlain(indent, at, s.(levels := Front(s.levels),
          out := s.out + [Lexeme(Last(s.levels).Closer(), At(at))]));
    }
  }

  lemma {:induction false} PlainCloses(n: nat, at: nat, s: State)
    requires Unmarking(s.out)
    ensures Unmarking(CloseEarly(at, s).out) && Unmarking(CloseDown(n, at, s).out)
    decreases |s.brackets|
  {
    if s.brackets != [] { PlainCloses(n, at, GiveUp(at, s)); }
  }

  lemma PlainEmit(resync: set<nat>, index: nat, t: Lexeme, s: State)
    requires Unmarking(s.out) && !t.tok.BlockValueIndent?
    ensures Unmarking(Emit(resync, index, t, s).out)
  {
    if t.tok.Close? {
      var i := Innermost(t.tok.b, s.brackets);
      if i.Some? && i.value + 1 < |s.brackets| {
        PlainCloses(i.value + 1, t.span.start, s.(brackets := Met(t.tok.b, t.span, s.brackets)));
      }
    }
  }

  lemma {:induction false} PlainEnd(at: nat, s: State)
    requires Unmarking(s.out)
    ensures Unmarking(GiveUpAll(at, s).out) && Unmarking(CloseAll(at, s).out)
    decreases |s.brackets| + |s.levels|
  {
    if s.brackets != [] {
      PlainEnd(at, GiveUp(at, s).(resyncNext := s.resyncNext + [Last(s.brackets).index]));
    }
    if |s.levels| > 1 {
      PlainEnd(at, s.(levels := Front(s.levels), out := s.out + [Lexeme(Last(s.levels).Closer(), At(at))]));
    }
  }

  /** A stream's `BlockValueIndent`s are those that its lines open: without them, the stream says
      where they stand. */
  ghost predicate ValuesStand(raw: seq<Lexeme>, out: seq<Lexeme>) {
    var plain := Unmarked(out);
    var ins := Values(raw, plain);
    && out == Inserted(plain, ins) && |out| == |plain| + |ins|
    && forall i | 0 <= i < |ins| ::
         && ins[i].0 < |plain| && out[ins[i].0 + i] == Lexeme(BlockValueIndent, At(ins[i].1))
         && out[ins[i].0 + i + 1] == plain[ins[i].0]
  }

  lemma InsertedStands(raw: seq<Lexeme>, out: seq<Lexeme>)
    requires Unmarking(out) && Placed(Values(raw, out), |out|)
    ensures ValuesStand(raw, Inserted(out, Values(raw, out)))
  {
    hide Values, Inserted, Unmarked;
    var ins := Values(raw, out);
    InsertedUnmarked(out, ins);
    forall i | 0 <= i < |ins|
      ensures && ins[i].0 < |out| && |Inserted(out, ins)| == |out| + |ins|
              && Inserted(out, ins)[ins[i].0 + i] == Lexeme(BlockValueIndent, At(ins[i].1))
              && Inserted(out, ins)[ins[i].0 + i + 1] == out[ins[i].0]
    {
      InsertedAt(out, ins, i);
    }
    if ins == [] { InsertedNone(out); } else { assert ins[0] == ins[0]; }
  }

  lemma InsertedNone(out: seq<Lexeme>)
    ensures Inserted(out, []) == out
  {}

  lemma FinishBlocks(raw: seq<Lexeme>, at: nat, s: State)
    requires Shape(s) && Unmarking(s.out) && s.valueIndents == Values(raw, s.out)
    ensures ValuesStand(raw, Finish(at, s).out)
  {
    GiveUpAllRests(at, s);
    hide Shape, Values, Resting, GiveUpAll, CloseAll, ValuesStand, Inserted, Placed, Unmarking, LineEnded,
        EndInput, Nesting;
    var s1 := GiveUpAll(at, s);
    GiveUpAllValues(raw, at, s);
    PlainEnd(at, s);
    var s2 := EndInput(at, s1);
    EndInputValues(raw, at, s1);
    EndInputRests(at, s1);
    RestingPlaced(s2);
    CloseAllRests(at, s2, |s2.out|);
    CloseAllValues(raw, at, s2);
    PlainEnd(at, s2);
    var s3 := CloseAll(at, s2);
    RestingPlaced(s3);
    InsertedStands(raw, s3.out);
  }

  /** For every sequence of written tokens and either run. */
  lemma LaidBlocks(source: string, resync: set<nat>, raw: seq<Lexeme>)
    requires Raw(source, raw)
    ensures ValuesStand(raw, Laid(source, resync, raw).out)
  {
    hide Shape, Finish, ValuesStand, Unmarking, Step;
    AfterMarked(source, resync, raw, |raw|);
    AfterShape(source, resync, raw, |raw|);
    PlainRun(source, resync, raw, |raw|);
    MarkedValues(raw, After(source, resync, raw, |raw|), EndOf(raw, |raw|));
    FinishBlocks(raw, |source|, After(source, resync, raw, |raw|));
  }

  lemma MarkedValues(raw: seq<Lexeme>, s: State, hi: nat)
    requires Marked(raw, s, hi)
    ensures s.valueIndents == Values(raw, s.out)
  {}
}
