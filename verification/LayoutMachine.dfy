/** The off-side rule over raw tokens: the state of one layout run and what each token does to it.

    A raw token is what the character-level lexer produced. The run adds `Indent`/`Dedent` and
    `BlockValueIndent`/`BlockValueDedent`, drops newlines inside brackets, and repairs brackets. */
module LayoutMachine {
  import opened Options

  datatype Bracket = Paren | Square | Brace

  datatype Token =
    | Newline
    | Open(b: Bracket)
    | Close(b: Bracket)
    | Colon
    | Semi
    | Pub
    | Const
    | BlockKeyword(word: string)
    | Word(text: string)
    | Indent
    | Dedent
    | BlockValueIndent
    | BlockValueDedent

  datatype Span = Span(start: nat, end: nat)

  datatype Lexeme = Lexeme(tok: Token, span: Span)

  datatype LexError =
    | InconsistentIndent(span: Span)
    | UnmatchedClose(span: Span)
    | MismatchedClose(span: Span, close: Bracket, open: Span, opener: Bracket)
    | UnclosedBracket(span: Span)

  /** A column a line returns to in order to continue the block that opened it. */
  datatype Level = Fixed(c: nat) | Pending(min: nat) | Pinned(c: nat) {
    function Floor(): nat {
      if Pending? then min else c
    }

    function Closer(): Token {
      if Fixed? then Dedent else BlockValueDedent
    }

    predicate Strands(indent: nat) {
      !Pending? && c < indent
    }

    predicate ClosesAt(indent: nat) {
      if Pending? then min >= indent else c > indent
    }
  }

  datatype OpenBracket = OpenBracket(kind: Bracket, span: Span, index: nat, resync: bool, ended: bool,
      stray: Option<(Bracket, Span)>) {
    predicate ClosesEarly() {
      resync || stray.Some?
    }

    /** The error for this bracket, closed by a zero-width closer. */
    function NeverClosed(): LexError {
      if stray.Some? then MismatchedClose(stray.value.1, stray.value.0, span, kind) else UnclosedBracket(span)
    }
  }

  datatype State = State(
    out: seq<Lexeme>,
    errors: seq<LexError>,
    levels: seq<Level>,
    brackets: seq<OpenBracket>,
    resyncNext: seq<nat>,
    atLineStart: bool,
    droppedNewline: Option<Span>,
    lineHead: (nat, nat),
    valueIndents: seq<(nat, nat)>,
    opensAtFirst: bool,
    headNext: bool,
    headIsFirst: bool,
    lineShort: bool,
    shortHeader: Option<nat>,
    lineIndent: nat)

  const START := State([], [], [Fixed(0)], [], [], true, None, (0, 0), [], false, false, false, false, None, 0)

  function Last<T>(s: seq<T>): T
    requires s != []
  {
    s[|s| - 1]
  }

  function Front<T>(s: seq<T>): seq<T>
    requires s != []
  {
    s[..|s| - 1]
  }

  function At(pos: nat): Span {
    Span(pos, pos)
  }

  /** Where the line that holds position `at` starts. */
  function LineOf(source: string, at: nat): (r: nat)
    requires at <= |source|
    ensures r <= at
  {
    if at == 0 then 0 else if source[at - 1] == '\n' then at else LineOf(source, at - 1)
  }

  function Column(source: string, at: nat): nat
    requires at <= |source|
  {
    at - LineOf(source, at)
  }

  // ----- Lines -----

  function StatementHead(tok: Token, span: Span, s: State): State {
    s.(lineHead := (|s.out|, span.start),
       opensAtFirst := if s.headIsFirst then tok.BlockKeyword? else s.opensAtFirst,
       headNext := tok.Pub? || tok.Const?)
  }

  /** Whether a line at `indent` closes the top level: not one it merely falls short of. */
  predicate TopCloses(levels: seq<Level>, indent: nat)
  {
    && |levels| >= 2 && Last(levels).ClosesAt(indent)
    && !(Last(levels).Fixed? && levels[|levels| - 2].Strands(indent))
  }

  function CloseLevels(indent: nat, at: nat, s: State): (r: State)
    ensures s.levels != [] ==> r.levels != []
    decreases |s.levels|
  {
    if !TopCloses(s.levels, indent) then s
    else CloseLevels(indent, at, s.(levels := Front(s.levels),
        out := s.out + [Lexeme(Last(s.levels).Closer(), At(at))]))
  }

  /** The line at `indent` takes its place in the level the closing left on top. */
  function Settle(indent: nat, span: Span, s: State): State
    requires s.levels != []
  {
    var top := Last(s.levels);
    if top.Pending? then s.(levels := Front(s.levels) + [Pinned(indent)])
    else if top.c == indent then s
    else s.(lineShort := top.c > indent, errors := s.errors + [InconsistentIndent(span)])
  }

  /** The column a line must exceed to open a block. */
  function Threshold(s: State): nat
    requires s.levels != []
  {
    var floor := Last(s.levels).Floor();
    if s.shortHeader.Some? && s.shortHeader.value < floor then s.shortHeader.value else floor
  }

  function Indented(source: string, span: Span, s: State): (r: State)
    requires span.start <= |source| && s.levels != []
    ensures r.levels != []
  {
    var indent := Column(source, span.start);
    var s1 := s.(lineIndent := indent, lineShort := false, shortHeader := None);
    if indent > Threshold(s) then
      s1.(levels := s.levels + [Fixed(indent)], out :=
          s.out + [Lexeme(Indent, Span(LineOf(source, span.start), span.start))])
    else Settle(indent, span, CloseLevels(indent, span.start, s1))
  }

  /** The first token of a logical line. */
  function LineStart(source: string, tok: Token, span: Span, s: State): State
    requires span.start <= |source| && s.levels != []
  {
    StatementHead(tok, span, Indented(source, span, s).(headIsFirst := true))
  }

  predicate OpensBlock(s: State) {
    s.out != [] && Last(s.out).tok.Colon?
  }

  /** A newline outside brackets. */
  function EndLine(span: Span, s: State): State {
    var s1 := if OpensBlock(s) && !s.opensAtFirst
              then s.(levels := s.levels + [Pending(s.lineIndent)], valueIndents := s.valueIndents + [s.lineHead])
                  else s;
    s1.(shortHeader := if OpensBlock(s) && s.lineShort then Some(s.lineIndent) else s.shortHeader,
        out := s.out + [Lexeme(Newline, span)], atLineStart := true)
  }

  // ----- Brackets -----

  /** The innermost bracket closes with a zero-width closer. */
  function GiveUp(at: nat, s: State): State
    requires s.brackets != []
  {
    var top := Last(s.brackets);
    s.(brackets := Front(s.brackets), out := s.out + [Lexeme(Close(top.kind), At(at))],
        errors := s.errors + [top.NeverClosed()])
  }

  function CloseEarly(at: nat, s: State): (r: State)
    ensures r.levels == s.levels
    decreases |s.brackets|
  {
    if s.brackets == [] || !Last(s.brackets).ClosesEarly() then s else CloseEarly(at, GiveUp(at, s))
  }

  /** Closes brackets until `n` are left. */
  function CloseDown(n: nat, at: nat, s: State): (r: State)
    ensures r.levels == s.levels
    decreases |s.brackets|
  {
    if |s.brackets| <= n then s else CloseDown(n, at, GiveUp(at, s))
  }

  function Ended(bs: seq<OpenBracket>): (r: seq<OpenBracket>)
    ensures |r| == |bs| && forall i :: 0 <= i < |bs| ==> r[i] == bs[i].(ended := true)
  {
    if bs == [] then [] else Ended(Front(bs)) + [Last(bs).(ended := true)]
  }

  /** `tok` starts a physical line inside brackets, after `newline`. */
  function PhysicalLine(source: string, tok: Token, span: Span, newline: Span, s: State): (r: State)
    requires span.start <= |source|
    ensures s.levels <= r.levels
  {
    if Column(source, span.start) > s.lineIndent || tok.Close? then s
    else
      var s1 := CloseEarly(newline.start, s.(brackets := Ended(s.brackets)));
      if s1.brackets == [] then EndLine(newline, s1) else s1
  }

  /** The innermost open bracket of `kind`. */
  function Innermost(kind: Bracket, bs: seq<OpenBracket>): (r: Option<nat>)
    ensures r.Some? ==> r.value < |bs| && bs[r.value].kind == kind && forall j :: r.value < j < |bs| ==>
            bs[j].kind != kind
    ensures r.None? ==> forall j :: 0 <= j < |bs| ==> bs[j].kind != kind
  {
    if bs == [] then None
    else if Last(bs).kind == kind then Some(|bs| - 1)
    else Innermost(kind, Front(bs))
  }

  /** The innermost bracket met a close bracket that does not close it. */
  function Met(kind: Bracket, span: Span, bs: seq<OpenBracket>): seq<OpenBracket>
    requires bs != []
  {
    if Last(bs).stray.Some? then bs else Front(bs) + [Last(bs).(stray := Some((kind, span)))]
  }

  /** A close bracket with no open bracket of its kind is dropped. */
  function Stray(kind: Bracket, span: Span, s: State): State {
    if s.brackets != [] && Last(s.brackets).stray.None? then s.(brackets := Met(kind, span, s.brackets))
    else s.(errors := s.errors + [UnmatchedClose(span)])
  }

  /** The bracket that the close bracket closes goes, and leaves `rest`. */
  function TakeMatched(others: bool, matched: OpenBracket, rest: seq<OpenBracket>, t: Lexeme, s: State): State {
    s.(brackets := rest,
       resyncNext := if others && matched.ended then s.resyncNext + [matched.index] else s.resyncNext,
       errors := if matched.stray.Some? then s.errors + [UnmatchedClose(matched.stray.value.1)] else s.errors,
       out := s.out + [t])
  }

  /** A close bracket closes the innermost open bracket of its kind, at `i`. */
  function Matching(i: nat, kind: Bracket, span: Span, s: State): State
    requires i < |s.brackets|
  {
    var others := i + 1 < |s.brackets|;
    var s1 := if others then CloseDown(i + 1, span.start, s.(brackets := Met(kind, span, s.brackets))) else s;
    TakeMatched(others, s.brackets[i], s.brackets[..i], Lexeme(Close(kind), span), s1)
  }

  function CloseBracket(kind: Bracket, span: Span, s: State): (r: State)
    ensures r.levels == s.levels
  {
    var i := Innermost(kind, s.brackets);
    if i.None? then Stray(kind, span, s) else Matching(i.value, kind, span, s)
  }

  // ----- Tokens -----

  /** Line and statement beginnings, before the token itself. */
  function Begin(source: string, t: Lexeme, s: State): (r: State)
    requires t.span.start <= |source| && s.levels != []
    ensures r.levels != []
  {
    var s1 := if !t.tok.Newline? && s.droppedNewline.Some?
              then PhysicalLine(source, t.tok, t.span, s.droppedNewline.value, s.(droppedNewline := None)) else s;
    var s2 := if s1.atLineStart && s1.brackets == [] then LineStart(source, t.tok, t.span, s1)
              else if s1.headNext && !t.tok.Newline? then StatementHead(t.tok, t.span, s1) else s1;
    s2.(atLineStart := false)
  }

  /** The token itself, the `index`th. */
  function Emit(resync: set<nat>, index: nat, t: Lexeme, s: State): (r: State)
    ensures s.levels <= r.levels
  {
    match t.tok
    case Open(b) =>
      s.(brackets := s.brackets + [OpenBracket(b, t.span, index, index in resync, false, None)], out := s.out + [t])
    case Close(b) => CloseBracket(b, t.span, s)
    case Newline =>
      if s.brackets == [] then EndLine(t.span, s)
      else s.(droppedNewline := if s.droppedNewline.Some? then s.droppedNewline else Some(t.span))
    case Semi =>
      var s1 := s.(out := s.out + [t]);
      if s.brackets == [] then s1.(headNext := true, headIsFirst := false) else s1
    case _ => s.(out := s.out + [t])
  }

  function Step(source: string, resync: set<nat>, index: nat, t: Lexeme, s: State): (r: State)
    requires t.span.start <= |source| && s.levels != []
    ensures r.levels != []
  {
    if s.atLineStart && t.tok.Newline? then s else Emit(resync, index, t, Begin(source, t, s))
  }

  // ----- The end of input -----

  function GiveUpAll(at: nat, s: State): State
    decreases |s.brackets|
  {
    if s.brackets == [] then s
    else GiveUpAll(at, GiveUp(at, s).(resyncNext := s.resyncNext + [Last(s.brackets).index]))
  }

  function EndInput(at: nat, s: State): State {
    if s.out != [] && Last(s.out).tok.Newline? then s else s.(out := s.out + [Lexeme(Newline, At(at))])
  }

  function CloseAll(at: nat, s: State): State
    decreases |s.levels|
  {
    if |s.levels| <= 1 then s
    else CloseAll(at, s.(levels := Front(s.levels), out := s.out + [Lexeme(Last(s.levels).Closer(), At(at))]))
  }

  /** `out` with a `BlockValueIndent` before each of the places listed. */
  function Inserted(out: seq<Lexeme>, ins: seq<(nat, nat)>): seq<Lexeme>
    decreases |ins|
  {
    if ins == [] || Last(ins).0 > |out| then out
    else Inserted(out[..Last(ins).0], Front(ins)) + [Lexeme(BlockValueIndent, At(Last(ins).1))] + out[Last(ins).0..]
  }

  function Finish(at: nat, s: State): State {
    var s1 := CloseAll(at, EndInput(at, GiveUpAll(at, s)));
    s1.(out := Inserted(s1.out, s1.valueIndents))
  }

  // ----- A run -----

  /** Raw tokens in source order: nonempty, apart, none of the layout tokens, and a newline token
      for a newline character. */
  ghost predicate Raw(source: string, raw: seq<Lexeme>) {
    && (forall i :: 0 <= i < |raw| ==> RawToken(source, raw[i]))
    && (forall i, j :: 0 <= i < j < |raw| ==> raw[i].span.end <= raw[j].span.start)
  }

  predicate RawToken(source: string, t: Lexeme) {
    && t.span.start < t.span.end <= |source| && !IsLayout(t.tok)
    && (t.tok.Newline? ==> source[t.span.end - 1] == '\n')
  }

  predicate IsLayout(t: Token) {
    t.Indent? || t.Dedent? || t.BlockValueIndent? || t.BlockValueDedent?
  }

  /** The state after the first `n` tokens. */
  function After(source: string, resync: set<nat>, raw: seq<Lexeme>, n: nat): (s: State)
    requires n <= |raw| && forall i :: 0 <= i < |raw| ==> raw[i].span.start <= |source|
    ensures s.levels != []
  {
    if n == 0 then START
    else
      Step(source, resync, n - 1, raw[n - 1], After(source, resync, raw, n - 1))
  }

  /** A whole run. */
  function Laid(source: string, resync: set<nat>, raw: seq<Lexeme>): State
    requires forall i :: 0 <= i < |raw| ==> raw[i].span.start <= |source|
  {
    Finish(|source|, After(source, resync, raw, |raw|))
  }
}
