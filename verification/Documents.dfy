/** An open document of the language server: its text, the line index of that text, and what was
    parsed and lexed from it. */
module Documents {
  import opened Options
  import opened LineIndex

  /** An edit: a whole new text, or a new text for a range of positions. */
  datatype Change = Whole(text: string) | Partial(start: LineCol, end: LineCol, text: string)

  /** `parsed` and `lexed` hold the text that the kept parse and tokens came from. */
  datatype Document = Document(text: string, version: int, index: Index, parsed: Option<string>, lexed: Option<string>)

  /** Nothing kept is of an older text. */
  ghost predicate Fresh(d: Document) {
    && Indexes(d.index, d.text) && (d.parsed.Some? ==> d.parsed.value == d.text)
        && (d.lexed.Some? ==> d.lexed.value == d.text)
  }

  // ----- Edits on the text alone -----

  function LastAt(text: string, e: Encoding, s: nat, t: nat, col: nat, j: nat): (r: nat)
    requires s <= j <= t <= |text| && Offset(text, e, j) <= Offset(text, e, s) + col
    ensures r <= t && Greatest(text, e, s, t, col, r)
    decreases t - j
  {
    if j < t && Offset(text, e, j + 1) <= Offset(text, e, s) + col then LastAt(text, e, s, t, col, j + 1) else j
  }

  /** The character that a position stands before. */
  function Named(text: string, e: Encoding, pos: LineCol): (j: nat)
    ensures j <= |text| && Names(text, e, pos, Offset(text, Utf8, j))
  {
    LinesTile(text, 0, 0);
    if pos.line >= |Lines(text)| then |text|
    else
      var (s, t) := Lines(text)[pos.line];
      LastAt(text, e, s, t, pos.col, s)
  }

  /** The text after an edit; none for a range whose end stands before its start. */
  function Edited(text: string, e: Encoding, c: Change): Option<string> {
    match c
    case Whole(t) => Some(t)
    case Partial(start, end, t) =>
      var i, j := Named(text, e, start), Named(text, e, end);
      if i > j then None else Some(text[..i] + t + text[j..])
  }

  /** A text after the edits of one change, those refused left out. */
  function EditedAll(text: string, e: Encoding, cs: seq<Change>): string
    decreases |cs|
  {
    if cs == [] then text
    else
      var t := Edited(text, e, cs[0]);
      EditedAll(if t.Some? then t.value else text, e, cs[1..])
  }

  function Refusals(text: string, e: Encoding, cs: seq<Change>): nat
    decreases |cs|
  {
    if cs == [] then 0
    else
      var t := Edited(text, e, cs[0]);
      (if t.None? then 1 else 0) + Refusals(if t.Some? then t.value else text, e, cs[1..])
  }

  /** A position names one offset. */
  lemma NamesOne(text: string, e: Encoding, pos: LineCol, offset: nat)
    requires Names(text, e, pos, offset)
    ensures offset == Offset(text, Utf8, Named(text, e, pos))
  {
    LinesTile(text, 0, 0);
    if pos.line < |Lines(text)| {
      var (s, t) := Lines(text)[pos.line];
      var j :| 0 <= j <= |text| && offset == Offset(text, Utf8, j) && Greatest(text, e, s, t, pos.col, j);
      GreatestUnique(text, e, s, t, pos.col, j, Named(text, e, pos));
    }
  }

  // ----- Documents -----

  method Open(text: string, version: int) returns (d: Document)
    ensures Fresh(d) && d.text == text && d.version == version
  {
    var index := New(text);
    d := Document(text, version, index, None, None);
  }

  /** One edit. A refused one leaves the document as it was. */
  method Apply(d: Document, e: Encoding, c: Change) returns (r: Option<Document>)
    requires Fresh(d)
    ensures r.Some? == Edited(d.text, e, c).Some?
    ensures r.Some? ==> Fresh(r.value) && r.value.text == Edited(d.text, e, c).value && r.value.version == d.version
  {
    var text;
    match c {
      case Whole(t) => text := t;
      case Partial(start, end, t) =>
        var from := OffsetIn(d.index, d.text, start, e);
        var upto := OffsetIn(d.index, d.text, end, e);
        NamesOne(d.text, e, start, from);
        NamesOne(d.text, e, end, upto);
        ghost var i, j := Named(d.text, e, start), Named(d.text, e, end);
        if i <= j { Grows(d.text, Utf8, i, j); } else { Grows(d.text, Utf8, j, i); }
        if from > upto {
          return None;
        }
        BoundaryOf(d.text, i);
        BoundaryOf(d.text, j);
        text := d.text[..CharsTo(d.text, from)] + t + d.text[CharsTo(d.text, upto)..];
    }
    var index := New(text);
    r := Some(Document(text, d.version, index, None, None));
  }

  /** The edits of one change, in order. */
  method ApplyAll(d: Document, e: Encoding, cs: seq<Change>) returns (r: Document, refused: nat)
    requires Fresh(d)
    ensures Fresh(r) && r.text == EditedAll(d.text, e, cs) && r.version == d.version
            && refused == Refusals(d.text, e, cs)
  {
    r, refused := d, 0;
    for k := 0 to |cs|
      invariant Fresh(r) && r.version == d.version && EditedAll(r.text, e, cs[k..]) == EditedAll(d.text, e, cs)
      invariant refused + Refusals(r.text, e, cs[k..]) == Refusals(d.text, e, cs)
    {
      var next := Apply(r, e, cs[k]);
      assert cs[k..][0] == cs[k] && cs[k..][1..] == cs[k + 1..];
      if next.Some? { r := next.value; } else { refused := refused + 1; }
    }
  }

  /** The parse of the current text, kept from the first time it is asked for. */
  method Parse(d: Document) returns (r: Document, of: string)
    requires Fresh(d)
    ensures Fresh(r) && of == d.text && r.text == d.text && r.version == d.version
  {
    r := if d.parsed.None? then d.(parsed := Some(d.text)) else d;
    of := r.parsed.value;
  }

  method Lex(d: Document) returns (r: Document, of: string)
    requires Fresh(d)
    ensures Fresh(r) && of == d.text && r.text == d.text && r.version == d.version
  {
    r := if d.lexed.None? then d.(lexed := Some(d.text)) else d;
    of := r.lexed.value;
  }
}
