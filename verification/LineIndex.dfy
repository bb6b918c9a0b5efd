/** Byte offsets and line/column positions, in UTF-8 and UTF-16 columns. Line ends and columns
    follow the "Text Documents" and "Position" sections of the Language Server Protocol 3.17. */
module LineIndex {

  datatype Encoding = Utf8 | Utf16

  datatype LineCol = LineCol(line: nat, col: nat)

  datatype Index = Index(starts: seq<nat>, ends: seq<nat>, ascii: bool)

  // ----- Characters and offsets -----

  /** The code units of a character. */
  function Width(c: char, e: Encoding): (n: nat)
    ensures 1 <= n <= 4
  {
    var code := c as int;
    match e
    case Utf8 => if code < 0x80 then 1 else if code < 0x800 then 2 else if code < 0x1_0000 then 3 else 4
    case Utf16 => if code < 0x1_0000 then 1 else 2
  }

  /** The code point that code units stand for: UTF-8 by the bits of its lead and continuation bytes,
      UTF-16 by itself or as a surrogate pair. */
  function Decoded(us: seq<nat>, e: Encoding): int {
    match e
    case Utf8 =>
      if |us| == 1 && us[0] < 0x80 then us[0]
      else if |us| == 2 && Lead(us[0], 0xC0, 0x20) && Trail(us[1]) then (us[0] - 0xC0) * 0x40 + us[1] - 0x80
      else if |us| == 3 && Lead(us[0], 0xE0, 0x10) && Trail(us[1]) && Trail(us[2]) then
        ((us[0] - 0xE0) * 0x40 + us[1] - 0x80) * 0x40 + us[2] - 0x80
      else if |us| == 4 && Lead(us[0], 0xF0, 0x08) && Trail(us[1]) && Trail(us[2]) && Trail(us[3]) then
        (((us[0] - 0xF0) * 0x40 + us[1] - 0x80) * 0x40 + us[2] - 0x80) * 0x40 + us[3] - 0x80
      else -1
    case Utf16 =>
      if |us| == 1 && us[0] < 0x1_0000 && !Lead(us[0], 0xD800, 0x800) then us[0]
      else if |us| == 2 && Lead(us[0], 0xD800, 0x400) && Lead(us[1], 0xDC00, 0x400) then
        0x1_0000 + (us[0] - 0xD800) * 0x400 + us[1] - 0xDC00
      else -1
  }

  predicate Lead(u: nat, base: nat, room: nat) {
    base <= u < base + room
  }

  predicate Trail(u: nat) {
    0x80 <= u < 0xC0
  }

  /** The shortest code units of a character. */
  function Encoded(c: char, e: Encoding): seq<nat> {
    var n := c as int;
    match e
    case Utf8 =>
      if n < 0x80 then [n]
      else if n < 0x800 then [0xC0 + n / 0x40, 0x80 + n % 0x40]
      else if n < 0x1_0000 then [0xE0 + n / 0x1000, 0x80 + n / 0x40 % 0x40, 0x80 + n % 0x40]
      else [0xF0 + n / 0x4_0000, 0x80 + n / 0x1000 % 0x40, 0x80 + n / 0x40 % 0x40, 0x80 + n % 0x40]
    case Utf16 =>
      if n < 0x1_0000 then [n] else [0xD800 + (n - 0x1_0000) / 0x400, 0xDC00 + (n - 0x1_0000) % 0x400]
  }

  lemma EncodedBytes(n: nat)
    ensures n < 0x1_0000 ==> n == (n / 0x1000 * 0x40 + n / 0x40 % 0x40) * 0x40 + n % 0x40
    ensures n == ((n / 0x4_0000 * 0x40 + n / 0x1000 % 0x40) * 0x40 + n / 0x40 % 0x40) * 0x40 + n % 0x40
  {
    var q := n / 0x40;
    assert n == q * 0x40 + n % 0x40 && q == q / 0x40 * 0x40 + q % 0x40;
    assert q / 0x40 == n / 0x1000 && q / 0x40 / 0x40 == n / 0x4_0000;
    assert n / 0x1000 == n / 0x4_0000 * 0x40 + n / 0x1000 % 0x40;
  }

  lemma BytesDecoded(us: seq<nat>)
    ensures var n := Decoded(us, Utf8);
            n < 0 || (|us| == 1 && n < 0x80) || (|us| == 2 && n < 0x800) || (|us| == 3 && n < 0x1_0000) || |us| == 4
  {}

  /** A character's width is the number of code units it takes: that many stand for it, and no fewer
      do. */
  lemma WidthExact(c: char, e: Encoding, us: seq<nat>)
    ensures |Encoded(c, e)| == Width(c, e) && Decoded(Encoded(c, e), e) == c as int
    ensures Decoded(us, e) == c as int ==> Width(c, e) <= |us|
  {
    var n := c as int;
    match e
    case Utf8 =>
      EncodedBytes(n);
      BytesDecoded(us);
    case Utf16 =>
  }

  /** The width of the first `i` characters. */
  function Offset(text: string, e: Encoding, i: nat): nat
    requires i <= |text|
  {
    if i == 0 then 0 else Offset(text, e, i - 1) + Width(text[i - 1], e)
  }

  function Bytes(text: string): nat {
    Offset(text, Utf8, |text|)
  }

  predicate IsAscii(text: string) {
    forall i :: 0 <= i < |text| ==> text[i] as int < 0x80
  }

  /** The last character boundary at or before a byte offset, as a number of characters. */
  function CharsTo(text: string, offset: nat): (i: nat)
    ensures i <= |text| && Offset(text, Utf8, i) <= offset && (i < |text| ==> offset < Offset(text, Utf8, i + 1))
  {
    CharsFrom(text, offset, 0)
  }

  function CharsFrom(text: string, offset: nat, i: nat): (r: nat)
    requires i <= |text| && Offset(text, Utf8, i) <= offset
    ensures r <= |text| && Offset(text, Utf8, r) <= offset && (r < |text| ==> offset < Offset(text, Utf8, r + 1))
    decreases |text| - i
  {
    if i < |text| && Offset(text, Utf8, i + 1) <= offset then CharsFrom(text, offset, i + 1) else i
  }

  predicate IsBoundary(text: string, offset: nat) {
    Offset(text, Utf8, CharsTo(text, offset)) == offset
  }

  lemma {:induction false} Grows(text: string, e: Encoding, i: nat, j: nat)
    requires i <= j <= |text|
    ensures Offset(text, e, i) + (j - i) <= Offset(text, e, j)
    decreases j
  {
    if i < j { Grows(text, e, i, j - 1); }
  }

  /** Each boundary is that of its own number of characters. */
  lemma BoundaryOf(text: string, i: nat)
    requires i <= |text|
    ensures CharsTo(text, Offset(text, Utf8, i)) == i && IsBoundary(text, Offset(text, Utf8, i))
  {
    var r := CharsTo(text, Offset(text, Utf8, i));
    if r < i { Grows(text, Utf8, r + 1, i); }
    if i < r { Grows(text, Utf8, i, r); }
  }

  lemma {:induction false} AsciiSame(text: string, i: nat)
    requires i <= |text| && IsAscii(text)
    ensures Offset(text, Utf16, i) == Offset(text, Utf8, i) == i
  {
    if i > 0 { AsciiSame(text, i - 1); }
  }

  // ----- Lines -----

  /** The length of the line terminator at `i`, or 0. */
  function Terminator(text: string, i: nat): nat
    requires i < |text|
  {
    if text[i] == '\n' then 1
    else if text[i] == '\r' then (if i + 1 < |text| && text[i + 1] == '\n' then 2 else 1)
    else 0
  }

  /** The lines from `start`, read up to `i`: where each starts and where its content ends. */
  function LinesFrom(text: string, start: nat, i: nat): seq<(nat, nat)>
    requires start <= i <= |text|
    decreases |text| - i
  {
    if i == |text| then [(start, i)]
    else if Terminator(text, i) > 0 then
      var next := i + Terminator(text, i);
      [(start, i)] + LinesFrom(text, next, next)
    else LinesFrom(text, start, i + 1)
  }

  function Lines(text: string): seq<(nat, nat)> {
    LinesFrom(text, 0, 0)
  }

  /** The lines tile the text from `start` on: none holds a terminator, and one separates each from
      the next. */
  ghost predicate Tile(text: string, start: nat, ls: seq<(nat, nat)>) {
    && ls != [] && ls[0].0 == start && ls[|ls| - 1].1 == |text|
    && (forall k :: 0 <= k < |ls| ==> ls[k].0 <= ls[k].1 <= |text|)
    && (forall k, j :: 0 <= k < |ls| && ls[k].0 <= j < ls[k].1 ==> Terminator(text, j) == 0)
    && (forall k :: 0 <= k < |ls| - 1 ==>
          ls[k].1 < |text| && Terminator(text, ls[k].1) > 0 && ls[k + 1].0 == ls[k].1 + Terminator(text, ls[k].1))
  }

  lemma TileMore(text: string, start: nat, i: nat, rest: seq<(nat, nat)>)
    requires start <= i < |text| && Terminator(text, i) > 0 && Tile(text, i + Terminator(text, i), rest)
    requires forall j :: start <= j < i ==> Terminator(text, j) == 0
    ensures Tile(text, start, [(start, i)] + rest)
  {
    hide Terminator;
    var ls := [(start, i)] + rest;
    assert forall k :: 0 < k < |ls| ==> ls[k] == rest[k - 1];
  }

  lemma {:induction false} LinesTile(text: string, start: nat, i: nat)
    requires start <= i <= |text| && forall j :: start <= j < i ==> Terminator(text, j) == 0
    ensures Tile(text, start, LinesFrom(text, start, i))
    decreases |text| - i
  {
    if i < |text| {
      if Terminator(text, i) > 0 {
        var next := i + Terminator(text, i);
        LinesTile(text, next, next);
        var rest := LinesFrom(text, next, next);
        TileMore(text, start, i, rest);
      } else {
        LinesTile(text, start, i + 1);
      }
    }
  }

  /** The index holds the text's lines as byte offsets. */
  ghost predicate Indexes(index: Index, text: string) {
    var ls := Lines(text);
    && |index.starts| == |index.ends| == |ls| && index.ascii == IsAscii(text)
    && (forall k :: 0 <= k < |ls| ==> ls[k].0 <= |text| && ls[k].1 <= |text|)
    && forall k :: 0 <= k < |ls| ==> index.starts[k] == Offset(text, Utf8, ls[k].0) && index.ends[k] == Offset(text,
        Utf8, ls[k].1)
  }

  /** `starts` and `ends` hold the first `|done|` lines, and the start of the one under way. */
  ghost predicate Built(text: string, starts: seq<nat>, ends: seq<nat>, done: seq<(nat, nat)>, start: nat) {
    && start <= |text| && |starts| == |done| + 1 && |ends| == |done| && starts[|done|] == Offset(text, Utf8, start)
    && (forall k :: 0 <= k < |done| ==> done[k].0 <= |text| && done[k].1 <= |text|)
    && forall k :: 0 <= k < |done| ==> starts[k] == Offset(text, Utf8, done[k].0) && ends[k] == Offset(text, Utf8,
        done[k].1)
  }

  lemma BuiltLine(text: string, starts: seq<nat>, ends: seq<nat>, done: seq<(nat, nat)>, start: nat, i: nat)
    requires i < |text| && Built(text, starts, ends, done, start) && Terminator(text, i) > 0
    ensures var n, at := Terminator(text, i), Offset(text, Utf8, i);
            Offset(text, Utf8, i + n) == at + n && Built(text, starts + [at + n], ends + [at], done + [(start, i)],
                i + n)
  {
    assert Offset(text, Utf8, i + 1) == Offset(text, Utf8, i) + 1;
  }

  /** One step of the reading of lines, `done` being those before `start`. */
  lemma LinesStep(text: string, done: seq<(nat, nat)>, start: nat, i: nat)
    requires start <= i < |text| && Lines(text) == done + LinesFrom(text, start, i)
    ensures var n := Terminator(text, i);
            if n > 0 then i + n <= |text| && Lines(text) == (done + [(start, i)]) + LinesFrom(text, i + n, i + n)
            else Lines(text) == done + LinesFrom(text, start, i + 1)
  {
    var n := Terminator(text, i);
    if n > 0 {
      assert done + ([(start, i)] + LinesFrom(text, i + n, i + n)) == (done + [(start, i)])
          + LinesFrom(text, i + n, i + n);
    }
  }

  lemma BuiltAll(text: string, starts: seq<nat>, ends: seq<nat>, done: seq<(nat, nat)>, start: nat)
    requires Built(text, starts, ends, done, start) && Lines(text) == done + LinesFrom(text, start, |text|)
    ensures Indexes(Index(starts, ends + [Bytes(text)], IsAscii(text)), text)
  {
    var ls := done + [(start, |text|)];
    assert Lines(text) == ls;
    assert forall k :: 0 <= k < |done| ==> ls[k] == done[k];
  }

  method New(text: string) returns (index: Index)
    ensures Indexes(index, text)
  {
    hide Built, Indexes, LinesFrom, Lines;
    var starts: seq<nat>, ends: seq<nat> := [0], [];
    var i, at := 0, 0;
    ghost var done: seq<(nat, nat)>, start := [], 0;
    NothingBuilt(text);
    while i < |text|
      invariant 0 <= start <= i <= |text| && at == Offset(text, Utf8, i)
      invariant Lines(text) == done + LinesFrom(text, start, i)
      invariant Built(text, starts, ends, done, start)
    {
      var n := Terminator(text, i);
      LinesStep(text, done, start, i);
      if n > 0 {
        BuiltLine(text, starts, ends, done, start, i);
        ends := ends + [at];
        starts := starts + [at + n];
        done := done + [(start, i)];
        start := i + n;
        at, i := at + n, i + n;
      } else {
        at, i := at + Width(text[i], Utf8), i + 1;
      }
    }
    BuiltAll(text, starts, ends, done, start);
    index := Index(starts, ends + [at], IsAscii(text));
  }

  lemma NothingBuilt(text: string)
    ensures Built(text, [0], [], [], 0) && Lines(text) == [] + LinesFrom(text, 0, 0)
  {
  }

  // ----- Positions -----

  /** The line that holds the byte offset. */
  ghost predicate OnLine(index: Index, offset: nat, line: nat) {
    line < |index.starts| && index.starts[line] <= offset
        && (line + 1 < |index.starts| ==> offset < index.starts[line + 1])
  }

  lemma StartsRise(index: Index, text: string, j: nat, k: nat)
    requires Indexes(index, text) && j < k < |index.starts|
    ensures index.starts[j] < index.starts[k]
    decreases k
  {
    LinesTile(text, 0, 0);
    var ls := Lines(text);
    if j + 1 < k { StartsRise(index, text, j, k - 1); }
    Grows(text, Utf8, ls[k - 1].0, ls[k].0);
  }

  /** The line and byte column of an offset; one inside a terminator is at the end of the content. */
  method LineColOf(index: Index, ghost text: string, offset: nat) returns (r: LineCol)
    requires Indexes(index, text) && offset <= Bytes(text)
    ensures OnLine(index, offset, r.line) && r.line < |index.ends|
    ensures r.col == (if offset < index.ends[r.line] then offset else index.ends[r.line]) - index.starts[r.line]
  {
    LinesTile(text, 0, 0);
    var lo, hi := 1, |index.starts|;
    while lo < hi
      invariant 1 <= lo <= hi <= |index.starts|
      invariant forall k :: 0 <= k < lo ==> index.starts[k] <= offset
      invariant forall k :: hi <= k < |index.starts| ==> index.starts[k] > offset
    {
      var mid := (lo + hi) / 2;
      forall k | 0 <= k < mid
        ensures index.starts[k] < index.starts[mid]
      {
        StartsRise(index, text, k, mid);
      }
      forall k | mid < k < |index.starts|
        ensures index.starts[mid] < index.starts[k]
      {
        StartsRise(index, text, mid, k);
      }
      if index.starts[mid] <= offset { lo := mid + 1; } else { hi := mid; }
    }
    var line := lo - 1;
    ContentFits(index, text, line);
    r := LineCol(line, (if offset < index.ends[line] then offset else index.ends[line]) - index.starts[line]);
  }

  lemma ContentFits(index: Index, text: string, line: nat)
    requires Indexes(index, text) && line < |index.starts|
    ensures var (s, t) := Lines(text)[line];
            s <= t <= |text| && index.starts[line] <= index.ends[line] <= Bytes(text)
  {
    LinesTile(text, 0, 0);
    var (s, t) := Lines(text)[line];
    Grows(text, Utf8, s, t);
    Grows(text, Utf8, t, |text|);
  }

  /** The `i`th boundary at its line and column, in either encoding. */
  method LineColIn(index: Index, text: string, offset: nat, e: Encoding) returns (r: LineCol)
    requires Indexes(index, text) && offset <= Bytes(text) && IsBoundary(text, offset)
    ensures OnLine(index, offset, r.line) && r.line < |Lines(text)|
    ensures var (s, t) := Lines(text)[r.line];
            var i := CharsTo(text, offset);
            s <= i && s <= t <= |text| && r.col == Offset(text, e, if i < t then i else t) - Offset(text, e, s)
  {
    r := LineColOf(index, text, offset);
    ghost var (s, t) := Lines(text)[r.line];
    var i := CharsTo(text, offset);
    ContentFits(index, text, r.line);
    OnLineChars(index, text, i, r.line);
    if e.Utf16? {
      if index.ascii {
        AsciiSame(text, s);
        AsciiSame(text, if i < t then i else t);
      } else {
        var first, last := CharsTo(text, index.starts[r.line]), CharsTo(text, index.starts[r.line] + r.col);
        BoundaryOf(text, s);
        BoundaryOf(text, if i < t then i else t);
        r := LineCol(r.line, Units(text, first, last));
      }
    }
  }

  /** Comparing byte offsets compares characters. */
  lemma OnLineChars(index: Index, text: string, i: nat, line: nat)
    requires Indexes(index, text) && i <= |text| && OnLine(index, Offset(text, Utf8, i), line)
    ensures var (s, t) := Lines(text)[line];
            && s <= i && s <= t <= |text|
            && (if Offset(text, Utf8, i) < index.ends[line] then i < t else t <= i)
            && (line + 1 < |Lines(text)| ==> i < Lines(text)[line + 1].0)
  {
    LinesTile(text, 0, 0);
    var (s, t) := Lines(text)[line];
    if i < s { Grows(text, Utf8, i, s); }
    if i < t { Grows(text, Utf8, i, t); } else { Grows(text, Utf8, t, i); }
    if line + 1 < |Lines(text)| {
      var next := Lines(text)[line + 1].0;
      if next <= i { Grows(text, Utf8, next, i); }
    }
  }

  /** The UTF-16 code units of the characters from `i` to `j`. */
  function Units(text: string, i: nat, j: nat): (n: nat)
    requires i <= j <= |text|
    ensures n == Offset(text, Utf16, j) - Offset(text, Utf16, i)
    decreases j
  {
    if i == j then 0 else Units(text, i, j - 1) + Width(text[j - 1], Utf16)
  }

  /** `j` is the last boundary of the line from `s` to `t` that is at most `col` wide. */
  ghost predicate Greatest(text: string, e: Encoding, s: nat, t: nat, col: nat, j: nat) {
    && s <= j <= t <= |text| && Offset(text, e, j) - Offset(text, e, s) <= col
    && (j < t ==> Offset(text, e, j + 1) - Offset(text, e, s) > col)
  }

  lemma GreatestUnique(text: string, e: Encoding, s: nat, t: nat, col: nat, j: nat, k: nat)
    requires Greatest(text, e, s, t, col, j) && Greatest(text, e, s, t, col, k)
    ensures j == k
  {
    if j < k { Grows(text, e, j + 1, k); }
    if k < j { Grows(text, e, k + 1, j); }
  }

  /** What a position names: the end of the text, or the last boundary of its line that is at most
      its column wide. */
  ghost predicate Names(text: string, e: Encoding, pos: LineCol, offset: nat) {
    if pos.line >= |Lines(text)| then offset == Bytes(text)
    else exists j :: 0 <= j <= |text| && offset == Offset(text, Utf8, j) && Greatest(text, e, Lines(text)[pos.line].0,
        Lines(text)[pos.line].1, pos.col, j)
  }

  method OffsetOf(index: Index, text: string, pos: LineCol) returns (offset: nat)
    requires Indexes(index, text)
    ensures Names(text, Utf8, pos, offset)
  {
    if pos.line >= |index.starts| {
      return Bytes(text);
    }
    ContentFits(index, text, pos.line);
    var start, end := index.starts[pos.line], index.ends[pos.line];
    var limit := start + if pos.col < end - start then pos.col else end - start;
    offset := limit;
    while !IsBoundary(text, offset)
      invariant CharsTo(text, limit) == CharsTo(text, offset) && offset <= limit
      decreases offset
    {
      SameChars(text, offset);
      offset := offset - 1;
    }
    LastBoundary(index, text, pos, CharsTo(text, limit));
  }

  /** Inside a character, the byte before is at the same last boundary. */
  lemma SameChars(text: string, offset: nat)
    requires !IsBoundary(text, offset)
    ensures offset > 0 && CharsTo(text, offset - 1) == CharsTo(text, offset)
  {
    var i := CharsTo(text, offset);
    var j := CharsTo(text, offset - 1);
    if j < i { Grows(text, Utf8, j + 1, i); }
    if i < j { Grows(text, Utf8, i + 1, j); }
  }

  lemma LastBoundary(index: Index, text: string, pos: LineCol, i: nat)
    requires Indexes(index, text) && pos.line < |index.starts| && index.starts[pos.line] <= index.ends[pos.line]
    requires i == CharsTo(text, index.starts[pos.line] + if pos.col < index.ends[pos.line] - index.starts[pos.line]
             then pos.col else index.ends[pos.line] - index.starts[pos.line])
    ensures Greatest(text, Utf8, Lines(text)[pos.line].0, Lines(text)[pos.line].1, pos.col, i)
  {
    ContentFits(index, text, pos.line);
    var (s, t) := Lines(text)[pos.line];
    if i < s { Grows(text, Utf8, i + 1, s); }
    if t < i { Grows(text, Utf8, t + 1, i); }
    if i < t { Grows(text, Utf8, i + 1, t); }
  }

  method OffsetIn(index: Index, text: string, pos: LineCol, e: Encoding) returns (offset: nat)
    requires Indexes(index, text)
    ensures Names(text, e, pos, offset)
  {
    if e.Utf8? || index.ascii {
      offset := OffsetOf(index, text, pos);
      if e.Utf16? { AsciiNames(text, pos, offset); }
    } else if pos.line >= |index.starts| {
      offset := Bytes(text);
    } else {
      ContentFits(index, text, pos.line);
      ghost var (s, t) := Lines(text)[pos.line];
      var i, end := CharsTo(text, index.starts[pos.line]), CharsTo(text, index.ends[pos.line]);
      BoundaryOf(text, s);
      BoundaryOf(text, t);
      var units := 0;
      while i < end
        invariant s <= i <= end == t && units == Offset(text, Utf16, i) - Offset(text, Utf16, s) <= pos.col
      {
        units := units + Width(text[i], Utf16);
        if pos.col < units {
          break;
        }
        i := i + 1;
      }
      offset := Offset(text, Utf8, i);
      assert Greatest(text, Utf16, s, t, pos.col, i);
    }
  }

  /** In an ASCII text the two encodings name the same offsets. */
  lemma AsciiNames(text: string, pos: LineCol, offset: nat)
    requires IsAscii(text)
    ensures Names(text, Utf8, pos, offset) == Names(text, Utf16, pos, offset)
  {
    LinesTile(text, 0, 0);
    forall j | 0 <= j <= |text|
      ensures Offset(text, Utf16, j) == Offset(text, Utf8, j)
    {
      AsciiSame(text, j);
    }
    if pos.line < |Lines(text)| {
      var (s, t) := Lines(text)[pos.line];
      assert forall j :: 0 <= j <= |text| ==> Greatest(text, Utf8, s, t, pos.col, j) == Greatest(text, Utf16, s, t,
          pos.col, j);
    }
  }

  /** No line starts between `\r` and `\n`. */
  lemma NoStartInside(text: string, line: nat, i: nat)
    requires line < |Lines(text)| && Lines(text)[line].0 == i && 0 < i < |text|
    ensures !(text[i - 1] == '\r' && text[i] == '\n')
  {
    LinesTile(text, 0, 0);
    var ls := Lines(text);
    if line > 0 { assert ls[line].0 == ls[line - 1].1 + Terminator(text, ls[line - 1].1); }
  }

  /** The position of a boundary names it again, except between `\r` and `\n`, where it names the end
      of the line's content. */
  lemma PositionNames(index: Index, text: string, e: Encoding, i: nat, line: nat, col: nat, offset: nat)
    requires Indexes(index, text) && i <= |text| && OnLine(index, Offset(text, Utf8, i), line)
    requires var (s, t) := Lines(text)[line];
             s <= t <= |text| && Offset(text, e, s) + col == Offset(text, e, if i < t then i else t)
    requires Names(text, e, LineCol(line, col), offset)
    ensures if 0 < i < |text| && text[i - 1] == '\r' && text[i] == '\n' then offset == Offset(text, Utf8, i - 1)
            else offset == Offset(text, Utf8, i)
  {
    OnLineChars(index, text, i, line);
    var (s, t) := Lines(text)[line];
    var end := if i < t then i else t;
    var j :| 0 <= j <= |text| && offset == Offset(text, Utf8, j) && Greatest(text, e, s, t, col, j);
    if end < t { Grows(text, e, end, end + 1); }
    GreatestUnique(text, e, s, t, col, j, end);
    InsideTerminator(text, line, i);
  }

  /** A boundary past its line's content and before the next line is between `\r` and `\n`. */
  lemma InsideTerminator(text: string, line: nat, i: nat)
    requires line < |Lines(text)| && Lines(text)[line].0 <= i <= |text|
             && (line + 1 < |Lines(text)| ==> i < Lines(text)[line + 1].0)
    ensures var t := Lines(text)[line].1;
            if 0 < i < |text| && text[i - 1] == '\r' && text[i] == '\n' then t == i - 1 else i <= t
  {
    LinesTile(text, 0, 0);
    var (s, t) := Lines(text)[line];
    if 0 < i < |text| && text[i - 1] == '\r' && text[i] == '\n' {
      if s == i { NoStartInside(text, line, i); }
      assert Terminator(text, i - 1) == 2;
    }
  }
}
