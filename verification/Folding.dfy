/** What the language server reads off a laid-out stream: bracket pairs, and the tokens in a span. */
module Folding {
  import opened Options
  import opened LayoutMachine
  import opened LayoutNesting
  import opened LayoutOrder
  import L = LineIndex

  lemma {:induction false} PrefixNests(ts: seq<Lexeme>, i: nat)
    requires i <= |ts| && Nesting(ts, OUTSIDE).Some?
    ensures Nesting(ts[..i], OUTSIDE).Some?
  {
    if i == |ts| {
      assert ts[..i] == ts;
    } else {
      assert Front(ts)[..i] == ts[..i];
      PrefixNests(Front(ts), i);
    }
  }

  /** The open brackets before `i`, innermost last, by position. */
  ghost predicate Stacked(ts: seq<Lexeme>, open: seq<nat>, i: nat, kinds: seq<Bracket>) {
    && |open| == |kinds| && i <= |ts|
    && (forall j :: 0 <= j < |open| ==> open[j] < i && ts[open[j]].tok == Open(kinds[j]))
    && (forall j, k :: 0 <= j < k < |open| ==> open[j] != open[k])
  }

  /** `pairs` holds every close bracket before `i`, each with an open bracket of its kind, and no
      bracket twice. */
  ghost predicate Paired(ts: seq<Lexeme>, pairs: seq<(nat, nat)>, i: nat) {
    && i <= |ts|
    && (forall p :: p in pairs ==> p.0 < p.1 < i && ts[p.0].tok.Open? && ts[p.1].tok == Close(ts[p.0].tok.b))
    && (forall c :: 0 <= c < i && ts[c].tok.Close? ==> exists p :: p in pairs && p.1 == c)
    && (forall j, k :: 0 <= j < k < |pairs| ==> pairs[j].0 != pairs[k].0 && pairs[j].1 != pairs[k].1)
  }

  ghost predicate Apart(pairs: seq<(nat, nat)>, open: seq<nat>) {
    forall p :: p in pairs ==> p.0 !in open
  }

  lemma PairClosed(ts: seq<Lexeme>, pairs: seq<(nat, nat)>, open: seq<nat>, i: nat)
    requires i < |ts| && Paired(ts, pairs, i) && Apart(pairs, open) && open != [] && ts[i].tok.Close?
    requires Last(open) < i && ts[Last(open)].tok == Open(ts[i].tok.b) && forall j,
             k :: 0 <= j < k < |open| ==> open[j] != open[k]
    ensures Paired(ts, pairs + [(Last(open), i)], i + 1) && Apart(pairs + [(Last(open), i)], Front(open))
  {
    var p := (Last(open), i);
    var r := pairs + [p];
    assert p == r[|pairs|];
    forall c | 0 <= c < i + 1 && ts[c].tok.Close?
      ensures exists q :: q in r && q.1 == c
    {
      if c < i {
        var q :| q in pairs && q.1 == c;
        assert q in r;
      } else {
        assert p in r;
      }
    }
    forall j, k | 0 <= j < k < |r|
      ensures r[j].0 != r[k].0 && r[j].1 != r[k].1
    {
      assert r[j] in pairs;
    }
  }

  lemma PairSkipped(ts: seq<Lexeme>, pairs: seq<(nat, nat)>, i: nat)
    requires i < |ts| && Paired(ts, pairs, i) && !ts[i].tok.Close?
    ensures Paired(ts, pairs, i + 1)
  {
  }

  /** How a token changes the stack. */
  lemma StackStep(ts: seq<Lexeme>, open: seq<nat>, i: nat)
    requires i < |ts| && Nesting(ts, OUTSIDE).Some? && Nesting(ts[..i], OUTSIDE).Some?
    requires Stacked(ts, open, i, Nesting(ts[..i], OUTSIDE).value.brackets)
    ensures Nesting(ts[..i + 1], OUTSIDE).Some?
    ensures var kinds := Nesting(ts[..i + 1], OUTSIDE).value.brackets;
            if ts[i].tok.Open? then Stacked(ts, open + [i], i + 1, kinds)
            else if ts[i].tok.Close? then open != [] && ts[Last(open)].tok == Open(ts[i].tok.b)
                && Stacked(ts, Front(open), i + 1, kinds)
            else Stacked(ts, open, i + 1, kinds)
  {
    hide Nesting, Stacked, Enter;
    PrefixNests(ts, i + 1);
    assert ts[..i + 1] == ts[..i] + [ts[i]];
    NestOne(ts[..i], ts[i], OUTSIDE);
    hide Nesting, Stacked, Enter;
    EnterStack(ts, open, i, Nesting(ts[..i], OUTSIDE).value, Nesting(ts[..i + 1], OUTSIDE).value);
  }

  lemma EnterStack(ts: seq<Lexeme>, open: seq<nat>, i: nat, n: Nest, m: Nest)
    requires i < |ts| && Stacked(ts, open, i, n.brackets) && Enter(ts[i].tok, n) == Some(m)
    ensures if ts[i].tok.Open? then Stacked(ts, open + [i], i + 1, m.brackets)
            else if ts[i].tok.Close? then open != [] && ts[Last(open)].tok == Open(ts[i].tok.b)
                && Stacked(ts, Front(open), i + 1, m.brackets)
            else Stacked(ts, open, i + 1, m.brackets)
  {
  }

  /** Pairs every close bracket with its open bracket. The stream is well nested, so the stack is
      never empty at a close bracket, and what it holds on top is of that kind. */
  method BracketPairs(ts: seq<Lexeme>) returns (pairs: seq<(nat, nat)>)
    requires WellNested(ts)
    ensures Paired(ts, pairs, |ts|)
    ensures forall o :: 0 <= o < |ts| && ts[o].tok.Open? ==> exists p :: p in pairs && p.0 == o
  {
    hide Nesting, Paired, Apart, Covered;
    pairs := [];
    var open: seq<nat> := [];
    NothingPaired(ts);
    for i := 0 to |ts|
      invariant Nesting(ts[..i], OUTSIDE).Some? && Stacked(ts, open, i, Nesting(ts[..i], OUTSIDE).value.brackets)
      invariant Paired(ts, pairs, i) && Apart(pairs, open)
      invariant Covered(ts, pairs, open, i)
    {
      StackStep(ts, open, i);
      if ts[i].tok.Open? {
        PairSkipped(ts, pairs, i);
        PushApart(ts, pairs, open, i);
        CoverStep(ts, pairs, open, i);
        open := open + [i];
      } else if ts[i].tok.Close? {
        PairClosed(ts, pairs, open, i);
        CoverStep(ts, pairs, open, i);
        pairs := pairs + [(open[|open| - 1], i)];
        open := open[..|open| - 1];
      } else {
        PairSkipped(ts, pairs, i);
        CoverStep(ts, pairs, open, i);
      }
    }
    assert ts[..|ts|] == ts;
    AllCovered(ts, pairs);
  }

  /** Every open bracket before `i` is paired or open still. */
  ghost predicate Covered(ts: seq<Lexeme>, pairs: seq<(nat, nat)>, open: seq<nat>, i: nat) {
    i <= |ts| && forall o :: 0 <= o < i && ts[o].tok.Open? ==> o in open || exists p :: p in pairs && p.0 == o
  }

  lemma AllCovered(ts: seq<Lexeme>, pairs: seq<(nat, nat)>)
    requires Covered(ts, pairs, [], |ts|)
    ensures forall o :: 0 <= o < |ts| && ts[o].tok.Open? ==> exists p :: p in pairs && p.0 == o
  {
  }

  lemma CoverStep(ts: seq<Lexeme>, pairs: seq<(nat, nat)>, open: seq<nat>, i: nat)
    requires i < |ts| && Covered(ts, pairs, open, i)
    ensures ts[i].tok.Open? ==> Covered(ts, pairs, open + [i], i + 1)
    ensures !ts[i].tok.Open? ==> Covered(ts, pairs, open, i + 1)
    ensures ts[i].tok.Close? && open != [] ==> Covered(ts, pairs + [(Last(open), i)], Front(open), i + 1)
  {
    if ts[i].tok.Close? && open != [] {
      var r := pairs + [(Last(open), i)];
      assert r[|pairs|] == (Last(open), i);
      assert forall p :: p in pairs ==> p in r;
      assert open == Front(open) + [Last(open)];
      forall o | 0 <= o < i + 1 && ts[o].tok.Open?
        ensures o in Front(open) || exists p :: p in r && p.0 == o
      {
        if o !in open {
          var p :| p in pairs && p.0 == o;
          assert p in r;
        }
      }
    }
  }

  lemma NothingPaired(ts: seq<Lexeme>)
    ensures Paired(ts, [], 0) && Apart([], []) && Covered(ts, [], [], 0) && ts[..0] == []
            && Nesting([], OUTSIDE) == Some(OUTSIDE)
  {
  }

  lemma PushApart(ts: seq<Lexeme>, pairs: seq<(nat, nat)>, open: seq<nat>, i: nat)
    requires Paired(ts, pairs, i) && Apart(pairs, open)
    ensures Apart(pairs, open + [i])
  {
  }

  /** The last token that starts within `span` and is not layout, by a binary search for the end of
      the span and a scan back to its start. */
  method LastWithin(ts: seq<Lexeme>, span: Span) returns (r: Option<nat>)
    requires Ascending(ts)
    ensures r.Some? ==> r.value < |ts| && Within(ts[r.value], span) && forall i :: r.value < i < |ts| ==>
            !Within(ts[i], span)
    ensures r.None? ==> forall i :: 0 <= i < |ts| ==> !Within(ts[i], span)
  {
    var past := StartsBefore(ts, span.end);
    var i := past;
    while i > 0 && ts[i - 1].span.start >= span.start
      invariant 0 <= i <= past && forall j :: i <= j < |ts| ==> !Within(ts[j], span)
    {
      i := i - 1;
      if IsSource(ts[i]) {
        return Some(i);
      }
    }
    return None;
  }

  /** A token of the source text rather than of the layout around it. */
  predicate IsSource(t: Lexeme) {
    !t.tok.Newline? && !IsLayout(t.tok)
  }

  predicate Within(t: Lexeme, span: Span) {
    span.start <= t.span.start < span.end && IsSource(t)
  }

  /** The last token of the header of a body that starts at `start`: a binary search, then a scan
      back over the layout before the body. */
  method HeaderEnd(ts: seq<Lexeme>, start: nat) returns (r: Option<nat>)
    requires Ascending(ts)
    ensures r.Some? ==> r.value < |ts| && IsSource(ts[r.value]) && ts[r.value].span.start < start
    ensures forall i :: 0 <= i < |ts| && IsSource(ts[i]) && ts[i].span.start < start ==> r.Some? && i <= r.value
  {
    var i := StartsBefore(ts, start);
    while i > 0
      invariant 0 <= i <= |ts| && forall j :: 0 <= j < i ==> ts[j].span.start < start
      invariant forall j :: i <= j < |ts| && IsSource(ts[j]) ==> ts[j].span.start >= start
    {
      i := i - 1;
      if IsSource(ts[i]) {
        return Some(i);
      }
    }
    return None;
  }

  /** The first line break of a statement that starts at `start`: a binary search, then a scan on. */
  method FirstBreak(ts: seq<Lexeme>, start: nat) returns (r: Option<nat>)
    requires Ascending(ts)
    ensures r.Some? ==> r.value < |ts| && ts[r.value].tok.Newline? && ts[r.value].span.start >= start
    ensures forall i :: 0 <= i < |ts| && ts[i].tok.Newline? && ts[i].span.start >= start ==> r.Some? && r.value <= i
  {
    var from := StartsBefore(ts, start);
    for i := from to |ts|
      invariant forall j :: 0 <= j < i && ts[j].tok.Newline? ==> ts[j].span.start < start
    {
      if ts[i].tok.Newline? {
        return Some(i);
      }
    }
    return None;
  }

  // ----- The end of a span's source -----

  ghost predicate IsLast(ts: seq<Lexeme>, span: Span, k: nat) {
    k < |ts| && Within(ts[k], span) && forall i :: k < i < |ts| ==> !Within(ts[i], span)
  }

  /** The line at `n` holds the position `p`. */
  ghost predicate HoldsLine(lines: seq<(nat, nat)>, n: nat, p: nat) {
    n < |lines| && lines[n].0 <= p && forall m :: n < m < |lines| ==> p < lines[m].0
  }

  /** From `from`, source runs to `end`, and only spaces from there to a comment or to `stop`. */
  ghost predicate SourceTo(source: string, space: char -> bool, from: nat, stop: nat, end: nat) {
    exists c: nat :: IsCut(source, from, stop, c) && IsTrimmed(source, space, from, c, end)
  }

  /** The text from `from` up to a comment or to `stop` ends at `c`. */
  ghost predicate IsCut(source: string, from: nat, stop: nat, c: nat) {
    && from <= c <= stop <= |source| && (c == stop || source[c] == '#')
    && forall i :: from <= i < c ==> source[i] != '#'
  }

  ghost predicate IsTrimmed(source: string, space: char -> bool, from: nat, c: nat, end: nat) {
    && from <= end <= c <= |source| && (end == from || !space(source[end - 1]))
    && forall i :: end <= i < c ==> space(source[i])
  }

  /** Where the rest of a line's source is cut off: by the line's end, or by the span's. */
  function Stop(lineEnd: nat, spanEnd: nat, from: nat): nat {
    var stop := if lineEnd < spanEnd then lineEnd else spanEnd;
    if stop < from then from else stop
  }

  method FindLine(lines: seq<(nat, nat)>, p: nat) returns (n: nat)
    requires lines != [] && lines[0].0 == 0
    ensures HoldsLine(lines, n, p)
  {
    n := |lines| - 1;
    while lines[n].0 > p
      invariant n < |lines| && forall m :: n < m < |lines| ==> p < lines[m].0
      decreases n
    {
      n := n - 1;
    }
  }

  /** The end of a span's source: that of its last token, extended over the rest of the token's line
      up to a comment, without the spaces before it. */
  method ContentEnd(source: string, space: char -> bool, ts: seq<Lexeme>, span: Span) returns (end: nat)
    requires Ascending(ts) && forall i :: 0 <= i < |ts| ==> ts[i].span.end <= |source|
    ensures (forall k: nat :: !IsLast(ts, span, k)) ==> end == span.start
    ensures forall k: nat :: IsLast(ts, span, k) ==>
              exists n: nat :: HoldsLine(L.Lines(source), n, ts[k].span.end)
                          && SourceTo(source, space, ts[k].span.end,
                              Stop(L.Lines(source)[n].1, span.end, ts[k].span.end), end)
  {
    var k := LastWithin(ts, span);
    if k.None? {
      return span.start;
    }
    assert IsLast(ts, span, k.value);
    assert forall j: nat :: IsLast(ts, span, j) ==> j == k.value;
    var from, lines := ts[k.value].span.end, L.Lines(source);
    L.LinesTile(source, 0, 0);
    var n := FindLine(lines, from);
    var stop := Stop(lines[n].1, span.end, from);
    var c := from;
    while c < stop && source[c] != '#'
      invariant from <= c <= stop && forall i :: from <= i < c ==> source[i] != '#'
    {
      c := c + 1;
    }
    end := c;
    while end > from && space(source[end - 1])
      invariant from <= end <= c && forall i :: end <= i < c ==> space(source[i])
    {
      end := end - 1;
    }
    assert IsCut(source, from, stop, c) && IsTrimmed(source, space, from, c, end);
  }

  /** There is one such end. */
  lemma SourceToOnce(source: string, space: char -> bool, from: nat, stop: nat, a: nat, b: nat)
    requires SourceTo(source, space, from, stop, a) && SourceTo(source, space, from, stop, b)
    ensures a == b
  {
    var c: nat :| IsCut(source, from, stop, c) && IsTrimmed(source, space, from, c, a);
    var d: nat :| IsCut(source, from, stop, d) && IsTrimmed(source, space, from, d, b);
    assert c == d;
  }
}
