/** The strongly connected components of a graph, by Tarjan's algorithm over mutable tables, and
    the components that contain a cycle. */
module StrongComponents {
  import opened Options

  /** A graph as the list of each vertex's successors. */
  type Graph = seq<seq<nat>>

  ghost predicate WellFormed(g: Graph) {
    forall v, k :: 0 <= v < |g| && 0 <= k < |g[v]| ==> g[v][k] < |g|
  }

  ghost predicate Edge(g: Graph, u: nat, w: nat) {
    u < |g| && w in g[u]
  }

  ghost predicate IsPath(g: Graph, p: seq<nat>, u: nat, w: nat) {
    && |p| > 0 && p[0] == u && p[|p| - 1] == w
    && forall i :: 0 <= i < |p| - 1 ==> Edge(g, p[i], p[i + 1])
  }

  ghost predicate Reach(g: Graph, u: nat, w: nat) {
    exists p :: IsPath(g, p, u, w)
  }

  ghost predicate Mutual(g: Graph, u: nat, w: nat) {
    Reach(g, u, w) && Reach(g, w, u)
  }

  /** `v` lies on a cycle: some edge leaves it for a vertex that reaches it. */
  ghost predicate OnCycle(g: Graph, v: nat) {
    exists w :: Edge(g, v, w) && Reach(g, w, v)
  }

  lemma Itself(g: Graph, v: nat)
    ensures Reach(g, v, v)
  {
    assert IsPath(g, [v], v, v);
  }

  lemma Step(g: Graph, u: nat, w: nat)
    requires Edge(g, u, w)
    ensures Reach(g, u, w)
  {
    assert IsPath(g, [u, w], u, w);
  }

  lemma Chain(g: Graph, u: nat, v: nat, w: nat)
    requires Reach(g, u, v) && Reach(g, v, w)
    ensures Reach(g, u, w)
  {
    var p :| IsPath(g, p, u, v);
    var q :| IsPath(g, q, v, w);
    var r := p + q[1..];
    forall i | 0 <= i < |r| - 1
      ensures Edge(g, r[i], r[i + 1])
    {
      if i >= |p| - 1 { assert r[i] == q[i - |p| + 1] && r[i + 1] == q[i - |p| + 2]; }
    }
    assert IsPath(g, r, u, w);
  }

  // ----- The state of the search -----

  /** What the search has done so far. `open` holds the vertices whose visit has not returned. */
  datatype Search = Search(index: seq<Option<nat>>, stack: seq<nat>, next: nat, components: seq<seq<nat>>,
      open: set<nat>) {
    ghost predicate Seen(v: int) {
      0 <= v < |index| && index[v].Some?
    }
  }

  /** Vertices are numbered in the order they are met, and the stack keeps that order. */
  ghost predicate Numbered(g: Graph, s: Search) {
    && |s.index| == |g|
    && (forall v :: s.Seen(v) ==> s.index[v].value < s.next)
    && (forall i :: 0 <= i < |s.stack| ==> s.Seen(s.stack[i]))
    && (forall i, j :: 0 <= i < j < |s.stack| ==> s.index[s.stack[i]].value < s.index[s.stack[j]].value)
  }

  /** No vertex is listed twice. */
  ghost predicate Apart(cs: seq<seq<nat>>) {
    && (forall i, k, l :: 0 <= i < |cs| && 0 <= k < l < |cs[i]| ==> cs[i][k] != cs[i][l])
    && (forall i, j, v :: 0 <= i < j < |cs| && v in cs[i] ==> v !in cs[j])
  }

  ghost predicate Listed(cs: seq<seq<nat>>, v: nat) {
    exists i :: 0 <= i < |cs| && v in cs[i]
  }

  /** `v` is in one of the components up to and including the one at `i`. */
  ghost predicate ListedBy(cs: seq<seq<nat>>, v: nat, i: int) {
    exists j :: 0 <= j <= i < |cs| && v in cs[j]
  }

  /** Every edge out of a component leads into it or into an earlier one. */
  ghost predicate Closed(g: Graph, cs: seq<seq<nat>>) {
    forall i, v, w :: 0 <= i < |cs| && v in cs[i] && Edge(g, v, w) ==> ListedBy(cs, w, i)
  }

  ghost predicate Strong(g: Graph, cs: seq<seq<nat>>) {
    forall i, v, w :: 0 <= i < |cs| && v in cs[i] && w in cs[i] ==> Reach(g, v, w)
  }

  /** The vertices met and no longer on the stack are exactly those of the components. */
  ghost predicate Emitted(g: Graph, s: Search) {
    && (forall i :: 0 <= i < |s.components| ==> s.components[i] != [])
    && (forall i, v :: 0 <= i < |s.components| && v in s.components[i] ==> s.Seen(v) && v !in s.stack)
    && (forall v :: s.Seen(v) && v !in s.stack ==> Listed(s.components, v))
    && Apart(s.components) && Strong(g, s.components) && Closed(g, s.components)
  }

  /** The vertex at `i` reaches an open vertex no higher on the stack. */
  ghost predicate Anchored(g: Graph, s: Search, i: nat) {
    i < |s.stack| && exists k :: 0 <= k <= i && s.stack[k] in s.open && Reach(g, s.stack[i], s.stack[k])
  }

  /** The stack is a path of reachability whose vertices all lead back to open ones, and only open
      vertices have successors yet to be met. */
  ghost predicate Stacked(g: Graph, s: Search) {
    && (forall v :: v in s.open ==> v in s.stack)
    && (forall v: nat, w: nat :: s.Seen(v) && v !in s.open && Edge(g, v, w) ==> s.Seen(w))
    && (forall i, j :: 0 <= i <= j < |s.stack| ==> Reach(g, s.stack[i], s.stack[j]))
    && (forall i :: 0 <= i < |s.stack| ==> Anchored(g, s, i))
  }

  ghost predicate Invariant(g: Graph, s: Search) {
    WellFormed(g) && Numbered(g, s) && Emitted(g, s) && Stacked(g, s)
  }

  /** What any part of the search keeps of what was there before it. */
  ghost predicate Grew(s: Search, t: Search) {
    && |s.index| == |t.index| && s.next <= t.next && s.open == t.open
    && (forall v :: s.Seen(v) ==> t.index[v] == s.index[v])
    && s.stack <= t.stack && s.components <= t.components
    && (forall v :: s.Seen(v) && v !in s.stack ==> v !in t.stack)
    && (forall v :: t.Seen(v) && !s.Seen(v) ==> t.index[v].value >= s.next)
  }

  function Met(s: Search, v: nat): Search
    requires v < |s.index|
  {
    Search(s.index[v := Some(s.next)], s.stack + [v], s.next + 1, s.components, s.open + {v})
  }

  lemma Enter(g: Graph, s: Search, v: nat)
    requires Invariant(g, s) && v < |g| && !s.Seen(v)
    requires forall x :: x in s.open ==> Reach(g, x, v)
    ensures Invariant(g, Met(s, v))
  {
    EnterNumbered(g, s, v);
    EnterEmitted(g, s, v);
    EnterStacked(g, s, v);
  }

  lemma EnterNumbered(g: Graph, s: Search, v: nat)
    requires Numbered(g, s) && v < |g| && !s.Seen(v)
    ensures Numbered(g, Met(s, v))
  {
    var t := Met(s, v);
    assert forall x :: t.Seen(x) <==> s.Seen(x) || x == v;
  }

  lemma EnterEmitted(g: Graph, s: Search, v: nat)
    requires Numbered(g, s) && Emitted(g, s) && v < |g| && !s.Seen(v)
    ensures Emitted(g, Met(s, v))
  {
    var t := Met(s, v);
    assert forall x :: t.Seen(x) <==> s.Seen(x) || x == v;
  }

  lemma EnterStacked(g: Graph, s: Search, v: nat)
    requires Numbered(g, s) && Stacked(g, s) && v < |g| && !s.Seen(v)
    requires forall x :: x in s.open ==> Reach(g, x, v)
    ensures Stacked(g, Met(s, v))
  {
    var t := Met(s, v);
    var n := |s.stack|;
    assert forall x :: t.Seen(x) <==> s.Seen(x) || x == v;
    Itself(g, v);
    forall i | 0 <= i <= n
      ensures Reach(g, t.stack[i], v) && Anchored(g, t, i)
    {
      if i < n {
        EnterAnchored(g, s, v, i);
      } else {
        assert t.stack[n] == v;
      }
    }
    forall i, j | 0 <= i <= j < |t.stack|
      ensures Reach(g, t.stack[i], t.stack[j])
    {
      if j < n { assert t.stack[i] == s.stack[i] && t.stack[j] == s.stack[j]; }
    }
  }

  lemma EnterAnchored(g: Graph, s: Search, v: nat, i: nat)
    requires v < |s.index| && Anchored(g, s, i)
    requires forall x :: x in s.open ==> Reach(g, x, v)
    ensures Reach(g, s.stack[i], v) && Anchored(g, Met(s, v), i)
  {
    var t := Met(s, v);
    var k :| 0 <= k <= i && s.stack[k] in s.open && Reach(g, s.stack[i], s.stack[k]);
    assert t.stack[k] == s.stack[k] && t.stack[i] == s.stack[i];
    Chain(g, s.stack[i], s.stack[k], v);
  }

  // ----- The end of a visit -----

  /** `low` is no higher than the number of any vertex below `base` that an edge from `base` upward
      leads to, where only the first `k` successors of the vertex at `base` count. */
  ghost predicate Bound(g: Graph, s: Search, base: nat, k: nat, low: nat)
    requires Numbered(g, s) && base < |s.stack| && k <= |g[s.stack[base]]|
  {
    forall i, j :: 0 <= j < base <= i < |s.stack| && Edge(g, s.stack[i],
        s.stack[j]) && (i == base ==> s.stack[j] in g[s.stack[base]][..k])
      ==> low <= s.index[s.stack[j]].value
  }

  /** `low` is the number of a vertex on the stack that `v` reaches. */
  ghost predicate Attained(g: Graph, s: Search, v: nat, low: nat)
    requires Numbered(g, s)
  {
    exists j :: 0 <= j < |s.stack| && s.index[s.stack[j]].value == low && Reach(g, v, s.stack[j])
  }

  /** The visit of the vertex at `base` has gone through its first `k` successors and computed
      `low`. */
  ghost predicate Visiting(g: Graph, s: Search, base: nat, k: nat, low: nat) {
    && Invariant(g, s) && base < |s.stack| && k <= |g[s.stack[base]]|
    && s.stack[base] in s.open && (forall x :: x in s.open ==> x in s.stack[..base + 1])
    && (forall i :: 0 <= i < k ==> s.Seen(g[s.stack[base]][i]))
    && low <= s.index[s.stack[base]].value
    && Bound(g, s, base, k, low) && Attained(g, s, s.stack[base], low)
  }

  ghost predicate Visited(g: Graph, s: Search, base: nat, low: nat) {
    && base < |s.stack| && s.Seen(s.stack[base]) && |s.index| == |g|
    && Visiting(g, s, base, |g[s.stack[base]]|, low)
  }

  lemma SamePlace(g: Graph, s: Search, i: nat, j: nat)
    requires Numbered(g, s) && i < |s.stack| && j < |s.stack| && s.stack[i] == s.stack[j]
    ensures i == j
  {
  }

  lemma Anchor(g: Graph, s: Search, i: nat) returns (k: nat)
    requires Stacked(g, s) && i < |s.stack|
    ensures k <= i && s.stack[k] in s.open && Reach(g, s.stack[i], s.stack[k])
  {
    assert Anchored(g, s, i);
    k :| 0 <= k <= i && s.stack[k] in s.open && Reach(g, s.stack[i], s.stack[k]);
  }

  /** Every vertex from `base` upward reaches the one at `base`. */
  lemma LeadsBack(g: Graph, s: Search, base: nat, i: nat)
    requires Invariant(g, s) && base <= i < |s.stack|
    requires forall x :: x in s.open ==> x in s.stack[..base + 1]
    ensures Reach(g, s.stack[i], s.stack[base])
  {
    var k := Anchor(g, s, i);
    var j :| 0 <= j <= base && s.stack[j] == s.stack[k];
    SamePlace(g, s, j, k);
    assert Reach(g, s.stack[k], s.stack[base]);
    Chain(g, s.stack[i], s.stack[k], s.stack[base]);
  }

  /** The visit leaves its vertex on the stack. */
  function Left(s: Search, v: nat): Search {
    s.(open := s.open - {v})
  }

  lemma Leave(g: Graph, s: Search, base: nat, low: nat)
    requires Visited(g, s, base, low) && low < s.index[s.stack[base]].value
    ensures Invariant(g, Left(s, s.stack[base]))
  {
    hide Bound, Attained, Reach;
    var v := s.stack[base];
    var t := Left(s, v);
    forall w: nat | Edge(g, v, w)
      ensures s.Seen(w)
    {
      var i :| 0 <= i < |g[v]| && g[v][i] == w;
    }
    forall i | 0 <= i < |s.stack|
      ensures Anchored(g, t, i)
    {
      LeaveAnchored(g, s, base, low, i);
    }
    assert forall x :: t.Seen(x) <==> s.Seen(x);
    assert Stacked(g, t);
    assert Emitted(g, t);
  }

  lemma LeaveAnchored(g: Graph, s: Search, base: nat, low: nat, i: nat)
    requires Visited(g, s, base, low) && low < s.index[s.stack[base]].value && i < |s.stack|
    ensures Anchored(g, Left(s, s.stack[base]), i)
  {
    if i < base {
      var k := Anchor(g, s, i);
      StillAnchored(g, s, base, i, k);
    } else {
      LeadsBack(g, s, base, i);
      var j := Lower(g, s, base, low);
      var k := Anchor(g, s, j);
      Chain(g, s.stack[i], s.stack[base], s.stack[j]);
      Chain(g, s.stack[i], s.stack[j], s.stack[k]);
      StillAnchored(g, s, base, i, k);
    }
  }

  lemma StillAnchored(g: Graph, s: Search, base: nat, i: nat, k: nat)
    requires Numbered(g, s) && k <= i < |s.stack| && k < base < |s.stack|
    requires s.stack[k] in s.open && Reach(g, s.stack[i], s.stack[k])
    ensures Anchored(g, Left(s, s.stack[base]), i)
  {
    assert s.stack[k] in Left(s, s.stack[base]).open;
  }

  /** A visit that computed less than its vertex's number reaches the stack below it. */
  lemma Lower(g: Graph, s: Search, base: nat, low: nat) returns (j: nat)
    requires Numbered(g, s) && base < |s.stack| && Attained(g, s, s.stack[base], low)
    requires low < s.index[s.stack[base]].value
    ensures j < base && s.index[s.stack[j]].value == low && Reach(g, s.stack[base], s.stack[j])
  {
    j :| 0 <= j < |s.stack| && s.index[s.stack[j]].value == low && Reach(g, s.stack[base], s.stack[j]);
  }

  /** The stack from `base` upward, top first. */
  function Top(s: Search, base: nat): (c: seq<nat>)
    requires base <= |s.stack|
    ensures forall x :: x in c <==> x in s.stack[base..]
  {
    var c := seq(|s.stack| - base, i requires 0 <= i < |s.stack| - base => s.stack[|s.stack| - 1 - i]);
    assert forall x :: x in s.stack[base..] ==> x in c by {
      forall x | x in s.stack[base..]
        ensures x in c
      {
        var i :| base <= i < |s.stack| && s.stack[i] == x;
        assert c[|s.stack| - 1 - i] == x;
      }
    }
    c
  }

  /** The visit takes its vertex and everything above it off the stack, as a component. */
  function Popped(s: Search, base: nat): Search
    requires base < |s.stack|
  {
    Search(s.index, s.stack[..base], s.next, s.components + [Top(s, base)], s.open - {s.stack[base]})
  }

  lemma NotOpen(g: Graph, s: Search, base: nat, i: nat)
    requires Numbered(g, s) && base < i < |s.stack|
    requires forall x :: x in s.open ==> x in s.stack[..base + 1]
    ensures s.stack[i] !in s.open
  {
    forall j | 0 <= j <= base
      ensures s.stack[j] != s.stack[i]
    {
      assert s.index[s.stack[j]].value < s.index[s.stack[i]].value;
    }
  }

  /** Nothing leads from the vertex and those above it to the rest of the stack. */
  lemma TopClosed(g: Graph, s: Search, base: nat, low: nat, i: nat, w: nat)
    requires Visited(g, s, base, low) && low == s.index[s.stack[base]].value
    requires base <= i < |s.stack| && Edge(g, s.stack[i], w)
    ensures w in s.stack[base..] || Listed(s.components, w)
  {
    var v := s.stack[base];
    assert s.Seen(w) by {
      if i == base {
        var k :| 0 <= k < |g[v]| && g[v][k] == w;
      } else {
        NotOpen(g, s, base, i);
      }
    }
    if w in s.stack {
      var j :| 0 <= j < |s.stack| && s.stack[j] == w;
      assert j >= base;
    }
  }

  lemma PopClosed(g: Graph, s: Search, base: nat, low: nat)
    requires Visited(g, s, base, low) && low == s.index[s.stack[base]].value
    ensures Closed(g, Popped(s, base).components)
  {
    hide Strong, Apart;
    var cs, ds := s.components, Popped(s, base).components;
    forall i, v, w | 0 <= i < |ds| && v in ds[i] && Edge(g, v, w)
      ensures ListedBy(ds, w, i)
    {
      if i < |cs| {
        assert v in cs[i] && ListedBy(cs, w, i);
        var j :| 0 <= j <= i < |cs| && w in cs[j];
        assert w in ds[j];
      } else {
        var k :| base <= k < |s.stack| && s.stack[k] == v;
        TopClosed(g, s, base, low, k, w);
        if w in s.stack[base..] {
          assert w in ds[i];
        } else {
          var j :| 0 <= j < |cs| && w in cs[j];
          assert w in ds[j];
        }
      }
    }
  }

  lemma PopStrong(g: Graph, s: Search, base: nat, low: nat)
    requires Visited(g, s, base, low)
    ensures Strong(g, Popped(s, base).components)
  {
    hide Closed, Apart;
    var cs, ds := s.components, Popped(s, base).components;
    forall i, v, w | 0 <= i < |ds| && v in ds[i] && w in ds[i]
      ensures Reach(g, v, w)
    {
      if i < |cs| {
        assert v in cs[i] && w in cs[i];
      } else {
        var k :| base <= k < |s.stack| && s.stack[k] == v;
        var l :| base <= l < |s.stack| && s.stack[l] == w;
        LeadsBack(g, s, base, k);
        Chain(g, v, s.stack[base], w);
      }
    }
  }

  lemma PopApart(g: Graph, s: Search, base: nat)
    requires Numbered(g, s) && Emitted(g, s) && base < |s.stack|
    ensures Apart(Popped(s, base).components)
  {
    var cs, ds, n := s.components, Popped(s, base).components, |s.stack|;
    var c := Top(s, base);
    forall i, k, l | 0 <= i < |ds| && 0 <= k < l < |ds[i]|
      ensures ds[i][k] != ds[i][l]
    {
      if i == |cs| {
        assert s.index[s.stack[n - 1 - l]].value < s.index[s.stack[n - 1 - k]].value;
      } else {
        assert ds[i] == cs[i];
      }
    }
    forall i, j, v | 0 <= i < j < |ds| && v in ds[i]
      ensures v !in ds[j]
    {
      assert ds[i] == cs[i];
      if j == |cs| { assert v !in s.stack; } else { assert ds[j] == cs[j]; }
    }
  }

  lemma PopListed(g: Graph, s: Search, base: nat)
    requires Numbered(g, s) && Emitted(g, s) && base < |s.stack|
    ensures var t := Popped(s, base); forall v :: t.Seen(v) && v !in t.stack ==> Listed(t.components, v)
  {
    var t := Popped(s, base);
    var cs, ds := s.components, t.components;
    forall v | t.Seen(v) && v !in t.stack
      ensures Listed(ds, v)
    {
      assert s.Seen(v);
      if v in s.stack {
        assert s.stack == s.stack[..base] + s.stack[base..];
        assert v in ds[|cs|];
      } else {
        var i :| 0 <= i < |cs| && v in cs[i];
        assert v in ds[i];
      }
    }
  }

  lemma PopTaken(g: Graph, s: Search, base: nat, i: nat, v: nat)
    requires Numbered(g, s) && Emitted(g, s) && base < |s.stack|
    requires i < |Popped(s, base).components| && v in Popped(s, base).components[i]
    ensures Popped(s, base).Seen(v) && v !in Popped(s, base).stack
  {
    if i < |s.components| {
      assert v in s.components[i];
      assert s.Seen(v);
    } else {
      var k :| base <= k < |s.stack| && s.stack[k] == v;
      assert s.Seen(s.stack[k]);
      forall j | 0 <= j < base
        ensures s.stack[j] != v
      {
        assert s.index[s.stack[j]].value < s.index[s.stack[k]].value;
      }
    }
  }

  lemma PopEmitted(g: Graph, s: Search, base: nat, low: nat)
    requires Visited(g, s, base, low) && low == s.index[s.stack[base]].value
    ensures Emitted(g, Popped(s, base))
  {
    PopApart(g, s, base);
    PopStrong(g, s, base, low);
    PopClosed(g, s, base, low);
    PopListed(g, s, base);
    var t := Popped(s, base);
    forall i, v | 0 <= i < |t.components| && v in t.components[i]
      ensures t.Seen(v) && v !in t.stack
    {
      PopTaken(g, s, base, i, v);
    }
    assert s.stack[base] in s.stack[base..];
  }

  lemma PopStacked(g: Graph, s: Search, base: nat, low: nat)
    requires Visited(g, s, base, low)
    ensures Stacked(g, Popped(s, base))
  {
    hide Emitted, Bound, Attained, Reach;
    var t, v := Popped(s, base), s.stack[base];
    forall x: nat, w: nat | t.Seen(x) && x !in t.open && Edge(g, x, w)
      ensures t.Seen(w)
    {
      assert s.Seen(x);
      if x == v {
        var i :| 0 <= i < |g[v]| && g[v][i] == w;
      }
      assert s.Seen(w);
    }
    forall i | 0 <= i < base
      ensures Anchored(g, t, i)
    {
      var k := Anchor(g, s, i);
      assert s.stack[k] != v by {
        if s.stack[k] == v { SamePlace(g, s, k, base); }
      }
      assert t.stack[k] == s.stack[k] && t.stack[i] == s.stack[i];
    }
    forall x | x in t.open
      ensures x in t.stack
    {
      var j :| 0 <= j < base + 1 && s.stack[j] == x;
      assert t.stack[j] == x;
    }
    assert forall i, j :: 0 <= i <= j < base ==> Reach(g, s.stack[i], s.stack[j]);
  }

  lemma Pop(g: Graph, s: Search, base: nat, low: nat)
    requires Visited(g, s, base, low) && low == s.index[s.stack[base]].value
    ensures Invariant(g, Popped(s, base))
  {
    PopEmitted(g, s, base, low);
    PopStacked(g, s, base, low);
    var t := Popped(s, base);
    assert forall x :: t.Seen(x) <==> s.Seen(x);
  }

  // ----- The steps of a visit -----

  function Min(a: nat, b: nat): nat {
    if a < b then a else b
  }

  lemma GrewTwice(s: Search, t: Search, u: Search)
    requires Grew(s, t) && Grew(t, u)
    ensures Grew(s, u)
  {
    forall v | s.Seen(v)
      ensures u.index[v] == s.index[v] && (v !in s.stack ==> v !in u.stack)
    {
      assert t.Seen(v);
    }
    forall v | u.Seen(v) && !s.Seen(v)
      ensures u.index[v].value >= s.next
    {
      if t.Seen(v) { assert u.index[v] == t.index[v]; }
    }
  }

  lemma Begin(g: Graph, s: Search, v: nat)
    requires Invariant(g, s) && v < |g| && !s.Seen(v)
    requires forall x :: x in s.open ==> Reach(g, x, v)
    ensures Visiting(g, Met(s, v), |s.stack|, 0, s.next)
  {
    Enter(g, s, v);
    var t, base := Met(s, v), |s.stack|;
    assert t.stack[base] == v && t.stack[..base + 1] == t.stack;
    Itself(g, v);
    assert t.index[t.stack[base]].value == s.next;
    assert Attained(g, t, v, s.next);
  }

  /** What the visit of `w` leaves behind on the stack, and the number `low` it computed. */
  ghost predicate Outcome(g: Graph, s: Search, t: Search, w: nat, low: nat)
    requires Numbered(g, s) && Numbered(g, t)
  {
    && t.Seen(w)
    && (forall i, j :: 0 <= j < |s.stack| <= i < |t.stack| && Edge(g, t.stack[i], t.stack[j]) ==>
        low <= t.index[t.stack[j]].value)
    && ((|t.stack| == |s.stack| && low >= s.next) || Attained(g, s, w, low))
  }

  /** Another `Visiting`'s facts, carried over what a visit of a successor adds. */
  lemma ChildAttained(g: Graph, s: Search, t: Search, v: nat, w: nat, low: nat, childLow: nat)
    requires Numbered(g, s) && Numbered(g, t) && Grew(s, t) && Edge(g, v, w)
    requires Attained(g, s, v, low) && Outcome(g, s, t, w, childLow) && low < s.next
    ensures Attained(g, t, v, Min(low, childLow))
  {
    if low <= childLow {
      var j :| 0 <= j < |s.stack| && s.index[s.stack[j]].value == low && Reach(g, v, s.stack[j]);
      assert s.Seen(s.stack[j]) && t.stack[j] == s.stack[j];
    } else {
      var j :| 0 <= j < |s.stack| && s.index[s.stack[j]].value == childLow && Reach(g, w, s.stack[j]);
      assert s.Seen(s.stack[j]) && t.stack[j] == s.stack[j];
      Step(g, v, w);
      Chain(g, v, w, s.stack[j]);
    }
  }

  lemma ChildBound(g: Graph, s: Search, t: Search, base: nat, k: nat, low: nat, childLow: nat)
    requires Numbered(g, s) && Numbered(g, t) && Grew(s, t) && base < |s.stack| && k < |g[s.stack[base]]|
    requires Bound(g, s, base, k, low) && !s.Seen(g[s.stack[base]][k])
             && Outcome(g, s, t, g[s.stack[base]][k], childLow)
    ensures t.stack[base] == s.stack[base] && Bound(g, t, base, k + 1, Min(low, childLow))
  {
    var v := s.stack[base];
    assert t.stack[base] == v;
    assert g[v][..k + 1] == g[v][..k] + [g[v][k]];
    forall i, j | 0 <= j < base <= i < |t.stack| && Edge(g, t.stack[i], t.stack[j])
        && (i == base ==> t.stack[j] in g[v][..k + 1])
      ensures Min(low, childLow) <= t.index[t.stack[j]].value
    {
      assert t.stack[j] == s.stack[j] && s.Seen(s.stack[j]);
      if i < |s.stack| { assert t.stack[i] == s.stack[i]; }
    }
  }

  lemma Child(g: Graph, s: Search, t: Search, base: nat, k: nat, low: nat, childLow: nat)
    requires Visiting(g, s, base, k, low) && k < |g[s.stack[base]]| && Invariant(g, t) && Grew(s, t)
    requires !s.Seen(g[s.stack[base]][k]) && Outcome(g, s, t, g[s.stack[base]][k], childLow)
    ensures Visiting(g, t, base, k + 1, Min(low, childLow)) && t.stack[base] == s.stack[base]
  {
    hide Emitted, Stacked, Reach, Bound, Attained;
    var v := s.stack[base];
    ChildBound(g, s, t, base, k, low, childLow);
    ChildAttained(g, s, t, v, g[v][k], low, childLow);
    assert t.stack[..base + 1] == s.stack[..base + 1];
    assert s.Seen(v);
    forall i | 0 <= i < k + 1
      ensures t.Seen(g[v][i])
    {
      if i < k { assert s.Seen(g[v][i]); }
    }
  }

  /** A successor met before and still on the stack. */
  lemma OnStack(g: Graph, s: Search, base: nat, k: nat, low: nat)
    requires Visiting(g, s, base, k, low) && k < |g[s.stack[base]]| && g[s.stack[base]][k] in s.stack
    ensures s.Seen(g[s.stack[base]][k])
    ensures Visiting(g, s, base, k + 1, Min(low, s.index[g[s.stack[base]][k]].value))
  {
    hide Reach, Emitted, Stacked;
    var v := s.stack[base];
    var w := g[v][k];
    var j :| 0 <= j < |s.stack| && s.stack[j] == w;
    assert s.Seen(s.stack[j]);
    Step(g, v, w);
    assert g[v][..k + 1] == g[v][..k] + [w];
  }

  /** A successor met before whose component is complete. */
  lemma OffStack(g: Graph, s: Search, base: nat, k: nat, low: nat)
    requires Visiting(g, s, base, k, low) && k < |g[s.stack[base]]|
    requires s.Seen(g[s.stack[base]][k]) && g[s.stack[base]][k] !in s.stack
    ensures Visiting(g, s, base, k + 1, low)
  {
    var v := s.stack[base];
    assert g[v][..k + 1] == g[v][..k] + [g[v][k]];
  }

  /** The open vertices reach each successor of the vertex being visited. */
  lemma OpenReach(g: Graph, s: Search, base: nat, k: nat, low: nat, x: nat)
    requires Visiting(g, s, base, k, low) && k < |g[s.stack[base]]| && x in s.open
    ensures Reach(g, x, g[s.stack[base]][k])
  {
    var v := s.stack[base];
    var i :| 0 <= i < base + 1 && s.stack[i] == x;
    Step(g, v, g[v][k]);
    Chain(g, x, v, g[v][k]);
  }

  /** The visit that began at `s` ends at `t`, its vertex left on the stack. */
  lemma EndLeft(g: Graph, s: Search, v: nat, t: Search, low: nat)
    requires Invariant(g, s) && v < |g| && !s.Seen(v) && Grew(Met(s, v), t)
    requires Visited(g, t, |s.stack|, low) && low < t.index[t.stack[|s.stack|]].value
    ensures t.stack[|s.stack|] == v && Grew(s, Left(t, v)) && Outcome(g, s, Left(t, v), v, low)
  {
    hide Emitted, Stacked, Reach;
    var m, base := Met(s, v), |s.stack|;
    assert m.stack[base] == v;
    GrewMet(g, s, v, t);
    var j := Lower(g, t, base, low);
    assert t.stack[j] == m.stack[j] == s.stack[j] && s.Seen(s.stack[j]);
  }

  lemma GrewMet(g: Graph, s: Search, v: nat, t: Search)
    requires Invariant(g, s) && v < |g| && !s.Seen(v) && Grew(Met(s, v), t)
    ensures Grew(s, Left(t, v)) && t.Seen(v) && |s.stack| < |t.stack|
  {
    var m := Met(s, v);
    assert v !in s.open && v !in s.stack;
    assert m.Seen(v);
    forall x | s.Seen(x)
      ensures t.index[x] == s.index[x] && (x !in s.stack ==> x !in t.stack)
    {
      assert m.Seen(x);
    }
    forall x | t.Seen(x) && !s.Seen(x)
      ensures t.index[x].value >= s.next
    {
      if x != v { assert !m.Seen(x); }
    }
    assert s.stack == m.stack[..|s.stack|];
  }

  /** The visit that began at `s` ends at `t`, its component complete. */
  lemma EndPopped(g: Graph, s: Search, v: nat, t: Search, low: nat)
    requires Invariant(g, s) && v < |g| && !s.Seen(v) && Grew(Met(s, v), t)
    requires Visited(g, t, |s.stack|, low) && low == t.index[t.stack[|s.stack|]].value
    requires Invariant(g, Popped(t, |s.stack|))
    ensures t.stack[|s.stack|] == v && Grew(s, Popped(t, |s.stack|)) && Outcome(g, s, Popped(t, |s.stack|), v, low)
  {
    hide Emitted, Stacked, Reach;
    var m, base := Met(s, v), |s.stack|;
    assert m.stack[base] == v;
    GrewMet(g, s, v, t);
    var u := Popped(t, base);
    assert u.stack == s.stack;
    assert u.Seen(v) && !s.Seen(v);
  }

  /** What the tables need to know of a visit under way. */
  lemma Underway(g: Graph, s: Search, base: nat, k: nat, low: nat)
    requires Visiting(g, s, base, k, low)
    ensures Invariant(g, s) && |s.index| == |g| && base < |s.stack| && s.Seen(s.stack[base])
            && low <= s.index[s.stack[base]].value
    ensures k <= |g[s.stack[base]]| && forall i :: 0 <= i < |g[s.stack[base]]| ==> g[s.stack[base]][i] < |g|
  {
    assert s.Seen(s.stack[base]);
  }

  lemma GrewItself(s: Search)
    ensures Grew(s, s)
  {
  }

  lemma StillSeen(s: Search, v: nat, t: Search)
    requires v < |s.index| && !s.Seen(v) && Grew(Met(s, v), t)
    ensures forall x :: s.Seen(x) ==> x != v && t.Seen(x)
    ensures |s.stack| < |t.stack| && t.stack[|s.stack|] == v && |t.index| == |s.index|
  {
    var m := Met(s, v);
    assert forall x :: s.Seen(x) ==> m.Seen(x) && t.Seen(x);
    assert m.stack[|s.stack|] == v;
  }

  /** The vertices not yet met. */
  ghost function Unseen(s: Search): set<nat> {
    set v: nat | v < |s.index| && !s.Seen(v)
  }

  lemma UnseenShrinks(s: Search, v: nat, t: Search)
    requires v < |s.index| && !s.Seen(v) && Grew(Met(s, v), t)
    ensures Unseen(t) < Unseen(s)
  {
    var m := Met(s, v);
    assert m.Seen(v) && t.Seen(v);
    assert forall x :: s.Seen(x) ==> m.Seen(x) && t.Seen(x);
    assert v in Unseen(s) && v !in Unseen(t);
  }

  // ----- The order of the depth-first search -----

  /** The orders in which a depth-first search meets vertices and ends their visits. */
  datatype Order = Order(met: seq<nat>, ended: seq<nat>)

  ghost function Missing(g: Graph, met: seq<nat>): set<nat> {
    set x: nat | x < |g| && x !in met
  }

  /** The search from `v`, which takes successors in list order. */
  ghost function VisitOrder(g: Graph, v: nat, d: Order): (r: Order)
    requires WellFormed(g) && v < |g| && v !in d.met
    ensures d.met + [v] <= r.met
    decreases Missing(g, d.met), 1, 0
  {
    assert v in Missing(g, d.met) && v !in Missing(g, d.met + [v]);
    var e := EdgesOrder(g, v, 0, d.(met := d.met + [v]));
    e.(ended := e.ended + [v])
  }

  ghost function EdgesOrder(g: Graph, v: nat, k: nat, d: Order): (r: Order)
    requires WellFormed(g) && v < |g| && k <= |g[v]|
    ensures d.met <= r.met
    decreases Missing(g, d.met), 2, |g[v]| - k
  {
    if k == |g[v]| then d
    else
      var w := g[v][k];
      var e := if w in d.met then d else VisitOrder(g, w, d);
      assert Missing(g, e.met) <= Missing(g, d.met) by { assert forall i :: 0 <= i < |d.met| ==> e.met[i] == d.met[i]; }
      EdgesOrder(g, v, k + 1, e)
  }

  /** The search of the whole graph, which takes roots by ascending vertex. */
  ghost function RootsOrder(g: Graph, v: nat, d: Order): Order
    requires WellFormed(g) && v <= |g|
    decreases |g| - v
  {
    if v == |g| then d else RootsOrder(g, v + 1, if v in d.met then d else VisitOrder(g, v, d))
  }

  ghost predicate Before(order: seq<nat>, u: nat, v: nat) {
    exists i, j :: 0 <= i < j < |order| && order[i] == u && order[j] == v
  }

  ghost predicate NoRepeats(order: seq<nat>) {
    forall i, j :: 0 <= i < j < |order| ==> order[i] != order[j]
  }

  /** A component's members come from the last one met to the first, as they are popped. */
  ghost predicate PopOrder(cs: seq<seq<nat>>, met: seq<nat>) {
    forall i, k, l :: 0 <= i < |cs| && 0 <= k < l < |cs[i]| ==> Before(met, cs[i][l], cs[i][k])
  }

  /** The visit of a component's last member ends after those of the others, and components come in
      the order those visits end. */
  ghost predicate EndOrder(cs: seq<seq<nat>>, ended: seq<nat>) {
    && (forall i, k :: 0 <= i < |cs| && 0 <= k < |cs[i]| - 1 ==> Before(ended, cs[i][k], cs[i][|cs[i]| - 1]))
    && (forall i, j :: 0 <= i < j < |cs| && cs[i] != [] && cs[j] != [] ==>
        Before(ended, cs[i][|cs[i]| - 1], cs[j][|cs[j]| - 1]))
  }

  /** The components come in the order of the search `d`. */
  ghost predicate InOrder(cs: seq<seq<nat>>, d: Order) {
    NoRepeats(d.met) && NoRepeats(d.ended) && PopOrder(cs, d.met) && EndOrder(cs, d.ended)
  }

  /** `d` is the search so far. */
  ghost predicate Traced(s: Search, d: Order) {
    && |d.met| == s.next && (forall i :: 0 <= i < |d.met| ==> s.Seen(d.met[i]) && s.index[d.met[i]] == Some(i))
    && (forall v: nat :: s.Seen(v) ==> s.index[v].value < |d.met| && d.met[s.index[v].value] == v)
    && (forall v: nat :: v in d.ended <==> s.Seen(v) && v !in s.open)
    && NoRepeats(d.ended) && PopOrder(s.components, d.met) && EndOrder(s.components, d.ended)
  }

  lemma BeforeGrows(order: seq<nat>, x: nat, u: nat, v: nat)
    requires Before(order, u, v)
    ensures Before(order + [x], u, v)
  {
    var i, j :| 0 <= i < j < |order| && order[i] == u && order[j] == v;
    assert (order + [x])[i] == u && (order + [x])[j] == v;
  }

  lemma BeforeLast(order: seq<nat>, u: nat, v: nat)
    requires u in order
    ensures Before(order + [v], u, v)
  {
    var i :| 0 <= i < |order| && order[i] == u;
    assert (order + [v])[i] == u && (order + [v])[|order|] == v;
  }

  lemma PopOrderGrows(cs: seq<seq<nat>>, met: seq<nat>, x: nat)
    requires PopOrder(cs, met)
    ensures PopOrder(cs, met + [x])
  {
    forall i, k, l | 0 <= i < |cs| && 0 <= k < l < |cs[i]|
      ensures Before(met + [x], cs[i][l], cs[i][k])
    {
      BeforeGrows(met, x, cs[i][l], cs[i][k]);
    }
  }

  lemma EndOrderGrows(cs: seq<seq<nat>>, ended: seq<nat>, x: nat)
    requires EndOrder(cs, ended)
    ensures EndOrder(cs, ended + [x])
  {
    forall i, k | 0 <= i < |cs| && 0 <= k < |cs[i]| - 1
      ensures Before(ended + [x], cs[i][k], cs[i][|cs[i]| - 1])
    {
      BeforeGrows(ended, x, cs[i][k], cs[i][|cs[i]| - 1]);
    }
    forall i, j | 0 <= i < j < |cs| && cs[i] != [] && cs[j] != []
      ensures Before(ended + [x], cs[i][|cs[i]| - 1], cs[j][|cs[j]| - 1])
    {
      BeforeGrows(ended, x, cs[i][|cs[i]| - 1], cs[j][|cs[j]| - 1]);
    }
  }

  lemma MeetTraced(s: Search, d: Order, v: nat)
    requires Traced(s, d) && v < |s.index| && !s.Seen(v)
    ensures v !in d.met && Traced(Met(s, v), d.(met := d.met + [v]))
  {
    hide PopOrder, EndOrder;
    PopOrderGrows(s.components, d.met, v);
    var t, met := Met(s, v), d.met + [v];
    forall i | 0 <= i < |met| ensures t.Seen(met[i]) && t.index[met[i]] == Some(i) {
    }
  }

  /** The visit of `v` ends, and `v` stays on the stack. */
  lemma EndTraced(s: Search, d: Order, v: nat)
    requires Traced(s, d) && s.Seen(v) && v in s.open
    ensures Traced(s.(open := s.open - {v}), d.(ended := d.ended + [v]))
  {
    hide PopOrder, EndOrder;
    EndOrderGrows(s.components, d.ended, v);
  }

  /** The visit of the vertex at `base` ends with its component. */
  lemma PopTraced(g: Graph, s: Search, d: Order, base: nat)
    requires Numbered(g, s) && Emitted(g, s) && Stacked(g, s) && Traced(s, d)
    requires base < |s.stack| && s.stack[base] in s.open && forall x :: x in s.open ==> x in s.stack[..base + 1]
    ensures Traced(Popped(s, base), d.(ended := d.ended + [s.stack[base]]))
  {
    var v, c := s.stack[base], Top(s, base);
    EndTraced(s, d, v);
    PopMet(g, s, d, base);
    PopEnded(g, s, d, base);
  }

  lemma PopMet(g: Graph, s: Search, d: Order, base: nat)
    requires Numbered(g, s) && Traced(s, d) && base < |s.stack|
    ensures PopOrder(s.components + [Top(s, base)], d.met)
  {
    var c := Top(s, base);
    forall k, l | 0 <= k < l < |c| ensures Before(d.met, c[l], c[k]) {
      var i, j := |s.stack| - 1 - l, |s.stack| - 1 - k;
      assert c[l] == s.stack[i] && c[k] == s.stack[j];
      assert s.index[s.stack[i]].value < s.index[s.stack[j]].value;
    }
  }

  lemma EndOrderOne(cs: seq<seq<nat>>, c: seq<nat>, ended: seq<nat>)
    requires EndOrder(cs, ended) && c != []
    requires forall k :: 0 <= k < |c| - 1 ==> Before(ended, c[k], c[|c| - 1])
    requires forall i :: 0 <= i < |cs| ==> cs[i] != [] && Before(ended, cs[i][|cs[i]| - 1], c[|c| - 1])
    ensures EndOrder(cs + [c], ended)
  {
    hide Before;
  }

  lemma PopEnded(g: Graph, s: Search, d: Order, base: nat)
    requires Numbered(g, s) && Emitted(g, s) && Stacked(g, s) && Traced(s, d)
    requires base < |s.stack| && forall x :: x in s.open ==> x in s.stack[..base + 1]
    ensures EndOrder(s.components + [Top(s, base)], d.ended + [s.stack[base]])
  {
    var v, c := s.stack[base], Top(s, base);
    EndOrderGrows(s.components, d.ended, v);
    assert c[|c| - 1] == v;
    forall k | 0 <= k < |c| - 1 ensures Before(d.ended + [v], c[k], v) {
      NotOpen(g, s, base, |s.stack| - 1 - k);
      BeforeLast(d.ended, c[k], v);
    }
    forall i | 0 <= i < |s.components| ensures Before(d.ended + [v], s.components[i][|s.components[i]| - 1], v) {
      assert s.components[i][|s.components[i]| - 1] in s.components[i];
      BeforeLast(d.ended, s.components[i][|s.components[i]| - 1], v);
    }
    hide Before, EndOrder, Emitted, Stacked, Numbered, Traced;
    EndOrderOne(s.components, c, d.ended + [v]);
  }

  lemma TracedMet(s: Search, d: Order, w: nat)
    requires Traced(s, d) && w < |s.index|
    ensures w in d.met <==> s.index[w].Some?
  {
  }

  lemma FinishTraced(g: Graph, s: Search, base: nat, low: nat, d: Order)
    requires Visited(g, s, base, low) && Traced(s, d)
    ensures var v, after := s.stack[base], d.(ended := d.ended + [s.stack[base]]);
            Traced(s.(open := s.open - {v}), after) && Traced(Popped(s, base), after)
  {
    hide Traced;
    EndTraced(s, d, s.stack[base]);
    PopTraced(g, s, d, base);
  }

  class Tarjan {
    const successors: Graph
    var index: seq<Option<nat>>
    var low: seq<nat>
    var onStack: seq<bool>
    var stack: seq<nat>
    var next: nat
    var components: seq<seq<nat>>
    ghost var open: set<nat>
    ghost var order: Order

    constructor (successors: Graph)
      requires WellFormed(successors)
      ensures Ready() && this.successors == successors && open == {} && components == [] && stack == []
      ensures (forall v :: !Now().Seen(v)) && order == Order([], []) && Traced(Now(), order)
    {
      this.successors := successors;
      index := seq(|successors|, _ => None);
      low := seq(|successors|, _ => 0);
      onStack := seq(|successors|, _ => false);
      stack, next, components, open := [], 0, [], {};
      order := Order([], []);
    }

    ghost function Now(): Search
      reads this
    {
      Search(index, stack, next, components, open)
    }

    /** The tables agree with the state of the search. */
    ghost predicate Ready()
      reads this
    {
      && Invariant(successors, Now()) && Tables()
    }

    ghost predicate Tables()
      reads this
    {
      && |low| == |onStack| == |successors|
      && forall v :: 0 <= v < |successors| ==> (onStack[v] <==> v in stack)
    }

    /** Meets `v` and everything it leads to that was not met yet. */
    method Visit(v: nat)
      requires Ready() && v < |successors| && index[v].None? && Traced(Now(), order)
      requires forall x :: x in open ==> Reach(successors, x, v)
      modifies this
      ensures Traced(Now(), order) && order == VisitOrder(successors, v, old(order))
      ensures Ready() && Grew(old(Now()), Now())
      ensures Outcome(successors, old(Now()), Now(), v, low[v])
      ensures forall x :: old(Now().Seen(x)) ==> low[x] == old(low[x])
      decreases Unseen(Now()), 1
    {
      hide Traced;
      ghost var s0 := Now();
      Meet(v);
      Explore(v, s0);
      Finish(v, s0);
    }

    method Meet(v: nat)
      requires Ready() && v < |successors| && index[v].None? && Traced(Now(), order)
      requires forall x :: x in open ==> Reach(successors, x, v)
      modifies this
      ensures v !in old(order).met && order == old(order).(met := old(order).met + [v]) && Traced(Now(), order)
      ensures Now() == Met(old(Now()), v) && low == old(low)[v := old(next)] && Tables()
      ensures Visiting(successors, Now(), |old(stack)|, 0, low[v])
    {
      hide Visiting, Traced;
      Begin(successors, Now(), v);
      MeetTraced(Now(), order, v);
      index := index[v := Some(next)];
      low := low[v := next];
      next := next + 1;
      stack := stack + [v];
      onStack := onStack[v := true];
      open := open + {v};
      order := order.(met := order.met + [v]);
    }

    /** Goes through the successors of `v`, just met at `s0`. */
    method Explore(v: nat, ghost s0: Search)
      requires v < |s0.index| == |successors| && !s0.Seen(v) && Now() == Met(s0, v) && Tables()
      requires Visiting(successors, Now(), |s0.stack|, 0, low[v]) && WellFormed(successors) && Traced(Now(), order)
      modifies this
      ensures Traced(Now(), order) && order == EdgesOrder(successors, v, 0, old(order))
      ensures Tables() && Grew(Met(s0, v), Now()) && Visited(successors, Now(), |s0.stack|, low[v])
      ensures forall x :: s0.Seen(x) ==> low[x] == old(low[x])
      decreases Unseen(s0), 0
    {
      hide Visiting, Grew, Traced, VisitOrder;
      ghost var base := |s0.stack|;
      GrewItself(Now());
      for k := 0 to |successors[v]|
        invariant Tables()
        invariant Visiting(successors, Now(), base, k, low[v]) && Grew(Met(s0, v), Now())
        invariant forall x :: s0.Seen(x) ==> low[x] == old(low[x])
        invariant Traced(Now(), order) && EdgesOrder(successors, v, 0, old(order))
                  == EdgesOrder(successors, v, k, order)
      {
        UnseenShrinks(s0, v, Now());
        StillSeen(s0, v, Now());
        ghost var s := Now();
        Follow(v, successors[v][k], base, k);
        GrewTwice(Met(s0, v), s, Now());
      }
      StillSeen(s0, v, Now());
      Underway(successors, Now(), base, |successors[v]|, low[v]);
    }

    /** Ends the visit of `v`, which began at `s0`. */
    method Finish(v: nat, ghost s0: Search)
      requires Invariant(successors, s0) && v < |s0.index| == |successors| && !s0.Seen(v) && Grew(Met(s0, v), Now())
      requires Tables() && Visited(successors, Now(), |s0.stack|, low[v]) && Traced(Now(), order)
      modifies this
      ensures Traced(Now(), order) && order == old(order).(ended := old(order).ended + [v])
      ensures Ready() && low == old(low) && Grew(s0, Now()) && Outcome(successors, s0, Now(), v, low[v])
    {
      hide Visiting, Invariant, Grew, Outcome, Traced;
      ghost var base := |s0.stack|;
      StillSeen(s0, v, Now());
      Underway(successors, Now(), base, |successors[v]|, low[v]);
      FinishTraced(successors, Now(), base, low[v], order);
      if index[v] == Some(low[v]) {
        Pop(successors, Now(), base, low[v]);
        EndPopped(successors, s0, v, Now(), low[v]);
        TakeComponent(v, base);
      } else {
        Leave(successors, Now(), base, low[v]);
        EndLeft(successors, s0, v, Now(), low[v]);
        open := open - {v};
      }
      order := order.(ended := order.ended + [v]);
    }

    /** Takes into account `w`, the successor of `v` at `k`. */
    method Follow(v: nat, w: nat, ghost base: nat, ghost k: nat)
      requires Tables() && base < |stack| && stack[base] == v && v < |successors| && k < |successors[v]|
               && w == successors[v][k]
      requires Visiting(successors, Now(), base, k, low[v]) && WellFormed(successors) && Traced(Now(), order)
      modifies this
      ensures Traced(Now(), order)
      ensures order == if w in old(order).met then old(order) else VisitOrder(successors, w, old(order))
      ensures Tables() && Grew(old(Now()), Now()) && Visiting(successors, Now(), base, k + 1, low[v])
      ensures forall x :: x != v && old(Now().Seen(x)) ==> low[x] == old(low[x])
      decreases Unseen(Now()), 2
    {
      hide Visiting, Invariant, Grew, Outcome, Traced, VisitOrder;
      ghost var s := Now();
      Underway(successors, s, base, k, low[v]);
      TracedMet(s, order, w);
      match index[w] {
        case None =>
          forall x | x in open
            ensures Reach(successors, x, w)
          {
            OpenReach(successors, s, base, k, low[v], x);
          }
          Visit(w);
          assert s.Seen(s.stack[base]);
          Child(successors, s, Now(), base, k, low[v], low[w]);
          low := low[v := Min(low[v], low[w])];
        case Some(wIndex) =>
          if onStack[w] {
            OnStack(successors, s, base, k, low[v]);
            low := low[v := Min(low[v], wIndex)];
          } else {
            OffStack(successors, s, base, k, low[v]);
          }
          GrewItself(s);
      }
    }

    /** Takes the stack down to `v`, at `base`, into a component. */
    method TakeComponent(v: nat, ghost base: nat)
      requires Invariant(successors, Now()) && Tables() && base < |stack| && stack[base] == v
      modifies this
      ensures Now() == Popped(old(Now()), base) && Tables() && low == old(low) && order == old(order)
    {
      hide Emitted, Stacked;
      ghost var s := Now();
      var component := [];
      while true
        invariant base < |stack| && stack == s.stack[..|stack|] && Tables()
        invariant component == Top(s, |stack|)
        invariant Now() == s.(stack := stack) && low == old(low) && order == old(order)
        decreases |stack|
      {
        var w := stack[|stack| - 1];
        stack := stack[..|stack| - 1];
        onStack := onStack[w := false];
        component := component + [w];
        if w == v {
          SamePlace(successors, s, |stack|, base);
          break;
        }
      }
      assert component == Top(s, base);
      components := components + [component];
      open := open - {v};
    }
  }

  // ----- The components -----

  /** Each component holds exactly the vertices mutually reachable with any one of its own. */
  ghost predicate Maximal(g: Graph, cs: seq<seq<nat>>) {
    forall i, v, w :: 0 <= i < |cs| && v in cs[i] ==> (w in cs[i] <==> Mutual(g, v, w))
  }

  /** A component comes after every component it reaches. */
  ghost predicate ReverseTopological(g: Graph, cs: seq<seq<nat>>) {
    forall i, j, v, w :: 0 <= i < |cs| && 0 <= j < |cs| && v in cs[i] && w in cs[j] && Reach(g, v, w) ==> j <= i
  }

  ghost predicate Components(g: Graph, cs: seq<seq<nat>>) {
    && (forall i :: 0 <= i < |cs| ==> cs[i] != [])
    && Apart(cs) && Maximal(g, cs) && ReverseTopological(g, cs)
  }

  lemma PathStays(g: Graph, cs: seq<seq<nat>>, p: seq<nat>, v: nat, w: nat, i: nat)
    requires Closed(g, cs) && i < |cs| && ListedBy(cs, v, i) && IsPath(g, p, v, w)
    ensures ListedBy(cs, w, i)
    decreases |p|
  {
    if |p| > 1 {
      assert Edge(g, p[0], p[1]);
      var j :| 0 <= j <= i && v in cs[j];
      assert ListedBy(cs, p[1], j);
      assert ListedBy(cs, p[1], i);
      forall k | 0 <= k < |p[1..]| - 1
        ensures Edge(g, p[1..][k], p[1..][k + 1])
      {
        assert Edge(g, p[k + 1], p[k + 2]);
      }
      PathStays(g, cs, p[1..], p[1], w, i);
    }
  }

  lemma ReachStays(g: Graph, cs: seq<seq<nat>>, v: nat, w: nat, i: nat)
    requires Closed(g, cs) && i < |cs| && v in cs[i] && Reach(g, v, w)
    ensures ListedBy(cs, w, i)
  {
    var p :| IsPath(g, p, v, w);
    assert ListedBy(cs, v, i);
    PathStays(g, cs, p, v, w, i);
  }

  /** Components that are closed under edges, in order, are maximal and in reverse topological
      order. */
  lemma ClosedComponents(g: Graph, cs: seq<seq<nat>>)
    requires (forall i :: 0 <= i < |cs| ==> cs[i] != []) && Apart(cs) && Strong(g, cs) && Closed(g, cs)
    ensures Components(g, cs)
  {
    forall i, j, v, w | 0 <= i < |cs| && 0 <= j < |cs| && v in cs[i] && w in cs[j] && Reach(g, v, w)
      ensures j <= i
    {
      ReachStays(g, cs, v, w, i);
      var k :| 0 <= k <= i && w in cs[k];
    }
    forall i, v, w | 0 <= i < |cs| && v in cs[i] && Mutual(g, v, w)
      ensures w in cs[i]
    {
      ReachStays(g, cs, v, w, i);
      var k :| 0 <= k <= i && w in cs[k];
      ReachStays(g, cs, w, v, k);
    }
  }

  method StronglyConnected(successors: Graph) returns (components: seq<seq<nat>>)
    requires WellFormed(successors)
    ensures Components(successors, components)
    ensures forall v: nat :: v < |successors| <==> Listed(components, v)
    ensures InOrder(components, RootsOrder(successors, 0, Order([], [])))
  {
    hide VisitOrder, Traced, InOrder;
    var tarjan := new Tarjan(successors);
    for v := 0 to |successors|
      invariant tarjan.Ready() && tarjan.successors == successors && tarjan.open == {}
      invariant forall x :: 0 <= x < v ==> tarjan.Now().Seen(x)
      invariant Traced(tarjan.Now(), tarjan.order)
      invariant RootsOrder(successors, 0, Order([], [])) == RootsOrder(successors, v, tarjan.order)
    {
      TracedMet(tarjan.Now(), tarjan.order, v);
      if tarjan.index[v].None? {
        ghost var s := tarjan.Now();
        tarjan.Visit(v);
        assert forall x :: s.Seen(x) ==> tarjan.Now().Seen(x);
      }
    }
    components := tarjan.components;
    TracedOrder(tarjan.Now(), tarjan.order);
    NothingLeft(successors, tarjan.Now());
    ClosedComponents(successors, components);
  }

  lemma TracedOrder(s: Search, d: Order)
    requires Traced(s, d)
    ensures InOrder(s.components, d)
  {
  }

  lemma NothingLeft(g: Graph, s: Search)
    requires Invariant(g, s) && s.open == {}
    ensures s.stack == []
    ensures forall v: nat :: s.Seen(v) <==> Listed(s.components, v)
  {
    if s.stack != [] { var k := Anchor(g, s, 0); }
  }

  /** A component's vertices are on a cycle exactly when it has more than one, or its one vertex
      leads to itself. */
  lemma CyclicComponent(g: Graph, cs: seq<seq<nat>>, i: nat, v: nat)
    requires Components(g, cs) && i < |cs| && v in cs[i]
    ensures cs[i][0] < |g| || |cs[i]| == 1
    ensures OnCycle(g, v) <==> |cs[i]| > 1 || Edge(g, cs[i][0], cs[i][0])
  {
    var c := cs[i];
    if |c| > 1 {
      var w := if v == c[0] then c[1] else c[0];
      assert c[0] != c[1];
      Leaves(g, v, w);
      Leaves(g, c[0], c[1]);
    } else {
      if OnCycle(g, v) {
        var w :| Edge(g, v, w) && Reach(g, w, v);
        Step(g, v, w);
        assert Mutual(g, v, w);
      }
      Itself(g, v);
    }
  }

  /** A vertex mutually reachable with another one is on a cycle. */
  lemma Leaves(g: Graph, v: nat, w: nat)
    requires v != w && Mutual(g, v, w)
    ensures OnCycle(g, v) && v < |g|
  {
    var p :| IsPath(g, p, v, w);
    assert Edge(g, p[0], p[1]);
    var q := p[1..];
    forall k | 0 <= k < |q| - 1
      ensures Edge(g, q[k], q[k + 1])
    {
      assert Edge(g, p[k + 1], p[k + 2]);
    }
    assert IsPath(g, q, p[1], w);
    Chain(g, p[1], w, v);
  }

  /** `kept` lists, in order, the elements of `cs` at the positions `at`. */
  ghost predicate Selected(cs: seq<seq<nat>>, kept: seq<seq<nat>>, at: seq<nat>) {
    && |at| == |kept|
    && (forall i :: 0 <= i < |at| ==> at[i] < |cs| && kept[i] == cs[at[i]])
    && (forall i, j :: 0 <= i < j < |at| ==> at[i] < at[j])
  }

  lemma SelectedComponents(g: Graph, cs: seq<seq<nat>>, kept: seq<seq<nat>>, at: seq<nat>)
    requires Components(g, cs) && Selected(cs, kept, at)
    ensures Components(g, kept)
  {
    forall i, j, v | 0 <= i < j < |kept| && v in kept[i]
      ensures v !in kept[j]
    {
      assert at[i] < at[j];
    }
    forall i, j, v, w | 0 <= i < |kept| && 0 <= j < |kept| && v in kept[i] && w in kept[j] && Reach(g, v, w)
      ensures j <= i
    {
      assert at[j] <= at[i];
    }
  }

  lemma SelectedOrder(cs: seq<seq<nat>>, kept: seq<seq<nat>>, at: seq<nat>, d: Order)
    requires InOrder(cs, d) && Selected(cs, kept, at)
    ensures InOrder(kept, d)
  {
    hide Before;
  }

  method CyclicComponents(successors: Graph) returns (cyclic: seq<seq<nat>>)
    requires WellFormed(successors)
    ensures Components(successors, cyclic)
    ensures forall v :: Listed(cyclic, v) <==> OnCycle(successors, v)
    ensures InOrder(cyclic, RootsOrder(successors, 0, Order([], [])))
  {
    hide RootsOrder, VisitOrder, EdgesOrder;
    var components := StronglyConnected(successors);
    cyclic := [];
    ghost var at: seq<nat> := [];
    for n := 0 to |components|
      invariant Selected(components[..n], cyclic, at)
      invariant forall j :: 0 <= j < n ==> (j in at <==>
                |components[j]| > 1 || Edge(successors, components[j][0], components[j][0]))
    {
      var c := components[n];
      assert Listed(components, c[0]);
      if |c| > 1 || c[0] in successors[c[0]] {
        cyclic := cyclic + [c];
        at := at + [n];
        assert at[|at| - 1] == n;
      }
      assert components[..n + 1] == components[..n] + [c];
    }
    assert components[..|components|] == components;
    SelectedComponents(successors, components, cyclic, at);
    SelectedOrder(components, cyclic, at, RootsOrder(successors, 0, Order([], [])));
    forall v
      ensures Listed(cyclic, v) <==> OnCycle(successors, v)
    {
      ListedCycles(successors, components, cyclic, at, v);
    }
  }

  lemma ListedCycles(g: Graph, cs: seq<seq<nat>>, kept: seq<seq<nat>>, at: seq<nat>, v: nat)
    requires Components(g, cs) && Selected(cs, kept, at)
    requires forall x: nat :: x < |g| <==> Listed(cs, x)
    requires forall j :: 0 <= j < |cs| ==> (j in at <==> |cs[j]| > 1 || Edge(g, cs[j][0], cs[j][0]))
    ensures Listed(kept, v) <==> OnCycle(g, v)
  {
    if Listed(kept, v) {
      var i :| 0 <= i < |kept| && v in kept[i];
      CyclicComponent(g, cs, at[i], v);
    }
    if OnCycle(g, v) {
      assert Listed(cs, v);
      var j :| 0 <= j < |cs| && v in cs[j];
      CyclicComponent(g, cs, j, v);
      var i :| 0 <= i < |at| && at[i] == j;
      assert v in kept[i];
    }
  }
}
