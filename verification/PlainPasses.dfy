/** The driver's answer, said of what programs mean: it is the sinks of the one assignment of contents
    to channels that the program, run plainly on it, builds again. */
module PlainPasses {
  import opened Options
  import opened InterpSyntax
  import opened InterpValues
  import opened InterpEval
  import opened InterpClean
  import opened InterpPasses
  import opened PlainRelation
  import opened PlainSteps
  import opened PlainRuns
  import Equality = ValueEquality
  import Operators = OperatorMeaning
  import P = PlainMeaning

  /** The program run plainly, on these contents. */
  ghost function PlainPass(p: Program, x: Contents, fuel: nat): P.Run<(P.Flow, P.World)> {
    var scope := map k | k in ChannelSet(p) :: P.Chan(k);
    var outlets := map k | k in ChannelSet(p) :: P.Outlet([], None, if k in p.sites then p.sites[k] else []);
    P.ExecuteAll(p.body, P.Place(scope, x, TextFed(p), [], []), P.World([], outlets, 0, None, []), fuel)
  }

  /** What its channels hold in the end. */
  ghost function PlainBuilt(p: Program, w: P.World): Contents {
    map k | k in ChannelSet(p) && P.Held(w.OutletOf(k)).Some? :: P.Held(w.OutletOf(k)).value
  }

  /** Every read is answered, and the channels hold again what was read. */
  ghost predicate Rebuilds(p: Program, x: Contents, fuel: nat) {
    var r := PlainPass(p, x, fuel);
    r.Got? && PlainBuilt(p, r.value.1) == x
  }

  // ----- Channels -----

  lemma {:induction false} RankIs(sites: seq<Site>, s: Site)
    ensures P.PlaceAmong(sites, s, SiteIndex(sites, s)) && P.Rank(sites, s) == SiteIndex(sites, s)
  {
    IndexIs(sites, s);
    var n := P.Rank(sites, s);
    assert P.PlaceAmong(sites, s, n);
    PlacedOnce(sites, s, n, SiteIndex(sites, s));
  }

  lemma {:induction false} IndexIs(sites: seq<Site>, s: Site)
    ensures P.PlaceAmong(sites, s, SiteIndex(sites, s))
  {
    if |sites| > 0 {
      if sites[0] == s {
        assert s !in sites[..0];
      } else {
        IndexIs(sites[1..], s);
        var n := SiteIndex(sites[1..], s);
        assert sites == [sites[0]] + sites[1..];
        if n < |sites| - 1 { assert sites[..n + 1] == [sites[0]] + sites[1..][..n]; }
      }
    }
  }

  lemma {:induction false} PlacedOnce(sites: seq<Site>, s: Site, m: nat, n: nat)
    requires P.PlaceAmong(sites, s, m) && P.PlaceAmong(sites, s, n)
    ensures m == n
  {
    if m < n && n < |sites| { NotBefore(sites, s, m, n); }
    if n < m && m < |sites| { NotBefore(sites, s, n, m); }
  }

  lemma {:induction false} NotBefore(sites: seq<Site>, s: Site, m: nat, n: nat)
    requires m < n <= |sites| && s !in sites[..n]
    ensures sites[m] != s
  {
    assert sites[..n][m] == sites[m];
  }

  lemma {:induction false} HeldMeans(ch: Channel, o: P.Outlet)
    requires ChannelMeans(ch, o)
    ensures Complete(ch) == Some(match P.Held(o) case Some(v) => Ok(v) case None => Err(Refused))
  {
    hide Operators.Gathered, Collection, Equality.Digits, SiteIndex, P.Rank;
    assert !Undecided(ch);
    if o.defined.None? {
      var entries := seq(|o.fed|, i requires 0 <= i < |o.fed| =>
        (if |o.sites| > 1 then Variant(Equality.Digits(P.Rank(o.sites, o.fed[i].site)), o.fed[i].key) else o.fed[i].key,
         o.fed[i].value));
      forall i | 0 <= i < |o.fed| ensures Entries(ch)[i] == entries[i] {
        assert FedMeans(ch.fed[i], o.fed[i]);
        RankIs(o.sites, o.fed[i].site);
      }
      assert Entries(ch) == entries;
      GatheredMeans(entries);
    }
  }

  // ----- A pass -----

  lemma {:induction false} InitialFlat(channels: seq<string>)
    ensures var ks := set i | 0 <= i < |channels| :: channels[i];
            ScopeMeans(InitialEnv(channels), map k | k in ks :: P.Chan(k))
  {
    if |channels| > 0 {
      var n := |channels| - 1;
      InitialFlat(channels[..n]);
      var ks := set i | 0 <= i < |channels| :: channels[i];
      var ls := set i | 0 <= i < n :: channels[..n][i];
      assert ks == ls + {channels[n]} by {
        forall k | k in ks ensures k in ls + {channels[n]} {
          var i :| 0 <= i < |channels| && channels[i] == k;
          if i < n { assert channels[..n][i] == k; }
        }
        forall k | k in ls ensures k in ks {
          var i :| 0 <= i < n && channels[..n][i] == k;
          assert channels[i] == k;
        }
      }
      assert (map k | k in ks :: P.Chan(k)) == (map k | k in ls :: P.Chan(k))[channels[n] := P.Chan(channels[n])];
    }
  }

  lemma {:induction false} InitialMeans(p: Program)
    ensures var outlets := map k | k in ChannelSet(p) :: P.Outlet([], None, if k in p.sites then p.sites[k] else []);
            Means(InitialState(p), P.World([], outlets, 0, None, []), [])
  {
    var outlets := map k | k in ChannelSet(p) :: P.Outlet([], None, if k in p.sites then p.sites[k] else []);
    var st, w := InitialState(p), P.World([], outlets, 0, None, []);
    forall k ensures ChannelMeans(ChannelOf(st, k), w.OutletOf(k)) {}
  }

  lemma {:induction false} BuiltMeans(p: Program, st: State, w: P.World)
    requires Means(st, w, [])
    ensures Built(p, st) == PlainBuilt(p, w)
  {
    hide Complete, P.Held;
    forall k ensures Complete(ChannelOf(st, k))
        == Some(match P.Held(w.OutletOf(k)) case Some(v) => Ok(v) case None => Err(Refused)) {
      assert ChannelMeans(ChannelOf(st, k), w.OutletOf(k));
      HeldMeans(ChannelOf(st, k), w.OutletOf(k));
    }
  }

  /** A pass is the plain run on the contents it reads: it waits exactly where the plain run has no
      answer, it fails as the plain run fails, and it builds what the plain run builds. */
  lemma {:induction false} PassMeans(p: Program, x: Contents, fuel: nat)
    ensures var d := RunPass(p, x, fuel);
            match PlainPass(p, x, fuel)
            case Got((_, w)) => d.r.Ok? && d.st.waited == {} && Built(p, d.st) == PlainBuilt(p, w)
            case Fails(e) => d.r == Err(e) && d.st.waited == {}
            case Unanswered => d.st.waited != {}
  {
    hide ExecRaw, EvalRaw, ExecStmts, P.ExecuteAll;
    InitialFlat(p.channels);
    InitialMeans(p);
    var scope := map k | k in ChannelSet(p) :: P.Chan(k);
    var outlets := map k | k in ChannelSet(p) :: P.Outlet([], None, if k in p.sites then p.sites[k] else []);
    var at, w := P.Place(scope, x, TextFed(p), [], []), P.World([], outlets, 0, None, []);
    assert At(PassCtx(p, x), at);
    ExecStmtsMeans(p.body, PassCtx(p, x), InitialState(p), at, w, [], fuel);
    var d, r := RunPass(p, x, fuel), PlainPass(p, x, fuel);
    if r.Got? {
      MeansWaits(d.st, r.value.1, []);
      BuiltMeans(p, d.st, r.value.1);
    }
  }

  /** An assignment is self-consistent exactly if the plain run on it builds it. */
  lemma {:induction false} ConsistentMeans(p: Program, x: Contents, fuel: nat)
    ensures SelfConsistent(p, x, fuel) <==> Rebuilds(p, x, fuel)
  {
    hide RunPass, PlainPass, Built, PlainBuilt;
    PassMeans(p, x, fuel);
  }

  /** The driver's answer, for calm programs and for runs that cut no loop short. */
  lemma {:induction false} AnswerMeans(p: Program, fuel: nat)
    requires (Calm(p) || LoopsSettle(p, map[], fuel)) && RunFrom(p, map[], fuel).Answer?
    ensures exists x :: && Rebuilds(p, x, fuel) && (forall y | Rebuilds(p, y, fuel) :: y == x)
                        && RunFrom(p, map[], fuel).sinks == map k | k in x && k in p.sinks :: x[k]
  {
    hide RunFrom, LoopsSettle, Calm, Rebuilds, SelfConsistent, LastBuilt;
    DriverAnswers(p, fuel);
    var x := LastBuilt(p, map[], fuel);
    ConsistentMeans(p, x, fuel);
    forall y | Rebuilds(p, y, fuel) ensures y == x { ConsistentMeans(p, y, fuel); }
  }
}
