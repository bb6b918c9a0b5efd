/** The process's branch table and the verbs that change what runs. A compile is an oracle: it
    refuses, or gives a program whose sink consumers are new. */
module BranchTable {
  import opened Options

  datatype Origin = Origin(parent: string, version: nat)

  /** An entry: `sinks` are the consumers its version's outputs feed, `hasMain` whether it has a
      `main` output to pull, `notified` whether that output has something new. */
  datatype Branch = Branch(
    name: string,
    origin: Option<Origin>,
    version: nat,
    history: seq<nat>,
    sinks: set<nat>,
    hasMain: bool,
    notified: bool,
    finished: bool)

  datatype Compiled = Declined | Program(sinks: set<nat>, hasMain: bool)

  datatype Reply = Done(version: nat) | Unknown | Refused

  /** What pulling a branch's output did: whether it finished, and the branches notified meanwhile. */
  datatype Pull = Pull(finished: bool, woken: set<nat>)

  predicate IsBranchName(name: string) {
    name != "" && forall i :: 0 <= i < |name| ==>
      var c := name[i]; 'a' <= c <= 'z' || 'A' <= c <= 'Z' || '0' <= c <= '9' || c == '-' || c == '_'
  }

  // ----- What every verb keeps -----

  /** Every version put into service, in order, as the branch's name and the number. */
  type Record = seq<(string, nat)>

  function LastVersion(record: Record, name: string): nat {
    if record == [] then 0
    else if record[|record| - 1].0 == name then record[|record| - 1].1
    else LastVersion(record[..|record| - 1], name)
  }

  /** Under one name, versions strictly increase. */
  ghost predicate Rising(record: Record) {
    forall i, j :: 0 <= i < j < |record| && record[i].0 == record[j].0 ==> record[i].1 < record[j].1
  }

  ghost predicate Names(branches: seq<Branch>, tombstones: map<string, nat>) {
    && branches != [] && (forall i, j :: 0 <= i < j < |branches| ==> branches[i].name != branches[j].name)
    && (forall i :: 0 <= i < |branches| ==> branches[i].name !in tombstones)
  }

  ghost predicate Versions(branches: seq<Branch>, tombstones: map<string, nat>, record: Record) {
    && Rising(record)
    && (forall i :: 0 <= i < |branches| ==> LastVersion(record, branches[i].name) == branches[i].version)
    && (forall n :: n in tombstones ==> LastVersion(record, n) == tombstones[n])
    && (forall n :: LastVersion(record, n) > 0 ==> n in tombstones || n in Held(branches))
  }

  function Held(branches: seq<Branch>): set<string> {
    set b | b in branches :: b.name
  }

  /** No sink consumer belongs to two entries. */
  ghost predicate Unshared(branches: seq<Branch>, used: set<nat>) {
    && (forall i :: 0 <= i < |branches| ==> branches[i].sinks <= used)
    && (forall i, j :: 0 <= i < j < |branches| ==> branches[i].sinks !! branches[j].sinks)
  }

  ghost predicate Sound(branches: seq<Branch>, tombstones: map<string, nat>, record: Record, used: set<nat>) {
    Names(branches, tombstones) && Versions(branches, tombstones, record) && Unshared(branches, used)
  }

  lemma LastOne(record: Record, name: string, v: nat, n: string)
    ensures LastVersion(record + [(name, v)], n) == if n == name then v else LastVersion(record, n)
  {
    assert (record + [(name, v)])[..|record|] == record;
  }

  lemma {:induction false} LastIsGreatest(record: Record, name: string, k: nat)
    requires Rising(record) && k < |record| && record[k].0 == name
    ensures record[k].1 <= LastVersion(record, name)
  {
    var n := |record| - 1;
    if record[n].0 != name { LastIsGreatest(record[..n], name, k); }
  }

  /** Putting the next version of a name into service. */
  lemma RecordRises(record: Record, name: string)
    requires Rising(record)
    ensures Rising(record + [(name, LastVersion(record, name) + 1)])
  {
    var r := record + [(name, LastVersion(record, name) + 1)];
    forall i, j | 0 <= i < j < |r| && r[i].0 == r[j].0
      ensures r[i].1 < r[j].1
    {
      if j == |record| { LastIsGreatest(record, name, i); }
    }
  }

  /** A version above all that the name has had, whether or not a branch holds it now. */
  ghost predicate New(record: Record, name: string, version: nat) {
    forall k :: 0 <= k < |record| && record[k].0 == name ==> record[k].1 < version
  }

  /** In a sound table, the version after an entry's, or after an absent name's tombstone, is new. */
  lemma NextIsNew(branches: seq<Branch>, tombstones: map<string, nat>, record: Record, used: set<nat>, name: string)
    requires Sound(branches, tombstones, record, used)
    ensures forall i :: 0 <= i < |branches| && branches[i].name == name ==> New(record, name, branches[i].version + 1)
    ensures name !in Held(branches) ==> New(record, name, (if name in tombstones then tombstones[name] else 0) + 1)
  {
    forall k | 0 <= k < |record| && record[k].0 == name ensures record[k].1 <= LastVersion(record, name) {
      LastIsGreatest(record, name, k);
    }
  }

  // ----- Pulling -----

  predicate Pullable(b: Branch) {
    b.hasMain && b.notified && !b.finished
  }

  function Woken(bs: seq<Branch>, woken: set<nat>): (r: seq<Branch>)
    ensures |r| == |bs| && forall i :: 0 <= i < |bs| ==> r[i] == bs[i].(notified := bs[i].notified || i in woken)
  {
    seq(|bs|, i requires 0 <= i < |bs| => bs[i].(notified := bs[i].notified || i in woken))
  }

  /** One branch's turn: the notification is cleared before the pull, so one that arrives during it
      is kept. */
  function Pulled(bs: seq<Branch>, i: nat, p: Pull): (r: seq<Branch>)
    requires i < |bs|
    ensures |r| == |bs|
  {
    if !Pullable(bs[i]) then bs
    else
      var after := Woken(bs[i := bs[i].(notified := false)], p.woken);
      after[i := after[i].(finished := p.finished)]
  }

  /** The turns from the `i`th branch on, in creation order. */
  function PulledFrom(bs: seq<Branch>, i: nat, pull: nat -> Pull): (r: seq<Branch>)
    requires i <= |bs|
    ensures |r| == |bs|
    decreases |bs| - i
  {
    if i == |bs| then bs else PulledFrom(Pulled(bs, i, pull(i)), i + 1, pull)
  }

  /** The branches that are pulled in the turns from the `i`th on. */
  function Turns(bs: seq<Branch>, i: nat, pull: nat -> Pull): set<nat>
    requires i <= |bs|
    decreases |bs| - i
  {
    if i == |bs| then {} else (if Pullable(bs[i]) then {i} else {}) + Turns(Pulled(bs, i, pull(i)), i + 1, pull)
  }

  lemma {:induction false} TurnsAfter(bs: seq<Branch>, i: nat, pull: nat -> Pull)
    requires i <= |bs|
    ensures forall k :: k in Turns(bs, i, pull) ==> i <= k < |bs|
    decreases |bs| - i
  {
    if i < |bs| { TurnsAfter(Pulled(bs, i, pull(i)), i + 1, pull); }
  }

  /** Before its turn a branch keeps a notification; after it, the branch keeps every one that
      arrived in its own turn or a later one. */
  lemma {:induction false} KeptNotifications(bs: seq<Branch>, i: nat, pull: nat -> Pull, j: nat)
    requires i <= |bs| && j < |bs|
    ensures var r, turns := PulledFrom(bs, i, pull), Turns(bs, i, pull);
            && (j in turns ==> (r[j].notified <==> exists k :: k in turns && j <= k && j in pull(k).woken))
            && (j !in turns ==> (r[j].notified <==> bs[j].notified || exists k :: k in turns && j in pull(k).woken))
            && (r[j].finished <==> bs[j].finished || (j in turns && pull(j).finished))
    decreases |bs| - i
  {
    if i < |bs| {
      var next := Pulled(bs, i, pull(i));
      TurnsAfter(next, i + 1, pull);
      KeptNotifications(next, i + 1, pull, j);
    }
  }

  /** A notification that arrives during or after a branch's pull is there for the next one, unless
      the output has finished. */
  lemma NotificationsAnswered(bs: seq<Branch>, pull: nat -> Pull, j: nat, k: nat)
    requires j < |bs| && k in Turns(bs, 0, pull) && j in pull(k).woken && (j in Turns(bs, 0, pull) ==> j <= k)
    ensures var r := PulledFrom(bs, 0, pull); r[j].notified && (bs[j].hasMain ==> Pullable(r[j]) || r[j].finished)
  {
    KeptNotifications(bs, 0, pull, j);
    SameMain(bs, 0, pull, j);
  }

  lemma {:induction false} SameMain(bs: seq<Branch>, i: nat, pull: nat -> Pull, j: nat)
    requires i <= |bs| && j < |bs|
    ensures PulledFrom(bs, i, pull)[j] == bs[j].(notified := PulledFrom(bs, i, pull)[j].notified,
            finished := PulledFrom(bs, i, pull)[j].finished)
    decreases |bs| - i
  {
    if i < |bs| { SameMain(Pulled(bs, i, pull(i)), i + 1, pull, j); }
  }

  /** An entry with its next version installed. */
  function Reloaded(b: Branch, compiled: Compiled): Branch
    requires compiled.Program?
  {
    b.(sinks := compiled.sinks, hasMain := compiled.hasMain, version := b.version + 1,
       history := b.history + [b.version + 1], notified := true, finished := false)
  }

  lemma HeldAt(bs: seq<Branch>, name: string)
    ensures name in Held(bs) <==> exists i :: 0 <= i < |bs| && bs[i].name == name
  {
    if name in Held(bs) {
      var b :| b in bs && b.name == name;
      var i :| 0 <= i < |bs| && bs[i] == b;
    }
  }

  // ----- The table -----

  class LiveProgram {
    var branches: seq<Branch>
    var tombstones: map<string, nat>
    ghost var record: Record
    ghost var used: set<nat>

    ghost predicate Valid()
      reads this
    {
      Sound(branches, tombstones, record, used)
    }

    constructor (program: Compiled)
      requires program.Program?
      ensures Valid() && tombstones == map[] && record == [("main", 1)]
      ensures branches == [Branch("main", None, 1, [1], program.sinks, program.hasMain, false, false)]
    {
      branches := [Branch("main", None, 1, [1], program.sinks, program.hasMain, false, false)];
      tombstones, record, used := map[], [("main", 1)], program.sinks;
    }

    method IndexOf(name: string) returns (at: Option<nat>)
      ensures at.Some? ==> at.value < |branches| && branches[at.value].name == name
      ensures at.None? ==> forall i :: 0 <= i < |branches| ==> branches[i].name != name
    {
      for i := 0 to |branches|
        invariant forall j :: 0 <= j < i ==> branches[j].name != name
      {
        if branches[i].name == name {
          return Some(i);
        }
      }
      return None;
    }

    /** Replaces a branch's version, which starts notified and unfinished, exactly where the table
        holds the name and the program compiles. No other entry changes, and a refusal changes nothing. */
    method Reload(name: string, compiled: Compiled) returns (r: Reply)
      requires Valid() && (compiled.Program? ==> compiled.sinks !! used)
      modifies this
      ensures Valid() && tombstones == old(tombstones)
      ensures r.Done? ==> compiled.Program? && record == old(record) + [(name, r.version)]
      ensures r.Done? ==> exists i :: 0 <= i < |old(branches)| && old(branches)[i].name == name
                                      && r.version == old(branches)[i].version + 1
                                      && branches == old(branches)[i := Branch(name, old(branches)[i].origin, r.version,
                                           old(branches)[i].history + [r.version], compiled.sinks, compiled.hasMain,
                                           true, false)]
      ensures !r.Done? ==> branches == old(branches) && record == old(record)
      ensures r.Unknown? <==> name !in Held(old(branches))
      ensures r.Refused? <==> name in Held(old(branches)) && compiled.Declined?
      ensures r.Done? ==> New(old(record), name, r.version)
    {
      hide Sound, New;
      NextIsNew(branches, tombstones, record, used, name);
      var at := IndexOf(name);
      HeldAt(branches, name);
      if at.None? {
        return Unknown;
      }
      if compiled.Declined? {
        return Refused;
      }
      ReloadSound(branches, tombstones, record, used, at.value, compiled);
      var b := branches[at.value];
      branches := branches[at.value := Reloaded(b, compiled)];
      record := record + [(name, b.version + 1)];
      used := used + compiled.sinks;
      r := Done(b.version + 1);
    }

    /** Creates a branch from another, continuing from the name's tombstone, exactly where the name is
        a free branch name, the table holds the parent and the program compiles. */
    method CreateBranch(name: string, parent: string, compiled: Compiled) returns (r: Reply)
      requires Valid() && (compiled.Program? ==> compiled.sinks !! used)
      modifies this
      ensures Valid()
      ensures !r.Done? ==> branches == old(branches) && tombstones == old(tombstones) && record == old(record)
      ensures r.Done? ==> compiled.Program? && record == old(record) + [(name, r.version)]
      ensures r.Done? ==> tombstones == old(tombstones) - {name}
      ensures r.Done? ==> exists i :: 0 <= i < |old(branches)| && old(branches)[i].name == parent
                                      && branches == old(branches)
                                         + [Branch(name, Some(Origin(parent, old(branches)[i].version)), r.version,
                                                   [r.version], compiled.sinks, compiled.hasMain, true, false)]
      ensures r.Refused? <==> !IsBranchName(name) || name in Held(old(branches))
                              || (parent in Held(old(branches)) && compiled.Declined?)
      ensures r.Unknown? <==> IsBranchName(name) && name !in Held(old(branches)) && parent !in Held(old(branches))
      ensures r.Done? ==> r.version == (if name in old(tombstones) then old(tombstones)[name] else 0) + 1
      ensures r.Done? ==> New(old(record), name, r.version)
    {
      hide Sound, New;
      NextIsNew(branches, tombstones, record, used, name);
      HeldAt(branches, name);
      HeldAt(branches, parent);
      if !IsBranchName(name) {
        return Refused;
      }
      var at := IndexOf(name);
      if at.Some? {
        return Refused;
      }
      var from := IndexOf(parent);
      if from.None? {
        return Unknown;
      }
      if compiled.Declined? {
        return Refused;
      }
      var p := branches[from.value];
      var version := (if name in tombstones then tombstones[name] else 0) + 1;
      var b := Branch(name, Some(Origin(p.name, p.version)), version, [version], compiled.sinks, compiled.hasMain,
          true, false);
      CreateSound(branches, tombstones, record, used, b);
      tombstones := tombstones - {name};
      branches := branches + [b];
      record := record + [(name, version)];
      used := used + compiled.sinks;
      r := Done(version);
    }

    /** Deletes a branch and leaves its tombstone. The last branch stays. */
    method DeleteBranch(name: string) returns (r: Reply)
      requires Valid()
      modifies this
      ensures Valid() && record == old(record)
      ensures !r.Done? ==> branches == old(branches) && tombstones == old(tombstones)
      ensures r.Done? ==> tombstones == old(tombstones)[name := r.version]
      ensures r.Done? ==> exists i :: 0 <= i < |old(branches)| && old(branches)[i].name == name
                                      && r.version == old(branches)[i].version
                                          && branches == old(branches)[..i] + old(branches)[i + 1..]
      ensures r.Unknown? <==> name !in Held(old(branches))
      ensures r.Refused? <==> name in Held(old(branches)) && |old(branches)| == 1
    {
      hide Sound;
      HeldAt(branches, name);
      var at := IndexOf(name);
      if at.None? {
        return Unknown;
      }
      if |branches| == 1 {
        return Refused;
      }
      var i := at.value;
      var version := branches[i].version;
      DeleteSound(branches, tombstones, record, used, i);
      branches := branches[..i] + branches[i + 1..];
      tombstones := tombstones[name := version];
      r := Done(version);
    }

    /** A branch's `main` output has something new. */
    method Notify(i: nat)
      requires Valid() && i < |branches|
      modifies this`branches
      ensures Valid() && branches == old(branches)[i := old(branches)[i].(notified := true)]
    {
      SameEntries(branches, branches[i := branches[i].(notified := true)], tombstones, record, used);
      branches := branches[i := branches[i].(notified := true)];
    }

    /** Pulls every branch's `main` output that has something new, in creation order. */
    method PullMains(pull: nat -> Pull) returns (pulled: bool)
      requires Valid()
      modifies this`branches
      ensures Valid() && branches == PulledFrom(old(branches), 0, pull)
              && pulled == (Turns(old(branches), 0, pull) != {})
    {
      hide Sound;
      ghost var was := branches;
      pulled := false;
      ghost var turns := {};
      for i := 0 to |branches|
        invariant |branches| == |was| && Valid()
        invariant PulledFrom(branches, i, pull) == PulledFrom(was, 0, pull)
        invariant turns + Turns(branches, i, pull) == Turns(was, 0, pull) && pulled == (turns != {})
      {
        ghost var own := if Pullable(branches[i]) then {i} else {};
        assert turns + (own + Turns(Pulled(branches, i, pull(i)), i + 1, pull)) == (turns + own)
            + Turns(Pulled(branches, i, pull(i)), i + 1, pull);
        turns := turns + own;
        var answered := PullOne(i, pull(i));
        pulled := pulled || answered;
      }
      assert turns + {} == turns;
    }

    method PullOne(i: nat, answer: Pull) returns (pulled: bool)
      requires Valid() && i < |branches|
      modifies this`branches
      ensures Valid() && branches == Pulled(old(branches), i, answer) && pulled == Pullable(old(branches)[i])
    {
      hide Sound;
      var b := branches[i];
      if b.finished || !b.notified || !b.hasMain {
        return false;
      }
      ghost var was := branches;
      branches := branches[i := b.(notified := false)];
      branches := Woken(branches, answer.woken);
      branches := branches[i := branches[i].(finished := answer.finished)];
      SameEntries(was, branches, tombstones, record, used);
      pulled := true;
    }
  }

  // ----- Each verb keeps the table sound -----

  /** What the table's soundness reads of an entry. */
  lemma SameEntries(a: seq<Branch>, b: seq<Branch>, tombstones: map<string, nat>, record: Record, used: set<nat>)
    requires Sound(a, tombstones, record, used) && |a| == |b|
    requires forall i :: 0 <= i < |a| ==> b[i] == a[i].(notified := b[i].notified, finished := b[i].finished)
    ensures Sound(b, tombstones, record, used)
  {
    SameHeld(a, b);
    hide Held, LastVersion;
  }

  lemma SameHeld(a: seq<Branch>, b: seq<Branch>)
    requires |a| == |b| && forall i :: 0 <= i < |a| ==> b[i].name == a[i].name
    ensures Held(a) == Held(b)
  {
    forall n ensures n in Held(a) <==> n in Held(b) {
      HeldAt(a, n);
      HeldAt(b, n);
      if n in Held(a) {
        var i :| 0 <= i < |a| && a[i].name == n;
        assert b[i].name == n;
      }
      if n in Held(b) {
        var i :| 0 <= i < |b| && b[i].name == n;
        assert a[i].name == n;
      }
    }
  }

  lemma ReloadSound(bs: seq<Branch>, tombstones: map<string, nat>, record: Record, used: set<nat>, at: nat,
          compiled: Compiled)
    requires Sound(bs, tombstones, record, used) && at < |bs| && compiled.Program? && compiled.sinks !! used
    ensures Sound(bs[at := Reloaded(bs[at], compiled)], tombstones, record + [(bs[at].name, bs[at].version + 1)],
            used + compiled.sinks)
  {
    ReloadVersions(bs, tombstones, record, at, compiled);
    ReplacedUnshared(bs, used, at, Reloaded(bs[at], compiled));
    hide Versions, Unshared;
  }

  lemma ReloadVersions(bs: seq<Branch>, tombstones: map<string, nat>, record: Record, at: nat, compiled: Compiled)
    requires Names(bs, tombstones) && Versions(bs, tombstones, record) && at < |bs| && compiled.Program?
    ensures Versions(bs[at := Reloaded(bs[at], compiled)], tombstones, record + [(bs[at].name, bs[at].version + 1)])
  {
    var b, after := bs[at], bs[at := Reloaded(bs[at], compiled)];
    RecordRises(record, b.name);
    SameHeld(bs, after);
    HeldAt(bs, b.name);
    hide Held, Rising;
    assert Held(after) == Held(bs) + {b.name} && tombstones == tombstones - {b.name};
    VersionsOne(bs, after, tombstones, tombstones, record, b.name, b.version + 1);
  }

  lemma ReplacedUnshared(bs: seq<Branch>, used: set<nat>, at: nat, b: Branch)
    requires Unshared(bs, used) && at < |bs| && b.sinks !! used
    ensures Unshared(bs[at := b], used + b.sinks)
  {
    var after := bs[at := b];
    forall i, j | 0 <= i < j < |after|
      ensures after[i].sinks !! after[j].sinks
    {
      assert bs[i].sinks <= used && bs[j].sinks <= used;
    }
  }

  /** The record of a table whose entry under `name` has the new version. */
  lemma VersionsOne(a: seq<Branch>, b: seq<Branch>, ta: map<string, nat>, tb: map<string, nat>, record: Record,
          name: string, v: nat)
    requires Versions(a, ta, record) && Rising(record + [(name, v)]) && tb == ta - {name} && Held(b) == Held(a) + {name}
    requires forall i :: 0 <= i < |b| ==>
               if b[i].name == name then b[i].version == v else LastVersion(record, b[i].name) == b[i].version
    ensures Versions(b, tb, record + [(name, v)])
  {
    hide Held;
    forall n ensures LastVersion(record + [(name, v)], n) == if n == name then v else LastVersion(record, n) {
      LastOne(record, name, v, n);
    }
    hide LastVersion, Rising;
  }

  lemma CreateSound(bs: seq<Branch>, tombstones: map<string, nat>, record: Record, used: set<nat>, b: Branch)
    requires Sound(bs, tombstones, record, used) && b.sinks !! used && b.name !in Held(bs)
    requires b.version == (if b.name in tombstones then tombstones[b.name] else 0) + 1
    ensures Sound(bs + [b], tombstones - {b.name}, record + [(b.name, b.version)], used + b.sinks)
  {
    CreateVersions(bs, tombstones, record, b);
    AddedUnshared(bs, used, b);
    NotHeld(bs, b.name);
    hide Versions, Unshared, Held;
  }

  lemma NotHeld(bs: seq<Branch>, name: string)
    requires name !in Held(bs)
    ensures forall i :: 0 <= i < |bs| ==> bs[i].name != name
  {
    HeldAt(bs, name);
  }

  lemma CreateVersions(bs: seq<Branch>, tombstones: map<string, nat>, record: Record, b: Branch)
    requires Versions(bs, tombstones, record) && b.name !in Held(bs)
    requires b.version == (if b.name in tombstones then tombstones[b.name] else 0) + 1
    ensures Versions(bs + [b], tombstones - {b.name}, record + [(b.name, b.version)])
  {
    RecordRises(record, b.name);
    assert Held(bs + [b]) == Held(bs) + {b.name};
    NotHeld(bs, b.name);
    hide Held, Rising;
    VersionsOne(bs, bs + [b], tombstones, tombstones - {b.name}, record, b.name, b.version);
  }

  lemma AddedUnshared(bs: seq<Branch>, used: set<nat>, b: Branch)
    requires Unshared(bs, used) && b.sinks !! used
    ensures Unshared(bs + [b], used + b.sinks)
  {
    var after := bs + [b];
    forall i, j | 0 <= i < j < |after|
      ensures after[i].sinks !! after[j].sinks
    {
      assert bs[i].sinks <= used;
    }
  }

  lemma DeleteSound(bs: seq<Branch>, tombstones: map<string, nat>, record: Record, used: set<nat>, at: nat)
    requires Sound(bs, tombstones, record, used) && at < |bs| && |bs| > 1
    ensures Sound(bs[..at] + bs[at + 1..], tombstones[bs[at].name := bs[at].version], record, used)
  {
    Rest(bs, at);
    DeleteVersions(bs, tombstones, record, at);
    hide Versions;
  }

  lemma Rest(bs: seq<Branch>, at: nat)
    requires at < |bs|
    ensures var rest := bs[..at] + bs[at + 1..];
            |rest| == |bs| - 1 && forall i :: 0 <= i < |rest| ==> rest[i] == if i < at then bs[i] else bs[i + 1]
  {
  }

  lemma DeleteVersions(bs: seq<Branch>, tombstones: map<string, nat>, record: Record, at: nat)
    requires Versions(bs, tombstones, record) && at < |bs|
    ensures Versions(bs[..at] + bs[at + 1..], tombstones[bs[at].name := bs[at].version], record)
  {
    Rest(bs, at);
    HeldLess(bs, at);
    hide Held, LastVersion, Rising;
  }

  lemma HeldLess(bs: seq<Branch>, at: nat)
    requires at < |bs|
    ensures Held(bs) == Held(bs[..at] + bs[at + 1..]) + {bs[at].name}
  {
    assert bs == bs[..at] + [bs[at]] + bs[at + 1..];
    var rest := bs[..at] + bs[at + 1..];
    assert forall b :: b in bs <==> b in rest || b == bs[at];
  }
}
