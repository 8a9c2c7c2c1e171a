/** How many versions concurrent prunes can cost an object: for any versions there is a run that leaves just those
    which `PruneRuns.NewestSurvive` guarantees, and with ties these are fewer than the policy keeps.
  */
module PruneTies {
  import opened Prelude
  import opened Domain
  import opened PruneVersions
  import opened PruneRuns

  /** The versions of an object, by when they were made. */
  datatype Group = Group(p: RetentionPolicy, objectId: Str, stamps: map<BlobId, Timestamp>) {
    function Made(b: BlobId): Manifest
      requires b in stamps
    {
      Manifest(b, [], ErasureParams(1, 1), [], 0, stamps[b], None, Some(objectId))
    }

    ghost function Guaranteed(): set<BlobId> { NewestOf(stamps.Keys, stamps, p.keepVersions) }
  }

  // ---- Orders, newest first ----

  ghost predicate Ordered(order: seq<BlobId>, stamps: map<BlobId, Timestamp>) {
    && Distinct(order) && (forall b :: b in order ==> b in stamps)
    && forall i, j :: 0 <= i < j < |order| ==> stamps[order[i]] >= stamps[order[j]]
  }

  ghost predicate Lists(order: seq<BlobId>, blobs: set<BlobId>) { forall b :: b in order <==> b in blobs }

  lemma {:induction false} Order(blobs: set<BlobId>, stamps: map<BlobId, Timestamp>) returns (order: seq<BlobId>)
    requires blobs <= stamps.Keys
    ensures Ordered(order, stamps) && Lists(order, blobs) && |order| == |blobs|
    decreases blobs
  {
    if blobs == {} {
      order := [];
    } else {
      var oldest := Oldest(blobs, stamps);
      var rest := Order(blobs - {oldest}, stamps);
      order := rest + [oldest];
      assert forall i :: 0 <= i < |rest| ==> rest[i] in rest;
    }
  }

  /** An order with the blob behind all that are as new. */
  lemma LateOrder(blobs: set<BlobId>, stamps: map<BlobId, Timestamp>, v: BlobId) returns (order: seq<BlobId>)
    requires blobs <= stamps.Keys && v in blobs
    ensures Ordered(order, stamps) && Lists(order, blobs)
    ensures |NewerIn(blobs, stamps, v)| < |order| && order[|NewerIn(blobs, stamps, v)|] == v
  {
    var newer := NewerIn(blobs, stamps, v);
    var older := set b | b in blobs && stamps[b] < stamps[v];
    var front := Order(newer, stamps);
    var back := Order(older, stamps);
    order := front + [v] + back;
    Joined(front, v, back, stamps);
  }

  lemma Joined(front: seq<BlobId>, v: BlobId, back: seq<BlobId>, stamps: map<BlobId, Timestamp>)
    requires Ordered(front, stamps) && Ordered(back, stamps) && v in stamps
    requires forall b :: b in front ==> b != v && stamps[b] >= stamps[v]
    requires forall b :: b in back ==> stamps[b] < stamps[v]
    ensures Ordered(front + [v] + back, stamps)
  {
    var order := front + [v] + back;
    var n := |front|;
    forall i | 0 <= i < |order|
      ensures order[i] == if i < n then front[i] else if i == n then v else back[i - n - 1]
      ensures i < n ==> order[i] in front
      ensures i > n ==> order[i] in back
    {
      assert i > n ==> back[i - n - 1] in back;
    }
  }

  // ---- Steps ----

  ghost predicate PruneReaches(p: RetentionPolicy, s: PruneState) { exists events :: PruneAfter(p, events) == s }

  lemma PruneGo(p: RetentionPolicy, s: PruneState, e: PruneEvent)
    requires PruneReaches(p, s)
    ensures PruneReaches(p, PruneStep(p, s, e))
  {
    hide PruneStep;
    var events :| PruneAfter(p, events) == s;
    assert (events + [e])[..|events|] == events;
    assert PruneAfter(p, events + [e]) == PruneStep(p, s, e);
  }

  lemma ReadIs(p: RetentionPolicy, s: PruneState, pid: nat, blob: BlobId, rest: seq<BlobId>, found: seq<Manifest>)
    requires blob in s.manifests && s.manifests[blob].objectId.Some?
    requires
      var objectId := s.manifests[blob].objectId.value;
      pid in s.prunes && s.prunes[pid] == Collecting(objectId, [blob] + rest, found)
    ensures
      var objectId := s.manifests[blob].objectId.value;
      PruneStep(p, s, PruneRead(pid))
      == s.(prunes := s.prunes[pid := Collecting(objectId, rest, found + [s.manifests[blob]])])
  {
    hide Descending;
    assert ([blob] + rest)[1..] == rest;
  }

  lemma ListedIs(p: RetentionPolicy, s: PruneState, pid: nat, objectId: Str, blobs: seq<BlobId>)
    requires pid !in s.prunes && Distinct(blobs) && Lists(blobs, s.manifests.Keys)
    ensures PruneStep(p, s, PruneListed(pid, objectId, blobs))
         == s.(prunes := s.prunes[pid := Collecting(objectId, blobs, [])])
  {
    assert forall b :: b in s.manifests <==> b in s.manifests.Keys;
  }

  lemma SortedIs(p: RetentionPolicy, s: PruneState, pid: nat, versions: seq<Manifest>)
    requires pid in s.prunes && s.prunes[pid].Collecting? && s.prunes[pid].todo == []
    requires s.prunes[pid].found == versions && Descending(versions) && p.keepVersions > 0
    ensures PruneStep(p, s, PruneSorted(pid, versions))
         == s.(prunes := s.prunes[pid := Removing(s.prunes[pid].objectId, versions, s.now, 0)])
  {
    hide Descending;
  }

  lemma NextIs(p: RetentionPolicy, s: PruneState, pid: nat)
    requires pid in s.prunes && s.prunes[pid].Removing? && s.prunes[pid].next < |s.prunes[pid].versions|
    ensures
      var t := s.prunes[pid];
      var m, passed := t.versions[t.next], s.(prunes := s.prunes[pid := t.(next := t.next + 1)]);
      PruneStep(p, s, PruneNext(pid)) ==
        if t.next >= p.keepVersions && p.HoldElapsed(m.createdAt, t.at)
        then passed.(manifests := s.manifests - {m.blobId}, removed := s.removed + {(t.objectId, m.blobId)})
        else passed
  {
    hide Descending;
  }

  // ---- The versions are made ----

  /** By then all holds are over. */
  ghost predicate Late(g: Group, now: Timestamp) {
    forall b :: b in g.stamps ==> g.stamps[b] <= now && g.p.HoldElapsed(g.stamps[b], now)
  }

  lemma {:induction false} LateTime(g: Group, blobs: set<BlobId>) returns (now: Timestamp)
    requires blobs <= g.stamps.Keys
    ensures forall b :: b in blobs ==> g.stamps[b] <= now && g.p.HoldElapsed(g.stamps[b], now)
  {
    if blobs == {} {
      now := 0;
    } else {
      var b :| b in blobs;
      var rest := LateTime(g, blobs - {b});
      now := rest + g.stamps[b] + g.p.minDays * DAY_MS;
      forall x | x in blobs
        ensures g.stamps[x] <= now && g.p.HoldElapsed(g.stamps[x], now)
      {
        if x != b {
          assert x in blobs - {b};
          HoldMonotone(g.p, g.stamps[x], g.stamps[x], rest, now);
        }
      }
    }
  }

  /** So many of them listed, and nothing else going on. */
  ghost function Listed(g: Group, blobs: set<BlobId>, now: Timestamp): PruneState
    requires blobs <= g.stamps.Keys
  {
    PruneState(now, map b | b in blobs :: g.Made(b), map[], map[], map b | b in blobs :: g.stamps[b],
      set b | b in blobs :: (g.objectId, b), {})
  }

  lemma {:induction false} AllListed(g: Group, blobs: set<BlobId>, now: Timestamp)
    requires blobs <= g.stamps.Keys && forall b :: b in blobs ==> g.stamps[b] <= now
    ensures PruneReaches(g.p, Listed(g, blobs, now))
    decreases blobs
  {
    if blobs == {} {
      assert PruneAfter(g.p, []) == EMPTY;
      PruneGo(g.p, EMPTY, Passed(now));
      assert PruneStep(g.p, EMPTY, Passed(now)) == Listed(g, {}, now);
    } else {
      var b :| b in blobs;
      AllListed(g, blobs - {b}, now);
      PruneGo(g.p, Listed(g, blobs - {b}, now), Published(g.Made(b)));
      OneMore(g, blobs, b, now);
    }
  }

  lemma OneMore(g: Group, blobs: set<BlobId>, b: BlobId, now: Timestamp)
    requires blobs <= g.stamps.Keys && b in blobs && g.stamps[b] <= now
    ensures PruneStep(g.p, Listed(g, blobs - {b}, now), Published(g.Made(b))) == Listed(g, blobs, now)
  {
    var s, s' := Listed(g, blobs - {b}, now), Listed(g, blobs, now);
    assert s.manifests[b := g.Made(b)] == s'.manifests;
    assert s.stamps[b := g.stamps[b]] == s'.stamps;
    assert s.tagged + {(g.objectId, b)} == s'.tagged;
    hide CollectStep, RemoveStep;
  }

  // ---- Prunes that have read and sorted ----

  function Versions(g: Group, order: seq<BlobId>): (versions: seq<Manifest>)
    requires forall b :: b in order ==> b in g.stamps
    ensures |versions| == |order| && forall i :: 0 <= i < |order| ==> versions[i] == g.Made(order[i])
  {
    seq(|order|, i requires 0 <= i < |order| => g.Made(order[i]))
  }

  lemma {:induction false} ReadsOn(g: Group, s: PruneState, pid: nat, order: seq<BlobId>, j: nat)
    requires forall b :: b in order ==> b in g.stamps && b in s.manifests && s.manifests[b] == g.Made(b)
    requires j <= |order| && PruneReaches(g.p, s.(prunes := s.prunes[pid := Collecting(g.objectId, order, [])]))
    ensures
      var t := Collecting(g.objectId, order[j..], Versions(g, order)[..j]);
      PruneReaches(g.p, s.(prunes := s.prunes[pid := t]))
  {
    hide *;
    if j == 0 {
      assert order[0..] == order && Versions(g, order)[..0] == [];
    } else {
      MadeFor(g, order[j - 1]);
      ReadsOn(g, s, pid, order, j - 1);
      var versions, blob := Versions(g, order), order[j - 1];
      var s' := s.(prunes := s.prunes[pid := Collecting(g.objectId, order[j - 1..], versions[..j - 1])]);
      assert order[j - 1..] == [blob] + order[j..] && versions[..j] == versions[..j - 1] + [versions[j - 1]];
      assert blob in order;
      PruneGo(g.p, s', PruneRead(pid));
      ReadIs(g.p, s', pid, blob, order[j..], versions[..j - 1]);
      assert s.prunes[pid := s'.prunes[pid]][pid := Collecting(g.objectId, order[j..], versions[..j])]
          == s.prunes[pid := Collecting(g.objectId, order[j..], versions[..j])];
    }
  }

  lemma MadeFor(g: Group, b: BlobId)
    requires b in g.stamps
    ensures
      var m := g.Made(b);
      m.objectId == Some(g.objectId) && m.blobId == b && m.createdAt == g.stamps[b]
  {}

  lemma OrderIn(g: Group, order: seq<BlobId>)
    requires Ordered(order, g.stamps)
    ensures forall b :: b in order ==> b in g.stamps
  {}

  lemma VersionsDescend(g: Group, order: seq<BlobId>)
    requires Ordered(order, g.stamps)
    ensures Descending(Versions(g, order))
  {}

  /** One more prune, about to go over the versions in this order. */
  lemma Sorts(g: Group, s: PruneState, pid: nat, order: seq<BlobId>)
    requires PruneReaches(g.p, s) && pid !in s.prunes && g.p.keepVersions > 0
    requires Ordered(order, g.stamps) && Lists(order, s.manifests.Keys)
    requires forall b :: b in order ==> s.manifests[b] == g.Made(b)
    ensures PruneReaches(g.p, s.(prunes := s.prunes[pid := Removing(g.objectId, Versions(g, order), s.now, 0)]))
  {
    hide PruneReaches, PruneStep;
    var versions, n := Versions(g, order), |order|;
    PruneGo(g.p, s, PruneListed(pid, g.objectId, order));
    ListedIs(g.p, s, pid, g.objectId, order);
    ReadsOn(g, s, pid, order, n);
    assert order[n..] == [] && versions[..n] == versions;
    var s' := s.(prunes := s.prunes[pid := Collecting(g.objectId, [], versions)]);
    VersionsDescend(g, order);
    PruneGo(g.p, s', PruneSorted(pid, versions));
    SortedIs(g.p, s', pid, versions);
    assert s.prunes[pid := s'.prunes[pid]][pid := Removing(g.objectId, versions, s.now, 0)]
        == s.prunes[pid := Removing(g.objectId, versions, s.now, 0)];
  }

  /** The prune will go over all versions, the given one behind the first `keepVersions`. */
  ghost predicate Targets(g: Group, t: Prune, now: Timestamp, v: BlobId) {
    exists order ::
      && Ordered(order, g.stamps) && t == Removing(g.objectId, Versions(g, order), now, 0)
      && exists i :: g.p.keepVersions <= i < |order| && order[i] == v
  }

  /** Only versions of the object, each listed or removed by one of its prunes. */
  ghost predicate Leaving(g: Group, s: PruneState, now: Timestamp) {
    && s.now == now && s.stamps == g.stamps && s.tagged == (set b | b in g.stamps :: (g.objectId, b))
    && (forall b :: b in s.manifests ==> b in g.stamps && s.manifests[b] == g.Made(b))
    && (forall b :: b in g.stamps ==> b in s.manifests || (g.objectId, b) in s.removed)
  }

  /** A prune for each of the first k versions that are not guaranteed to stay. */
  lemma {:induction false} Staged(g: Group, now: Timestamp, lost: seq<BlobId>, k: nat) returns (s: PruneState)
    requires Late(g, now) && g.p.keepVersions > 0 && k <= |lost|
    requires forall v :: v in lost ==> v in g.stamps.Keys - g.Guaranteed()
    ensures PruneReaches(g.p, s) && Leaving(g, s, now) && s.manifests.Keys == g.stamps.Keys
    ensures forall i :: i in s.prunes <==> 0 <= i < k
    ensures forall i :: 0 <= i < k ==> Targets(g, s.prunes[i], now, lost[i])
  {
    if k == 0 {
      s := Listed(g, g.stamps.Keys, now);
      AllListed(g, g.stamps.Keys, now);
    } else {
      var before := Staged(g, now, lost, k - 1);
      assert lost[k - 1] in lost;
      hide PruneReaches, Late, Targets, Group.Guaranteed;
      s := StagesOne(g, before, now, k - 1, lost[k - 1]);
    }
  }

  /** One more prune, with this target. */
  lemma StagesOne(g: Group, s: PruneState, now: Timestamp, pid: nat, v: BlobId) returns (s': PruneState)
    requires PruneReaches(g.p, s) && Leaving(g, s, now) && s.manifests.Keys == g.stamps.Keys && pid !in s.prunes
    requires g.p.keepVersions > 0 && v in g.stamps.Keys - g.Guaranteed()
    ensures PruneReaches(g.p, s') && s' == s.(prunes := s'.prunes) && Leaving(g, s', now)
    ensures pid in s'.prunes && s'.prunes == s.prunes[pid := s'.prunes[pid]] && Targets(g, s'.prunes[pid], now, v)
  {
    var order := LateOrder(g.stamps.Keys, g.stamps, v);
    LeavingMade(g, s, now, order);
    assert |NewerIn(g.stamps.Keys, g.stamps, v)| >= g.p.keepVersions;
    hide PruneReaches, NewerIn, Ordered;
    Sorts(g, s, pid, order);
    var t := Removing(g.objectId, Versions(g, order), now, 0);
    s' := s.(prunes := s.prunes[pid := t]);
    assert Targets(g, t, now, v);
  }

  lemma LeavingMade(g: Group, s: PruneState, now: Timestamp, order: seq<BlobId>)
    requires Leaving(g, s, now) && s.manifests.Keys == g.stamps.Keys && Lists(order, g.stamps.Keys)
    ensures forall b :: b in order ==> b in g.stamps && b in s.manifests && s.manifests[b] == g.Made(b)
  {}

  // ---- And remove ----

  /** A prune goes over the rest of its versions. */
  lemma {:induction false} RunsOut(g: Group, s: PruneState, now: Timestamp, pid: nat, order: seq<BlobId>, next: nat)
    returns (s': PruneState)
    requires PruneReaches(g.p, s) && Leaving(g, s, now) && Late(g, now) && Ordered(order, g.stamps)
    requires next <= |order| && pid in s.prunes
    requires s.prunes[pid] == Removing(g.objectId, Versions(g, order), now, next)
    ensures PruneReaches(g.p, s') && Leaving(g, s', now) && s'.manifests.Keys <= s.manifests.Keys
    ensures s'.prunes == s.prunes[pid := Removing(g.objectId, Versions(g, order), now, |order|)]
    ensures forall i :: next <= i < |order| && g.p.keepVersions <= i ==> order[i] !in s'.manifests
    decreases |order| - next
  {
    hide *;
    OrderIn(g, order);
    if next == |order| {
      s' := s;
    } else {
      var mid := PruneStep(g.p, s, PruneNext(pid));
      PruneGo(g.p, s, PruneNext(pid));
      NextIs(g.p, s, pid);
      assert order[next] in order;
      MadeFor(g, order[next]);
      NextLeaves(g, s, mid, now, pid, order, next);
      s' := RunsOut(g, mid, now, pid, order, next + 1);
    }
  }

  lemma NextLeaves(
    g: Group, s: PruneState, s': PruneState, now: Timestamp, pid: nat, order: seq<BlobId>, next: nat)
    requires Leaving(g, s, now) && Late(g, now) && Ordered(order, g.stamps) && next < |order| && pid in s.prunes
    requires order[next] in g.stamps
    requires s.prunes[pid] == Removing(g.objectId, Versions(g, order), now, next)
    requires
      var passed := s.(prunes := s.prunes[pid := s.prunes[pid].(next := next + 1)]);
      s' == if next >= g.p.keepVersions && g.p.HoldElapsed(g.stamps[order[next]], now)
            then passed.(manifests := s.manifests - {order[next]}, removed := s.removed + {(g.objectId, order[next])})
            else passed
    ensures Leaving(g, s', now) && s'.manifests.Keys <= s.manifests.Keys
    ensures next >= g.p.keepVersions ==> order[next] !in s'.manifests
  {
    hide RetentionPolicy.HoldElapsed, Ordered;
  }

  /** The first k of the prunes are through. */
  lemma {:induction false} Through(g: Group, now: Timestamp, lost: seq<BlobId>, k: nat) returns (s: PruneState)
    requires Late(g, now) && g.p.keepVersions > 0 && k <= |lost|
    requires forall v :: v in lost ==> v in g.stamps.Keys - g.Guaranteed()
    ensures PruneReaches(g.p, s) && Leaving(g, s, now)
    ensures forall i :: 0 <= i < k ==> lost[i] !in s.manifests
    ensures forall i :: k <= i < |lost| ==> i in s.prunes && Targets(g, s.prunes[i], now, lost[i])
  {
    hide *;
    if k == 0 {
      s := Staged(g, now, lost, |lost|);
    } else {
      var before := Through(g, now, lost, k - 1);
      s := RunsThrough(g, before, now, k - 1, lost[k - 1]);
      forall i | 0 <= i < k
        ensures lost[i] !in s.manifests
      {
        assert i < k - 1 ==> lost[i] !in before.manifests.Keys;
      }
    }
  }

  /** A prune is through, and its target gone. */
  lemma RunsThrough(g: Group, s: PruneState, now: Timestamp, pid: nat, v: BlobId) returns (s': PruneState)
    requires PruneReaches(g.p, s) && Leaving(g, s, now) && Late(g, now)
    requires pid in s.prunes && Targets(g, s.prunes[pid], now, v)
    ensures PruneReaches(g.p, s') && Leaving(g, s', now) && s'.manifests.Keys <= s.manifests.Keys
    ensures forall i :: i in s.prunes && i != pid ==> i in s'.prunes && s'.prunes[i] == s.prunes[i]
    ensures v !in s'.manifests
  {
    var order :|
      && Ordered(order, g.stamps) && s.prunes[pid] == Removing(g.objectId, Versions(g, order), now, 0)
      && exists i :: g.p.keepVersions <= i < |order| && order[i] == v;
    hide PruneReaches, Leaving, Late, Ordered, Targets;
    s' := RunsOut(g, s, now, pid, order, 0);
  }

  /** For any versions there is a run, of puts and prunes alone, that leaves exactly those no prune may remove. */
  lemma OthersCanGo(g: Group)
    requires g.p.keepVersions > 0
    ensures exists events ::
      var s := PruneAfter(g.p, events);
      && s.stamps == g.stamps && Ever(s, g.objectId) == g.stamps.Keys && LeftByPruneOnly(s, g.objectId)
      && Current(s, g.objectId) == g.Guaranteed()
  {
    var now := LateTime(g, g.stamps.Keys);
    var lost := Order(g.stamps.Keys - g.Guaranteed(), g.stamps);
    var s := Through(g, now, lost, |lost|);
    LeavingLeft(g, s, now);
    var events :| PruneAfter(g.p, events) == s;
    hide PruneAfter, LeftByPruneOnly;
    NewestSurvive(g.p, events, g.objectId);
    forall b | b in Current(s, g.objectId)
      ensures b in g.Guaranteed()
    {
      assert b !in lost;
    }
  }

  lemma LeavingLeft(g: Group, s: PruneState, now: Timestamp)
    requires Leaving(g, s, now)
    ensures Ever(s, g.objectId) == g.stamps.Keys && LeftByPruneOnly(s, g.objectId)
    ensures forall b :: b in Current(s, g.objectId) ==> b in s.manifests && b in g.stamps
  {
    forall b | b in g.stamps
      ensures b in Ever(s, g.objectId)
    {
      assert (g.objectId, b) in s.tagged;
    }
  }

  /** Versions leave only by prunes, and these are all there ever were. */
  ghost predicate PrunedOnly(g: Group, s: PruneState) {
    s.stamps == g.stamps && Ever(s, g.objectId) == g.stamps.Keys && LeftByPruneOnly(s, g.objectId)
  }

  /** Exactly when concurrent prunes keep what the policy says, `keepVersions` or all if fewer: when that many
      versions each have fewer than `keepVersions` others as new. Without ties that is so (`NewestCount`). */
  lemma KeptIffGuaranteed(g: Group)
    requires g.p.keepVersions > 0
    ensures
      var enough := Min(g.p.keepVersions, |g.stamps|);
      (forall events :: PrunedOnly(g, PruneAfter(g.p, events)) ==>
         |Current(PruneAfter(g.p, events), g.objectId)| >= enough)
      <==> |g.Guaranteed()| >= enough
  {
    hide PruneAfter, Current, Ever, LeftByPruneOnly, NewestOf;
    OthersCanGo(g);
    forall events | PrunedOnly(g, PruneAfter(g.p, events))
      ensures g.Guaranteed() <= Current(PruneAfter(g.p, events), g.objectId)
      ensures |g.Guaranteed()| <= |Current(PruneAfter(g.p, events), g.objectId)|
    {
      NewestSurvive(g.p, events, g.objectId);
      SubsetSize(g.Guaranteed(), Current(PruneAfter(g.p, events), g.objectId));
    }
  }

  /** Two versions of the same time under a policy that keeps one: both can go. */
  lemma TiedBothGo(p: RetentionPolicy, objectId: Str, a: BlobId, b: BlobId, made: Timestamp)
    requires p.keepVersions == 1 && a != b
    ensures exists events ::
      var s := PruneAfter(p, events);
      Ever(s, objectId) == {a, b} && LeftByPruneOnly(s, objectId) && Current(s, objectId) == {}
  {
    var g := Group(p, objectId, map[a := made, b := made]);
    assert b in NewerIn(g.stamps.Keys, g.stamps, a) && a in NewerIn(g.stamps.Keys, g.stamps, b);
    assert g.Guaranteed() == {};
    hide PruneAfter, LeftByPruneOnly, Ever, Current;
    OthersCanGo(g);
  }
}
