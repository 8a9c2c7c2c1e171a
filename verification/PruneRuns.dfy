/** Prunes under concurrency: a prune lists the blobs of a namespace, reads their manifests one by one, sorts, and
    removes one version at a time, while puts, deletes, name edits and other prunes go on.
  */
module PruneRuns {
  import opened Prelude
  import opened Domain
  import opened PruneVersions

  /** A prune of one object: reading the manifests listed, then going over them newest first. */
  datatype Prune =
    | Collecting(objectId: Str, todo: seq<BlobId>, found: seq<Manifest>)
    | Removing(objectId: Str, versions: seq<Manifest>, at: Timestamp, next: nat)

  /** One namespace. `edits` are the manifests read by name edits that have not stored theirs yet. `stamps`,
      `tagged` and `removed` are history: when the blobs were made, which were ever listed as versions of an
      object, and which of these a prune of that object removed. */
  datatype PruneState = PruneState(
    now: Timestamp, manifests: map<BlobId, Manifest>, edits: map<nat, Manifest>, prunes: map<nat, Prune>,
    stamps: map<BlobId, Timestamp>, tagged: set<(Str, BlobId)>, removed: set<(Str, BlobId)>)

  const EMPTY := PruneState(0, map[], map[], map[], map[], {}, {})

  datatype PruneEvent =
    | Passed(millis: nat)
    | Published(m: Manifest)
    | Deleted(blob: BlobId)
    | EditRead(edit: nat, blob: BlobId)
    | EditWritten(edit: nat, nameEnc: Str, objectId: Option<Str>)
    | PruneListed(pid: nat, ofObject: Str, blobs: seq<BlobId>)
    | PruneRead(pid: nat)
    | PruneSorted(pid: nat, versions: seq<Manifest>)
    | PruneNext(pid: nat)

  ghost predicate Distinct(blobs: seq<BlobId>) { forall i, j :: 0 <= i < j < |blobs| ==> blobs[i] != blobs[j] }

  /** The manifest is listed, under its own id. */
  function Listing(s: PruneState, m: Manifest): PruneState {
    s.(manifests := s.manifests[m.blobId := m],
       tagged := s.tagged + if m.objectId.Some? then {(m.objectId.value, m.blobId)} else {})
  }

  ghost function CollectStep(p: RetentionPolicy, s: PruneState, pid: nat, t: Prune, e: PruneEvent): PruneState
    requires t.Collecting?
  {
    var Collecting(objectId, todo, found) := t;
    match e
    case PruneRead(_) =>
      if todo == [] then s
      else
        var hit := todo[0] in s.manifests && s.manifests[todo[0]].objectId == Some(objectId);
        s.(prunes := s.prunes[pid :=
          Collecting(objectId, todo[1..], if hit then found + [s.manifests[todo[0]]] else found)])
    case PruneSorted(_, versions) =>
      if todo == [] && p.keepVersions > 0 && Descending(versions) && multiset(versions) == multiset(found)
      then s.(prunes := s.prunes[pid := Removing(objectId, versions, s.now, 0)])
      else s
    case _ => s
  }

  /** The first `keepVersions` are skipped, and so are those under hold. */
  ghost function RemoveStep(p: RetentionPolicy, s: PruneState, pid: nat, t: Prune, e: PruneEvent): PruneState
    requires t.Removing?
  {
    var Removing(objectId, versions, at, next) := t;
    if !e.PruneNext? || next >= |versions| then s
    else
      var passed := s.(prunes := s.prunes[pid := t.(next := next + 1)]);
      var m := versions[next];
      if next >= p.keepVersions && p.HoldElapsed(m.createdAt, at)
      then passed.(manifests := s.manifests - {m.blobId}, removed := s.removed + {(objectId, m.blobId)})
      else passed
  }

  /** One namespace's next state; an event that is not enabled changes nothing. */
  ghost function PruneStep(p: RetentionPolicy, s: PruneState, e: PruneEvent): PruneState {
    match e
    case Passed(millis) => s.(now := s.now + millis)
    case Published(m) =>
      if m.blobId in s.stamps || m.createdAt > s.now then s
      else Listing(s.(stamps := s.stamps[m.blobId := m.createdAt]), m)
    case Deleted(blob) => s.(manifests := s.manifests - {blob})
    case EditRead(edit, blob) =>
      if blob in s.manifests then s.(edits := s.edits[edit := s.manifests[blob]]) else s
    case EditWritten(edit, nameEnc, objectId) =>
      if edit !in s.edits then s
      else
        var m := s.edits[edit];
        Listing(s.(edits := s.edits - {edit}),
          m.(nameEnc := Some(nameEnc), objectId := if objectId.Some? then objectId else m.objectId))
    case PruneListed(pid, objectId, blobs) =>
      if pid !in s.prunes && Distinct(blobs) && (forall b :: b in blobs <==> b in s.manifests)
      then s.(prunes := s.prunes[pid := Collecting(objectId, blobs, [])])
      else s
    case _ =>
      if e.pid !in s.prunes then s
      else if s.prunes[e.pid].Collecting? then CollectStep(p, s, e.pid, s.prunes[e.pid], e)
      else RemoveStep(p, s, e.pid, s.prunes[e.pid], e)
  }

  ghost function PruneAfter(p: RetentionPolicy, events: seq<PruneEvent>): PruneState {
    if events == [] then EMPTY
    else PruneStep(p, PruneAfter(p, events[..|events| - 1]), events[|events| - 1])
  }

  /** The blobs ever listed as versions of the object. */
  ghost function Ever(s: PruneState, objectId: Str): set<BlobId> { set v | v in s.tagged && v.0 == objectId :: v.1 }

  /** The other versions of the object at least as new as this one. */
  ghost function AsNew(s: PruneState, objectId: Str, blob: BlobId): set<BlobId> {
    set b | b in Ever(s, objectId) && b != blob && b in s.stamps && blob in s.stamps && s.stamps[b] >= s.stamps[blob]
  }

  // ---- The invariant ----

  /** A manifest that was listed: its blob's time, and its tag if any, are on record. */
  ghost predicate WasListed(s: PruneState, m: Manifest) {
    && m.blobId in s.stamps && s.stamps[m.blobId] == m.createdAt
    && (m.objectId.Some? ==> (m.objectId.value, m.blobId) in s.tagged)
  }

  ghost predicate Versions(s: PruneState, objectId: Str, versions: seq<Manifest>) {
    && (forall i :: 0 <= i < |versions| ==> versions[i].objectId == Some(objectId) && WasListed(s, versions[i]))
    && (forall i, j :: 0 <= i < j < |versions| ==> versions[i].blobId != versions[j].blobId)
  }

  ghost predicate PruneOk(s: PruneState, t: Prune) {
    match t
    case Collecting(objectId, todo, found) =>
      && Distinct(todo) && Versions(s, objectId, found)
      && (forall i :: 0 <= i < |found| ==> found[i].blobId !in todo)
    case Removing(objectId, versions, at, _) =>
      Descending(versions) && Versions(s, objectId, versions) && at <= s.now
  }

  /** Enough other versions are at least as new, and the hold is over. */
  ghost predicate Justified(p: RetentionPolicy, s: PruneState, objectId: Str, blob: BlobId) {
    && blob in Ever(s, objectId) && blob in s.stamps
    && p.keepVersions > 0 && |AsNew(s, objectId, blob)| >= p.keepVersions
    && p.HoldElapsed(s.stamps[blob], s.now)
  }

  ghost predicate StoreOk(s: PruneState) {
    && (forall b :: b in s.manifests ==> s.manifests[b].blobId == b && WasListed(s, s.manifests[b]))
    && (forall e :: e in s.edits ==> WasListed(s, s.edits[e]))
    && (forall v :: v in s.tagged ==> v.1 in s.stamps)
  }

  ghost predicate PrunesOk(p: RetentionPolicy, s: PruneState) {
    && (forall pid :: pid in s.prunes ==> PruneOk(s, s.prunes[pid]))
    && (forall pid :: pid in s.prunes && s.prunes[pid].Removing? ==> p.keepVersions > 0)
  }

  ghost predicate RemovedOk(p: RetentionPolicy, s: PruneState) {
    forall v :: v in s.removed ==> Justified(p, s, v.0, v.1)
  }

  ghost predicate PruneInv(p: RetentionPolicy, s: PruneState) { StoreOk(s) && PrunesOk(p, s) && RemovedOk(p, s) }

  /** What is on record stays so. */
  ghost predicate Remembers(s: PruneState, s': PruneState) {
    && s.now <= s'.now && s.tagged <= s'.tagged
    && (forall b :: b in s.stamps ==> b in s'.stamps && s'.stamps[b] == s.stamps[b])
  }

  lemma PruneKept(s: PruneState, s': PruneState, t: Prune)
    requires Remembers(s, s') && PruneOk(s, t)
    ensures PruneOk(s', t)
  {
    hide Descending, Distinct;
  }

  lemma JustifiedKept(p: RetentionPolicy, s: PruneState, s': PruneState, objectId: Str, blob: BlobId)
    requires Remembers(s, s') && Justified(p, s, objectId, blob)
    ensures Justified(p, s', objectId, blob)
  {
    SubsetSize(AsNew(s, objectId, blob), AsNew(s', objectId, blob));
    HoldMonotone(p, s.stamps[blob], s.stamps[blob], s.now, s'.now);
    assert (objectId, blob) in s.tagged;
  }

  lemma RemovedKept(p: RetentionPolicy, s: PruneState, s': PruneState)
    requires RemovedOk(p, s) && Remembers(s, s')
    requires forall v :: v in s'.removed ==> v in s.removed || Justified(p, s', v.0, v.1)
    ensures RemovedOk(p, s')
  {
    forall v | v in s'.removed
      ensures Justified(p, s', v.0, v.1)
    {
      hide Justified, Remembers;
      if v in s.removed {
        JustifiedKept(p, s, s', v.0, v.1);
      }
    }
  }

  lemma PrunesKept(p: RetentionPolicy, s: PruneState, s': PruneState)
    requires PrunesOk(p, s) && Remembers(s, s')
    requires forall pid :: pid in s'.prunes ==>
      || (pid in s.prunes && s'.prunes[pid] == s.prunes[pid])
      || (PruneOk(s', s'.prunes[pid]) && (s'.prunes[pid].Removing? ==> p.keepVersions > 0))
    ensures PrunesOk(p, s')
  {
    forall pid | pid in s'.prunes
      ensures PruneOk(s', s'.prunes[pid])
    {
      hide PruneOk, Remembers;
      if pid in s.prunes && s'.prunes[pid] == s.prunes[pid] {
        PruneKept(s, s', s.prunes[pid]);
      }
    }
    hide PruneOk;
  }

  lemma StoreKept(s: PruneState, s': PruneState)
    requires StoreOk(s) && Remembers(s, s')
    requires forall b :: b in s'.manifests ==>
      || (b in s.manifests && s'.manifests[b] == s.manifests[b])
      || (s'.manifests[b].blobId == b && WasListed(s', s'.manifests[b]))
    requires forall e :: e in s'.edits ==>
      || (e in s.edits && s'.edits[e] == s.edits[e])
      || WasListed(s', s'.edits[e])
    requires forall v :: v in s'.tagged ==> v in s.tagged || v.1 in s'.stamps
    ensures StoreOk(s')
  {}

  // ---- Every step keeps it ----

  lemma OtherStep(p: RetentionPolicy, s: PruneState, e: PruneEvent)
    requires PruneInv(p, s) && (e.Passed? || e.Published? || e.Deleted? || e.EditRead? || e.EditWritten?)
    ensures PruneInv(p, PruneStep(p, s, e)) && Remembers(s, PruneStep(p, s, e))
  {
    var s' := PruneStep(p, s, e);
    OtherStore(p, s, e);
    hide PruneStep, StoreOk, WasListed, PruneOk, Justified, Remembers;
    PrunesKept(p, s, s');
    RemovedKept(p, s, s');
  }

  lemma OtherStore(p: RetentionPolicy, s: PruneState, e: PruneEvent)
    requires StoreOk(s) && (e.Passed? || e.Published? || e.Deleted? || e.EditRead? || e.EditWritten?)
    ensures
      var s' := PruneStep(p, s, e);
      StoreOk(s') && Remembers(s, s') && s'.prunes == s.prunes && s'.removed == s.removed
  {
    hide CollectStep, RemoveStep, Listing;
    var s' := PruneStep(p, s, e);
    match e
    case Published(m) =>
      if s' != s {
        var stamped := s.(stamps := s.stamps[m.blobId := m.createdAt]);
        StampedOk(s, stamped);
        ListingOk(stamped, m);
      }
    case EditWritten(edit, nameEnc, objectId) =>
      if edit in s.edits {
        var m := s.edits[edit];
        var fewer := s.(edits := s.edits - {edit});
        FewerEditsOk(s, fewer);
        ListedRenamed(fewer, m, nameEnc);
        ListingOk(fewer, m.(nameEnc := Some(nameEnc), objectId := if objectId.Some? then objectId else m.objectId));
      }
    case _ => PlainStore(s, s');
  }

  lemma PlainStore(s: PruneState, s': PruneState)
    requires StoreOk(s) && s' == s.(now := s'.now, manifests := s'.manifests, edits := s'.edits) && s.now <= s'.now
    requires forall b :: b in s'.manifests ==> b in s.manifests && s'.manifests[b] == s.manifests[b]
    requires forall e :: e in s'.edits ==>
      || (e in s.edits && s'.edits[e] == s.edits[e])
      || (s'.edits[e].blobId in s.manifests && s'.edits[e] == s.manifests[s'.edits[e].blobId])
    ensures StoreOk(s') && Remembers(s, s')
  {
    StoreKept(s, s');
  }

  lemma ListingOk(s: PruneState, m: Manifest)
    requires StoreOk(s) && m.blobId in s.stamps && s.stamps[m.blobId] == m.createdAt
    ensures
      var s' := Listing(s, m);
      StoreOk(s') && Remembers(s, s') && s'.prunes == s.prunes && s'.removed == s.removed
  {
    StoreKept(s, Listing(s, m));
  }

  lemma StampedOk(s: PruneState, s': PruneState)
    requires StoreOk(s) && s' == s.(stamps := s'.stamps)
    requires forall b :: b in s.stamps ==> b in s'.stamps && s'.stamps[b] == s.stamps[b]
    ensures StoreOk(s') && Remembers(s, s')
  {
    StoreKept(s, s');
  }

  lemma FewerEditsOk(s: PruneState, s': PruneState)
    requires StoreOk(s) && s' == s.(edits := s'.edits)
    requires forall e :: e in s'.edits ==> e in s.edits && s'.edits[e] == s.edits[e]
    ensures StoreOk(s') && Remembers(s, s')
  {
    hide WasListed;
    StoreKept(s, s');
  }

  lemma ListedRenamed(s: PruneState, m: Manifest, nameEnc: Str)
    requires WasListed(s, m)
    ensures m.blobId in s.stamps && s.stamps[m.blobId] == m.createdAt
  {}

  /** Only this prune moved on, and perhaps one version of its object was removed. */
  lemma OnePrune(p: RetentionPolicy, s: PruneState, s': PruneState, pid: nat, t: Prune)
    requires PruneInv(p, s) && PruneOk(s, t) && (t.Removing? ==> p.keepVersions > 0)
    requires s' == s.(prunes := s.prunes[pid := t], manifests := s'.manifests, removed := s'.removed)
    requires forall b :: b in s'.manifests ==> b in s.manifests && s'.manifests[b] == s.manifests[b]
    requires forall v :: v in s'.removed ==> v in s.removed || Justified(p, s, v.0, v.1)
    ensures PruneInv(p, s')
  {
    assert Remembers(s, s');
    StoreKept(s, s');
    PruneKept(s, s', t);
    forall v | v in s'.removed && v !in s.removed
      ensures Justified(p, s', v.0, v.1)
    {
      hide Justified, Remembers;
      JustifiedKept(p, s, s', v.0, v.1);
    }
    hide PruneOk, Justified, StoreOk, Remembers;
    PrunesKept(p, s, s');
    RemovedKept(p, s, s');
  }

  lemma ReadStep(p: RetentionPolicy, s: PruneState, pid: nat)
    requires PruneInv(p, s) && pid in s.prunes && s.prunes[pid].Collecting? && s.prunes[pid].todo != []
    ensures PruneInv(p, PruneStep(p, s, PruneRead(pid)))
  {
    var t := s.prunes[pid];
    var s' := PruneStep(p, s, PruneRead(pid));
    ReadOk(s, t);
    hide PruneInv, PruneOk, RemoveStep;
    OnePrune(p, s, s', pid, s'.prunes[pid]);
  }

  lemma ReadOk(s: PruneState, t: Prune)
    requires StoreOk(s) && PruneOk(s, t) && t.Collecting? && t.todo != []
    ensures
      var hit := t.todo[0] in s.manifests && s.manifests[t.todo[0]].objectId == Some(t.objectId);
      PruneOk(s, Collecting(t.objectId, t.todo[1..], if hit then t.found + [s.manifests[t.todo[0]]] else t.found))
  {
    FirstDistinct(t.todo);
    hide Distinct, WasListed, Versions;
    var first := t.todo[0];
    assert first in t.todo;
    if first in s.manifests && s.manifests[first].objectId == Some(t.objectId) {
      VersionsMore(s, t.objectId, t.found, s.manifests[first]);
    }
  }

  lemma FirstDistinct(blobs: seq<BlobId>)
    requires Distinct(blobs) && blobs != []
    ensures Distinct(blobs[1..]) && blobs[0] !in blobs[1..]
    ensures forall b :: b in blobs[1..] ==> b in blobs
  {}

  lemma VersionsMore(s: PruneState, objectId: Str, found: seq<Manifest>, m: Manifest)
    requires Versions(s, objectId, found) && m.objectId == Some(objectId) && WasListed(s, m)
    requires forall i :: 0 <= i < |found| ==> found[i].blobId != m.blobId
    ensures Versions(s, objectId, found + [m])
  {
    hide WasListed;
  }

  lemma SortedOk(s: PruneState, t: Prune, versions: seq<Manifest>)
    requires PruneOk(s, t) && t.Collecting? && Descending(versions) && multiset(versions) == multiset(t.found)
    ensures PruneOk(s, Removing(t.objectId, versions, s.now, 0))
  {
    hide Descending, WasListed, Distinct;
    forall i | 0 <= i < |versions|
      ensures versions[i] in t.found
    {
      assert versions[i] in multiset(versions);
    }
    forall i, j | 0 <= i < j < |versions|
      ensures versions[i].blobId != versions[j].blobId
    {
      if versions[i] == versions[j] {
        Twice(versions, i, j);
        Once(t.found, versions[i]);
      }
    }
  }

  lemma Twice(versions: seq<Manifest>, i: nat, j: nat)
    requires i < j < |versions| && versions[i] == versions[j]
    ensures multiset(versions)[versions[i]] >= 2
  {
    assert versions == versions[..j] + versions[j..];
    assert versions[i] in versions[..j] && versions[j] in versions[j..] by {
      assert versions[..j][i] == versions[i] && versions[j..][0] == versions[j];
    }
    assert versions[i] in multiset(versions[..j]) && versions[j] in multiset(versions[j..]);
  }

  lemma {:induction false} Once(found: seq<Manifest>, m: Manifest)
    requires forall i, j :: 0 <= i < j < |found| ==> found[i].blobId != found[j].blobId
    ensures multiset(found)[m] <= 1
  {
    if found == [] {
      assert multiset(found)[m] == 0;
    } else {
      var front, last := found[..|found| - 1], found[|found| - 1];
      Once(front, m);
      assert found == front + [last];
      if m == last {
        assert m !in multiset(front) by {
          assert m !in front;
        }
      }
    }
  }

  lemma SortStep(p: RetentionPolicy, s: PruneState, pid: nat, versions: seq<Manifest>)
    requires PruneInv(p, s) && pid in s.prunes && s.prunes[pid].Collecting?
    ensures PruneInv(p, PruneStep(p, s, PruneSorted(pid, versions)))
  {
    var t := s.prunes[pid];
    var s' := PruneStep(p, s, PruneSorted(pid, versions));
    if s' != s {
      SortedOk(s, t, versions);
      hide PruneInv, PruneOk, RemoveStep, Descending;
      OnePrune(p, s, s', pid, s'.prunes[pid]);
    }
  }

  /** The versions before a removed one are at least as new. */
  lemma RemovalJustified(p: RetentionPolicy, s: PruneState, t: Prune)
    requires PruneOk(s, t) && t.Removing? && 0 < p.keepVersions <= t.next < |t.versions|
    requires p.HoldElapsed(t.versions[t.next].createdAt, t.at)
    ensures Justified(p, s, t.objectId, t.versions[t.next].blobId)
  {
    var m := t.versions[t.next];
    var before := FirstIds(t.versions, t.next);
    HoldMonotone(p, m.createdAt, m.createdAt, t.at, s.now);
    forall b | b in before
      ensures b in AsNew(s, t.objectId, m.blobId)
    {
      var i :| 0 <= i < t.next && b == t.versions[i].blobId;
      assert (t.objectId, b) in s.tagged;
    }
    BeforeCount(t.versions, t.next);
    SubsetSize(before, AsNew(s, t.objectId, m.blobId));
    assert (t.objectId, m.blobId) in s.tagged;
  }

  ghost function FirstIds(versions: seq<Manifest>, n: nat): set<BlobId>
    requires n <= |versions|
  {
    set i: nat | i < n :: versions[i].blobId
  }

  lemma FirstIdsMore(versions: seq<Manifest>, n: nat)
    requires n < |versions|
    ensures FirstIds(versions, n + 1) == FirstIds(versions, n) + {versions[n].blobId}
  {}

  lemma {:induction false} BeforeCount(versions: seq<Manifest>, n: nat)
    requires n <= |versions|
    requires forall i, j :: 0 <= i < j < |versions| ==> versions[i].blobId != versions[j].blobId
    ensures |FirstIds(versions, n)| == n
  {
    if n == 0 {
      assert FirstIds(versions, n) == {};
    } else {
      BeforeCount(versions, n - 1);
      assert versions[n - 1].blobId !in FirstIds(versions, n - 1);
      FirstIdsMore(versions, n - 1);
      hide FirstIds;
    }
  }

  lemma NextStep(p: RetentionPolicy, s: PruneState, pid: nat)
    requires PruneInv(p, s) && pid in s.prunes && s.prunes[pid].Removing?
    ensures PruneInv(p, PruneStep(p, s, PruneNext(pid)))
  {
    var t := s.prunes[pid];
    var s' := PruneStep(p, s, PruneNext(pid));
    if t.next < |t.versions| {
      var m := t.versions[t.next];
      if t.next >= p.keepVersions && p.HoldElapsed(m.createdAt, t.at) {
        RemovalJustified(p, s, t);
      }
      assert PruneOk(s, t.(next := t.next + 1));
      hide PruneInv, PruneOk, CollectStep, Justified, RetentionPolicy.HoldElapsed;
      OnePrune(p, s, s', pid, t.(next := t.next + 1));
    }
  }

  lemma ListStep(p: RetentionPolicy, s: PruneState, pid: nat, objectId: Str, blobs: seq<BlobId>)
    requires PruneInv(p, s)
    ensures PruneInv(p, PruneStep(p, s, PruneListed(pid, objectId, blobs)))
  {
    var s' := PruneStep(p, s, PruneListed(pid, objectId, blobs));
    if s' != s {
      assert PruneOk(s, Collecting(objectId, blobs, []));
      hide PruneInv, PruneOk, CollectStep, RemoveStep, Distinct;
      OnePrune(p, s, s', pid, Collecting(objectId, blobs, []));
    }
  }

  lemma StepKeeps(p: RetentionPolicy, s: PruneState, e: PruneEvent)
    requires PruneInv(p, s)
    ensures PruneInv(p, PruneStep(p, s, e))
  {
    hide PruneInv, CollectStep, RemoveStep, Distinct;
    match e
    case PruneListed(pid, objectId, blobs) => ListStep(p, s, pid, objectId, blobs);
    case PruneRead(pid) =>
      if pid in s.prunes && s.prunes[pid].Collecting? && s.prunes[pid].todo != [] {
        ReadStep(p, s, pid);
      } else {
        Idle(p, s, e);
      }
    case PruneSorted(pid, versions) =>
      if pid in s.prunes && s.prunes[pid].Collecting? {
        SortStep(p, s, pid, versions);
      } else {
        Idle(p, s, e);
      }
    case PruneNext(pid) =>
      if pid in s.prunes && s.prunes[pid].Removing? {
        NextStep(p, s, pid);
      } else {
        Idle(p, s, e);
      }
    case _ => OtherStep(p, s, e);
  }

  lemma Idle(p: RetentionPolicy, s: PruneState, e: PruneEvent)
    requires e.PruneRead? || e.PruneSorted? || e.PruneNext?
    requires
      || e.pid !in s.prunes
      || (e.PruneNext? && s.prunes[e.pid].Collecting?)
      || (!e.PruneNext? && s.prunes[e.pid].Removing?)
      || (e.PruneRead? && s.prunes[e.pid].todo == [])
    ensures PruneStep(p, s, e) == s
  {
    hide Descending, Distinct;
  }

  lemma {:induction false} RunKeepsPrunes(p: RetentionPolicy, events: seq<PruneEvent>)
    ensures PruneInv(p, PruneAfter(p, events))
  {
    hide PruneStep;
    if events == [] {
      assert PruneInv(p, EMPTY);
    } else {
      hide PruneInv;
      RunKeepsPrunes(p, events[..|events| - 1]);
      StepKeeps(p, PruneAfter(p, events[..|events| - 1]), events[|events| - 1]);
    }
  }

  // ---- The laws ----

  /** However prunes, puts, deletes and name edits interleave: a prune removes a version of its object only past
      its hold, and only if `keepVersions` others, ever versions of the object, are at least as new. */
  lemma RemovedHadNewer(p: RetentionPolicy, events: seq<PruneEvent>, objectId: Str, blob: BlobId)
    requires (objectId, blob) in PruneAfter(p, events).removed
    ensures
      var s := PruneAfter(p, events);
      && p.keepVersions > 0 && |AsNew(s, objectId, blob)| >= p.keepVersions
      && blob in s.stamps && p.HoldElapsed(s.stamps[blob], s.now)
  {
    hide PruneAfter, AsNew, Ever, StoreOk, PrunesOk, RetentionPolicy.HoldElapsed;
    RunKeepsPrunes(p, events);
    assert Justified(p, PruneAfter(p, events), (objectId, blob).0, (objectId, blob).1);
  }

  /** The versions of the object listed now. */
  ghost function Current(s: PruneState, objectId: Str): set<BlobId> {
    set b | b in s.manifests && s.manifests[b].objectId == Some(objectId)
  }

  /** Every blob that was a version of the object still is one, or a prune of the object removed it. */
  ghost predicate LeftByPruneOnly(s: PruneState, objectId: Str) {
    forall b :: b in Ever(s, objectId) ==> b in Current(s, objectId) || (objectId, b) in s.removed
  }

  ghost predicate NoTies(s: PruneState, objectId: Str) {
    forall a, b :: a in Ever(s, objectId) && b in Ever(s, objectId) && a != b && a in s.stamps && b in s.stamps ==>
      s.stamps[a] != s.stamps[b]
  }

  /** The versions in a set with fewer than k others at least as new. */
  ghost function NewestOf(blobs: set<BlobId>, stamps: map<BlobId, Timestamp>, k: nat): set<BlobId>
    requires blobs <= stamps.Keys
  {
    set b | b in blobs && |NewerIn(blobs, stamps, b)| < k
  }

  ghost function NewerIn(blobs: set<BlobId>, stamps: map<BlobId, Timestamp>, blob: BlobId): set<BlobId>
    requires blobs <= stamps.Keys && blob in blobs
  {
    set b | b in blobs && b != blob && stamps[b] >= stamps[blob]
  }

  lemma {:induction false} Oldest(blobs: set<BlobId>, stamps: map<BlobId, Timestamp>) returns (oldest: BlobId)
    requires blobs <= stamps.Keys && blobs != {}
    ensures oldest in blobs && forall b :: b in blobs ==> stamps[oldest] <= stamps[b]
  {
    var first :| first in blobs;
    var rest := blobs - {first};
    assert forall b :: b in blobs ==> b == first || b in rest;
    oldest := first;
    if rest != {} {
      var other := Oldest(rest, stamps);
      if stamps[other] < stamps[first] {
        oldest := other;
      }
    }
  }

  /** Without ties, so many there are. */
  lemma {:induction false} NewestCount(blobs: set<BlobId>, stamps: map<BlobId, Timestamp>, k: nat)
    requires blobs <= stamps.Keys
    requires forall a, b :: a in blobs && b in blobs && a != b ==> stamps[a] != stamps[b]
    ensures |NewestOf(blobs, stamps, k)| >= Min(k, |blobs|)
    decreases blobs
  {
    if blobs != {} {
      var oldest := Oldest(blobs, stamps);
      var rest := blobs - {oldest};
      NewestCount(rest, stamps, k);
      NewestMore(blobs, stamps, k, oldest);
      hide NewestOf, NewerIn;
      assert blobs == rest + {oldest};
      var fewer := NewestOf(rest, stamps, k);
      SubsetSize(if |rest| < k then fewer + {oldest} else fewer, NewestOf(blobs, stamps, k));
    }
  }

  lemma NewestMore(blobs: set<BlobId>, stamps: map<BlobId, Timestamp>, k: nat, oldest: BlobId)
    requires blobs <= stamps.Keys && oldest in blobs
    requires forall b :: b in blobs && b != oldest ==> stamps[oldest] < stamps[b]
    ensures oldest !in NewestOf(blobs - {oldest}, stamps, k)
    ensures NewestOf(blobs - {oldest}, stamps, k) <= NewestOf(blobs, stamps, k)
    ensures |blobs - {oldest}| < k ==> oldest in NewestOf(blobs, stamps, k)
  {
    var rest := blobs - {oldest};
    forall b | b in rest
      ensures NewerIn(blobs, stamps, b) == NewerIn(rest, stamps, b)
    {}
    assert NewerIn(blobs, stamps, oldest) == rest;
  }

  lemma NewestNotRemoved(p: RetentionPolicy, s: PruneState, objectId: Str, b: BlobId)
    requires RemovedOk(p, s) && Ever(s, objectId) <= s.stamps.Keys && b in Ever(s, objectId)
    requires p.keepVersions == 0 || b in NewestOf(Ever(s, objectId), s.stamps, p.keepVersions)
    ensures (objectId, b) !in s.removed
  {
    assert AsNew(s, objectId, b) == NewerIn(Ever(s, objectId), s.stamps, b);
    assert (objectId, b) in s.removed ==> Justified(p, s, (objectId, b).0, (objectId, b).1);
  }

  /** While versions leave only by its prunes, any number of prunes at once leaves every version that fewer than
      `keepVersions` others, of all that ever were, are as new as. Without ties these are `keepVersions`. */
  lemma NewestSurvive(p: RetentionPolicy, events: seq<PruneEvent>, objectId: Str)
    requires LeftByPruneOnly(PruneAfter(p, events), objectId)
    ensures
      var s := PruneAfter(p, events);
      && Ever(s, objectId) <= s.stamps.Keys
      && (p.keepVersions == 0 ==> Current(s, objectId) >= Ever(s, objectId))
      && NewestOf(Ever(s, objectId), s.stamps, p.keepVersions) <= Current(s, objectId)
      && (NoTies(s, objectId) && p.keepVersions > 0 ==>
            |Current(s, objectId)| >= Min(p.keepVersions, |Ever(s, objectId)|))
  {
    hide PruneAfter, PrunesOk;
    var s := PruneAfter(p, events);
    RunKeepsPrunes(p, events);
    var ever, current := Ever(s, objectId), Current(s, objectId);
    var newest := NewestOf(ever, s.stamps, p.keepVersions);
    forall b | b in ever && (b in newest || p.keepVersions == 0)
      ensures b in current
    {
      NewestNotRemoved(p, s, objectId, b);
    }
    hide Ever, Current, NewestOf, RemovedOk;
    SubsetSize(newest, current);
    if NoTies(s, objectId) {
      NewestCount(ever, s.stamps, p.keepVersions);
    }
  }
}
