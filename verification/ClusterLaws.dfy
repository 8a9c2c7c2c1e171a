/** What holds in every reachable state, whatever interleaves: durability, restores that are never wrong,
    repairs that write only codeword shards, consistent crashes, and retention.
  */
module ClusterLaws {
  import opened Prelude
  import opened Domain
  import opened Stores
  import opened ErasureCoder
  import opened Uploads = PutBackup
  import opened Cluster
  import opened ClusterInvariants
  import opened ClusterSteps
  import opened ClusterRuns

  // ---- Durability ----

  /** The shards of a blob that faults hit since a point of the damage log. */
  ghost function Hit(s: State, key: BlobKey, since: nat): set<nat>
    requires key in s.origins
  {
    set i: nat | i < |s.origins[key].codeword| && HitSince(s, key, i, since)
  }

  ghost function GoodShards(s: State, key: BlobKey): set<nat>
    requires key in s.origins
  {
    set i: nat | i < |s.origins[key].codeword| && GoodAt(s, key, i)
  }

  /** What a restore from the anchor alone would collect in this state. */
  function AnchorSlots(u: Setup, s: State, key: BlobKey, m: Manifest): seq<Option<Bytes>> {
    seq(|m.shards|, i requires 0 <= i < |m.shards| => AnchorSlot(u, s, key, m, i))
  }

  lemma AnchorSlotsOk(u: Setup, s: State, shown: set<Bytes>, key: BlobKey, m: Manifest, floor: nat)
    requires Inv(u, s) && Unforged(u, s, shown) && AnchorKnown(s, shown)
    requires RecordOf(u, s, key, m) && floor <= s.marks[key]
    ensures SlotsOk(s, key, floor, {}, AnchorSlots(u, s, key, m))
  {
    hide Inv, Unforged, AnchorKnown, RecordOf, SlotOk, AnchorSlot, GoodAt;
    forall i | 0 <= i < |m.shards|
      ensures SlotOk(s, key, i, floor, {}, AnchorSlot(u, s, key, m, i))
    {
      AnchorSlotOk(u, s, shown, key, m, i, floor);
    }
  }

  /** Slots are missing only where a fault hit or a read failed, so few of these leave enough slots. */
  lemma EnoughSlots(
    s: State, key: BlobKey, floor: nat, failed: set<nat>, collected: seq<Option<Bytes>>, k: nat)
    requires key in s.origins && key !in s.reaped && SlotsOk(s, key, floor, failed, collected)
    requires |collected| == |s.origins[key].codeword| && |Hit(s, key, floor) + failed| + k <= |collected|
    ensures CountSome(collected) >= k
  {
    hide CountSome, HitSince;
    var missing := Hit(s, key, floor) + failed;
    forall i | 0 <= i < |collected| && i !in missing
      ensures collected[i].Some?
    {
      assert SlotOk(s, key, i, floor, failed, collected[i]);
    }
    CountSomeBut(collected, missing);
  }

  lemma EnoughGood(u: Setup, s: State, key: BlobKey, k: nat)
    requires BornOk(u, s, key) && key !in s.reaped
    requires |Hit(s, key, s.marks[key])| + k <= |s.origins[key].codeword|
    ensures |GoodShards(s, key)| >= k
  {
    hide HitSince, GoodAt;
    var good, hit := GoodShards(s, key), Hit(s, key, s.marks[key]);
    var all := Upto(|s.origins[key].codeword|);
    forall i | i in all
      ensures i in good + hit
    {
      assert Covered(s, key, i, s.marks[key]);
    }
    SubsetSize(all, good + hit);
  }

  /** Durability: in every reachable state, a published blob that was not reaped, and of which at most
      n - k shards were hit since its last completed repair began, has k good shards on the anchor, and
      they decode to exactly the bytes put. */
  lemma Durable(u: Setup, events: seq<Event>, key: BlobKey)
    requires Gates(u, events)
    requires key in After(u, events).born && key !in After(u, events).reaped
    requires
      var s := After(u, events);
      key in s.origins && key in s.marks &&
      |Hit(s, key, s.marks[key])| + s.origins[key].params.k <= s.origins[key].params.n
    ensures
      var s := After(u, events);
      && key in s.manifests
      && var o, m := s.origins[key], s.manifests[key];
      && |GoodShards(s, key)| >= o.params.k
      && m.erasure.WellFormed()
      && Decoded(u.coder, AnchorSlots(u, s, key, m), m.erasure, m.ciphertextLen) == Ok(o.data)
  {
    hide *;
    var s := After(u, events);
    RunInv(u, events);
    StillListed(u, s, key);
    var m := s.manifests[key];
    RecordFacts(u, s, key);
    RecordBasics(u, s, key, m);
    EnoughGood(u, s, key, m.erasure.k);
    SlotsLength(u, s, key, m);
    AnchorSlotsOk(u, s, Shown(events), key, m, s.marks[key]);
    CollectedDecodes(u, s, key, m, s.marks[key], {}, AnchorSlots(u, s, key, m));
    assert Hit(s, key, s.marks[key]) + {} == Hit(s, key, s.marks[key]);
    EnoughSlots(s, key, s.marks[key], {}, AnchorSlots(u, s, key, m), m.erasure.k);
  }

  lemma StillListed(u: Setup, s: State, key: BlobKey)
    requires Inv(u, s) && key in s.born && key !in s.reaped
    ensures key in s.manifests
  {
    hide OriginsOk, RecordsOk, UploadsOk, TasksOk, DeliveriesOk, BornOk, HoldOver;
  }

  lemma SlotsLength(u: Setup, s: State, key: BlobKey, m: Manifest)
    ensures |AnchorSlots(u, s, key, m)| == |m.shards|
  {}

  // ---- Restores and repairs in flight ----

  /** Has the restore or repair read every shard? */
  predicate Complete(t: Task) {
    (t.Restoring? || t.Repairing?) && |t.collected| == |t.m.shards|
  }

  /** A restore that ran across any interleaving decodes to the bytes put, or is refused for want of k
      slots; and it is not refused while at most n - k shards were hit since the repair completed before it
      began or went unanswered by the anchor when it asked. */
  lemma RestoreNeverWrong(u: Setup, events: seq<Event>, pid: nat)
    requires Gates(u, events)
    requires pid in After(u, events).tasks
    requires After(u, events).tasks[pid].Restoring? && Complete(After(u, events).tasks[pid])
    ensures
      var s := After(u, events);
      var t := s.tasks[pid];
      && t.key in s.origins && t.m.erasure.WellFormed()
      && var o := s.origins[t.key];
         var r := Decoded(u.coder, t.collected, t.m.erasure, t.m.ciphertextLen);
         && r == (if CountSome(t.collected) >= o.params.k then Ok(o.data) else Err(Unavailable))
         && (t.key !in s.reaped && |Hit(s, t.key, t.floor) + t.failed| + o.params.k <= o.params.n ==>
               r == Ok(o.data))
  {
    hide Gates, After, Inv, RecordOf, SlotsOk, Decoded, CountSome, Hit;
    var s := After(u, events);
    RunInv(u, events);
    TaskFacts(u, s, pid);
    var t := s.tasks[pid];
    RecordBasics(u, s, t.key, t.m);
    CollectedDecodes(u, s, t.key, t.m, t.floor, t.failed, t.collected);
    if t.key !in s.reaped && |Hit(s, t.key, t.floor) + t.failed| + t.m.erasure.k <= t.m.erasure.n {
      EnoughSlots(s, t.key, t.floor, t.failed, t.collected, t.m.erasure.k);
    }
  }

  /** A repair that has read every shard is never short of shards under the same condition, and what it
      decodes and encodes again is the stored codeword. */
  lemma RepairNeverWrong(u: Setup, events: seq<Event>, pid: nat)
    requires Gates(u, events)
    requires pid in After(u, events).tasks
    requires After(u, events).tasks[pid].Repairing? && Complete(After(u, events).tasks[pid])
    ensures
      var s := After(u, events);
      var t := s.tasks[pid];
      && t.key in s.origins && t.m.erasure.WellFormed()
      && var o := s.origins[t.key];
         && (forall i :: 0 <= i < |t.collected| && t.collected[i].Some? ==>
               i < |o.codeword| && t.collected[i].value == o.codeword[i])
         && Encoded(u.coder, o.data, t.m.erasure) == Ok(o.codeword)
         && (CountSome(t.collected) >= o.params.k ==>
               Decoded(u.coder, t.collected, t.m.erasure, t.m.ciphertextLen) == Ok(o.data))
         && (t.key !in s.reaped && |Hit(s, t.key, t.floor)| + o.params.k <= o.params.n ==>
               t.m.IsReconstructable(CountSome(t.collected)))
  {
    hide Gates, After, Inv, RecordOf, Encoded, Decoded, CountSome, Hit, ReadOk, Lost;
    var s := After(u, events);
    RunInv(u, events);
    TaskFacts(u, s, pid);
    var t := s.tasks[pid];
    RecordBasics(u, s, t.key, t.m);
    CollectedDecodes(u, s, t.key, t.m, t.floor, {}, t.collected);
    forall i | 0 <= i < |t.collected| && t.collected[i].Some?
      ensures i < |s.origins[t.key].codeword| && t.collected[i].value == s.origins[t.key].codeword[i]
    {
      assert SlotOk(s, t.key, i, t.floor, {}, t.collected[i]);
    }
    if t.key !in s.reaped && |Hit(s, t.key, t.floor)| + t.m.erasure.k <= t.m.erasure.n {
      assert Hit(s, t.key, t.floor) + {} == Hit(s, t.key, t.floor);
      EnoughSlots(s, t.key, t.floor, {}, t.collected, t.m.erasure.k);
    }
  }

  // ---- Writes ----

  /** Besides faults and deletions, the anchor only ever changes by one codeword shard being written at its
      own index, by a put or by any of the repairs in flight, so no good shard is lost to them; and every
      push to a peer carries the codeword shard of its index. */
  lemma OnlyShardsWritten(u: Setup, events: seq<Event>, e: Event)
    requires Gates(u, events + [e])
    requires !e.Fault? && !(e.OnTask? && e.task.ReapShards?)
    ensures
      var s, s' := After(u, events), Step(u, After(u, events), e);
      && (s'.anchor == s.anchor || exists key, i: nat :: WritesShard(s, s', key, i))
      && (forall key, i: nat :: GoodAt(s, key, i) ==> GoodAt(s', key, i))
      && (forall d :: d in s'.delivered ==> CodewordShard(s', d.at, d.bytes))
  {
    hide Gates, After, Inv, Step, WritesShard, GoodAt, CodewordShard;
    var s := After(u, events);
    RunStep(u, events, e);
    AnchorWrites(u, s, e);
    OriginsKept(u, s, e);
    DeliveriesFacts(u, Step(u, s, e));
    forall key, i: nat | GoodAt(s, key, i)
      ensures GoodAt(Step(u, s, e), key, i)
    {
      GoodKept(s, Step(u, s, e), key, i);
    }
  }

  lemma DeliveriesFacts(u: Setup, s: State)
    requires Inv(u, s)
    ensures forall d :: d in s.delivered ==> CodewordShard(s, d.at, d.bytes)
  {
    hide OriginsOk, RecordsOk, BlobsOk, UploadsOk, TasksOk, CodewordShard;
  }

  lemma GoodKept(s: State, s': State, key: BlobKey, i: nat)
    requires SameOrigins(s, s') && GoodAt(s, key, i)
    requires s'.anchor == s.anchor || exists k, j: nat :: WritesShard(s, s', k, j)
    ensures GoodAt(s', key, i)
  {
    if s'.anchor != s.anchor {
      var k, j: nat :| WritesShard(s, s', k, j);
    }
  }

  // ---- Crashes ----

  /** In every reachable state, a blob has a manifest only once its put published one, the manifest lists at
      position i the hash of shard i of the encoding of the bytes put, its recorded peers accepted exactly
      that shard, and every shard the put wrote is still good unless a fault hit it since or it was reaped.
      A put stopped anywhere before publishing has left no manifest. */
  lemma CrashConsistent(u: Setup, events: seq<Event>, key: BlobKey)
    requires Gates(u, events) && key in After(u, events).manifests
    ensures
      var s := After(u, events);
      && key in s.origins && key in s.born && key in s.marks && key !in s.uploads
      && Stored(u.h, u.coder, s.manifests[key], s.origins[key].data, s.origins[key].codeword)
      && (forall i :: 0 <= i < |s.manifests[key].shards| ==>
            LocationsDelivered(s.manifests[key].shards[i], Own(key, i), s.origins[key].codeword[i], s.delivered))
      && (forall i: nat :: i < |s.origins[key].codeword| ==> Covered(s, key, i, s.marks[key]))
  {
    hide After, Supports, Encoded, Covered, RecordsOk, TasksOk, DeliveriesOk, Describes, LocationsDelivered,
      AnchorKnown, Unforged, Shown;
    var s := After(u, events);
    RunInv(u, events);
    RecordFacts(u, s, key);
    assert OriginOk(u, s.origins[key]);
    if key in s.uploads {
      UploadUnborn(u, s, key);
      assert false;
    }
  }

  // ---- Retention ----

  /** While a published blob's hold runs, its manifest is listed with the time of the put, none of its
      shards was deleted, and every one of them is good unless a fault hit it since the blob's mark. */
  lemma RetentionSafe(u: Setup, events: seq<Event>, key: BlobKey)
    requires Gates(u, events) && key in After(u, events).born
    requires
      var p := u.policy(key.0);
      p.minDays > 0 && After(u, events).now < After(u, events).born[key] + p.minDays * 86_400_000
    ensures
      var s := After(u, events);
      && key in s.manifests && s.manifests[key].createdAt == s.born[key]
      && key !in s.reaped
      && key in s.origins && key in s.marks
      && forall i: nat :: i < |s.origins[key].codeword| ==>
           GoodAt(s, key, i) || HitSince(s, key, i, s.marks[key])
  {
    hide After, GoodAt, HitSince, RecordOf, OriginsOk, UploadsOk, TasksOk, DeliveriesOk, RecordsOk;
    var s := After(u, events);
    RunInv(u, events);
    assert BornOk(u, s, key);
    assert !HoldOver(u, s, key);
    assert key in s.manifests;
    RecordFacts(u, s, key);
    RecordBasics(u, s, key, s.manifests[key]);
    forall i: nat | i < |s.origins[key].codeword|
      ensures GoodAt(s, key, i) || HitSince(s, key, i, s.marks[key])
    {
      assert Covered(s, key, i, s.marks[key]);
    }
  }
}
