/** The node agent's repair loops: the periodic sweep over every blob, the reactive heal after a degraded
    read, and the counters both feed. */
module NodeAgent {
  import opened Prelude
  import opened Domain
  import opened Stores
  import opened Capability
  import opened ErasureCoder
  import opened Put = PutBackup
  import opened Get = GetBackup
  import opened RepairShards
  import opened RepairLaws

  // ---- The counters ----

  /** All fields are `u64`. */
  datatype SweepStatus = SweepStatus(
    sweeps: nat, lastRunMs: nat, lastChecked: nat, lastRepaired: nat, lastUnrepairable: nat,
    totalRepaired: nat, reactiveHeals: nat, reactiveRepaired: nat, lastReactiveMs: nat)

  datatype Update =
    | Swept(now: Timestamp, checked: nat, repaired: nat, unrepairable: nat)
    | Healed(now: Timestamp, repaired: nat)

  /** One update under the lock; additions wrap. */
  function Updated(s: SweepStatus, u: Update): SweepStatus {
    match u
    case Swept(now, checked, repaired, unrepairable) =>
      s.(sweeps := Wrap(s.sweeps + 1), lastRunMs := now, lastChecked := checked, lastRepaired := repaired,
         lastUnrepairable := unrepairable, totalRepaired := Wrap(s.totalRepaired + repaired))
    case Healed(now, repaired) =>
      s.(reactiveHeals := Wrap(s.reactiveHeals + 1), reactiveRepaired := Wrap(s.reactiveRepaired + repaired),
         totalRepaired := Wrap(s.totalRepaired + repaired), lastReactiveMs := now)
  }

  const STARTED := SweepStatus(0, 0, 0, 0, 0, 0, 0, 0, 0)

  function StatusAfter(updates: seq<Update>): SweepStatus {
    if updates == [] then STARTED
    else Updated(StatusAfter(updates[..|updates| - 1]), updates[|updates| - 1])
  }

  function SweptSum(updates: seq<Update>): nat {
    if updates == [] then 0
    else
      SweptSum(updates[..|updates| - 1])
      + match updates[|updates| - 1] case Swept(_, _, repaired, _) => repaired case Healed(_, _) => 0
  }

  function HealedSum(updates: seq<Update>): nat {
    if updates == [] then 0
    else
      HealedSum(updates[..|updates| - 1])
      + match updates[|updates| - 1] case Swept(_, _, _, _) => 0 case Healed(_, repaired) => repaired
  }

  /** However sweeps and reactive heals interleave, the total is the sweeps' sum plus the reactive one. */
  lemma {:induction false} TotalIsSum(updates: seq<Update>)
    ensures
      var s := StatusAfter(updates);
      && s.reactiveRepaired == Wrap(HealedSum(updates))
      && s.totalRepaired == Wrap(SweptSum(updates) + HealedSum(updates))
  {
    hide Wrap;
    WrapSmall(0);
    if updates != [] {
      var front := updates[..|updates| - 1];
      TotalIsSum(front);
      match updates[|front|]
      case Swept(_, _, repaired, _) => WrapAdd(SweptSum(front) + HealedSum(front), repaired);
      case Healed(_, repaired) =>
        WrapAdd(SweptSum(front) + HealedSum(front), repaired);
        WrapAdd(HealedSum(front), repaired);
    }
  }

  /** How many of the updates are sweeps. */
  function SweepCount(updates: seq<Update>): nat {
    if updates == [] then 0
    else SweepCount(updates[..|updates| - 1]) + if updates[|updates| - 1].Swept? then 1 else 0
  }

  /** The counts of the status are those of the updates, in `u64`. */
  lemma {:induction false} CountsUpdates(updates: seq<Update>)
    ensures
      var s := StatusAfter(updates);
      && s.sweeps == Wrap(SweepCount(updates)) && SweepCount(updates) <= |updates|
      && s.reactiveHeals == Wrap(|updates| - SweepCount(updates))
  {
    hide Wrap;
    if updates == [] {
      WrapSmall(0);
    } else {
      var front := updates[..|updates| - 1];
      CountsUpdates(front);
      WrapAdd(SweepCount(front), 1);
      WrapAdd(|front| - SweepCount(front), 1);
    }
  }

  /** The other fields are those of the last sweep, however many heals came since. */
  lemma {:induction false} ShowsLastSweep(updates: seq<Update>, i: nat)
    requires i < |updates| && updates[i].Swept? && forall j :: i < j < |updates| ==> updates[j].Healed?
    ensures
      var s := StatusAfter(updates);
      && s.lastRunMs == updates[i].now && s.lastChecked == updates[i].checked
      && s.lastRepaired == updates[i].repaired && s.lastUnrepairable == updates[i].unrepairable
  {
    hide Wrap;
    if i < |updates| - 1 {
      ShowsLastSweep(updates[..|updates| - 1], i);
    }
  }

  /** And the time of the last heal, however many sweeps came since. */
  lemma {:induction false} ShowsLastHeal(updates: seq<Update>, i: nat)
    requires i < |updates| && updates[i].Healed? && forall j :: i < j < |updates| ==> updates[j].Swept?
    ensures StatusAfter(updates).lastReactiveMs == updates[i].now
  {
    hide Wrap;
    if i < |updates| - 1 {
      ShowsLastHeal(updates[..|updates| - 1], i);
    }
  }

  /** So the sweeps' own share can be read off the counters, exactly while nothing has wrapped. */
  lemma SweptShare(updates: seq<Update>)
    requires SweptSum(updates) + HealedSum(updates) < U64_LIMIT
    ensures
      var s := StatusAfter(updates);
      s.totalRepaired - s.reactiveRepaired == SweptSum(updates)
  {
    hide *;
    TotalIsSum(updates);
    WrapSmall(HealedSum(updates));
    WrapSmall(SweptSum(updates) + HealedSum(updates));
  }

  class SweepHandle {
    var status: SweepStatus

    constructor ()
      ensures status == STARTED == SweepStatus(0, 0, 0, 0, 0, 0, 0, 0, 0)
    {
      status := STARTED;
    }

    method Record(u: Update)
      modifies this
      ensures status == Updated(old(status), u)
    {
      match u
      case Swept(now, checked, repaired, unrepairable) =>
        status := status.(sweeps := Wrap(status.sweeps + 1), lastRunMs := now);
        status := status.(lastChecked := checked, lastRepaired := repaired, lastUnrepairable := unrepairable);
        status := status.(totalRepaired := Wrap(status.totalRepaired + repaired));
      case Healed(now, repaired) =>
        status := status.(reactiveHeals := Wrap(status.reactiveHeals + 1));
        status := status.(reactiveRepaired := Wrap(status.reactiveRepaired + repaired));
        status := status.(totalRepaired := Wrap(status.totalRepaired + repaired), lastReactiveMs := now);
    }
  }

  // ---- What a pass does to the blobs ----

  /** Every manifest in the store is the record of a completed put. */
  ghost predicate AllStored(
    h: Hash, coder: Coder, manifests: map<BlobKey, Manifest>, data: map<BlobKey, Bytes>,
    codewords: map<BlobKey, seq<Bytes>>)
  {
    forall key :: key in manifests ==>
      key in data && key in codewords && Stored(h, coder, manifests[key], data[key], codewords[key])
  }

  /** The assumption about the digest, for every blob of the store. */
  ghost predicate NoneForged(
    h: Hash, replies: Replies, manifests: map<BlobKey, Manifest>, codewords: map<BlobKey, seq<Bytes>>,
    objects: map<ShardRef, Bytes>)
  {
    forall key :: key in manifests && key in codewords ==>
      NoForgery(h, codewords[key], objects, replies, key.0, key.1)
  }

  lemma StoredHere(
    h: Hash, coder: Coder, replies: Replies, manifests: map<BlobKey, Manifest>, data: map<BlobKey, Bytes>,
    codewords: map<BlobKey, seq<Bytes>>, objects: map<ShardRef, Bytes>, key: BlobKey)
    requires key in manifests && AllStored(h, coder, manifests, data, codewords)
    requires NoneForged(h, replies, manifests, codewords, objects)
    ensures key in data && key in codewords && Stored(h, coder, manifests[key], data[key], codewords[key])
    ensures NoForgery(h, codewords[key], objects, replies, key.0, key.1)
  {
    hide Stored, NoForgery;
  }

  lemma NoneForgedKept(
    h: Hash, replies: Replies, manifests: map<BlobKey, Manifest>, codewords: map<BlobKey, seq<Bytes>>,
    before: map<ShardRef, Bytes>, after: map<ShardRef, Bytes>, key: BlobKey)
    requires NoneForged(h, replies, manifests, codewords, before) && key in codewords
    requires OnlyCodewordWrites(before, after, key.0, key.1, codewords[key])
    ensures NoneForged(h, replies, manifests, codewords, after)
  {
    forall other | other in manifests && other in codewords
      ensures NoForgery(h, codewords[other], after, replies, other.0, other.1)
    {
      hide NoForgery, OnlyCodewordWrites;
      NoForgeryKept(h, replies, other.0, other.1, codewords[other], before, after, key.0, key.1, codewords[key]);
    }
  }

  ghost predicate SameBlob(before: map<ShardRef, Bytes>, after: map<ShardRef, Bytes>, key: BlobKey) {
    forall at: ShardRef :: at.namespace == key.0 && at.blobId == key.1 ==>
      (at in after <==> at in before) && (at in after ==> after[at] == before[at])
  }

  lemma SameBlobSame(
    h: Hash, replies: Replies, before: map<ShardRef, Bytes>, after: map<ShardRef, Bytes>, key: BlobKey, m: Manifest)
    requires SameBlob(before, after, key)
    ensures Healthy(h, after, key.0, key.1, m) == Healthy(h, before, key.0, key.1, m)
    ensures Sources(h, after, replies, key.0, key.1, m) == Sources(h, before, replies, key.0, key.1, m)
  {
    forall i: nat | i < |m.shards|
      ensures AnchorCopy(h, after, ShardRef(key.0, key.1, m.shards[i].index), m.shards[i])
          <==> AnchorCopy(h, before, ShardRef(key.0, key.1, m.shards[i].index), m.shards[i])
    {}
  }

  ghost predicate Repairable(
    h: Hash, replies: Replies, manifests: map<BlobKey, Manifest>, objects: map<ShardRef, Bytes>, key: BlobKey)
    requires key in manifests
  {
    |Sources(h, objects, replies, key.0, key.1, manifests[key])| >= manifests[key].erasure.k
  }

  /** A blob whose repair ran through is entirely healthy when it was repairable and unchanged otherwise; one not
      visited yet is unchanged. */
  ghost predicate Passed(
    h: Hash, replies: Replies, manifests: map<BlobKey, Manifest>, visited: seq<BlobKey>, finished: set<BlobKey>,
    before: map<ShardRef, Bytes>, after: map<ShardRef, Bytes>)
  {
    forall key :: key in manifests ==>
      && (key !in visited ==> SameBlob(before, after, key))
      && (key in finished ==>
            if Repairable(h, replies, manifests, before, key) then
              Healthy(h, after, key.0, key.1, manifests[key]) == Upto(|manifests[key].shards|)
            else SameBlob(before, after, key))
  }

  /** No blob has fewer good shards than before, whatever failed. */
  ghost predicate NoneLost(
    h: Hash, manifests: map<BlobKey, Manifest>, before: map<ShardRef, Bytes>, after: map<ShardRef, Bytes>)
  {
    forall key :: key in manifests ==>
      Healthy(h, before, key.0, key.1, manifests[key]) <= Healthy(h, after, key.0, key.1, manifests[key])
  }

  /** The shards a repair of this blob would rewrite. */
  ghost function Due(
    h: Hash, replies: Replies, manifests: map<BlobKey, Manifest>, objects: map<ShardRef, Bytes>, key: BlobKey): nat
    requires key in manifests
  {
    if Repairable(h, replies, manifests, objects, key) then
      |manifests[key].shards| - |Healthy(h, objects, key.0, key.1, manifests[key])|
    else 0
  }

  /** The bad shards of those of these blobs that can be repaired. */
  ghost function BadShards(
    h: Hash, replies: Replies, manifests: map<BlobKey, Manifest>, objects: map<ShardRef, Bytes>,
    keys: set<BlobKey>): set<ShardRef>
    requires keys <= manifests.Keys
  {
    set key, i: nat |
      key in keys && i < |manifests[key].shards| && Repairable(h, replies, manifests, objects, key)
      && i !in Healthy(h, objects, key.0, key.1, manifests[key]) :: ShardRef(key.0, key.1, i)
  }

  /** Those of these blobs that cannot be repaired. */
  ghost function LostBlobs(
    h: Hash, replies: Replies, manifests: map<BlobKey, Manifest>, objects: map<ShardRef, Bytes>,
    keys: set<BlobKey>): set<BlobKey>
    requires keys <= manifests.Keys
  {
    set key | key in keys && !Repairable(h, replies, manifests, objects, key)
  }

  ghost function RefsOf(key: BlobKey, indices: set<nat>): set<ShardRef> {
    set i | i in indices :: ShardRef(key.0, key.1, i)
  }

  lemma {:induction false} RefsCount(key: BlobKey, indices: set<nat>)
    ensures |RefsOf(key, indices)| == |indices|
  {
    if i :| i in indices {
      RefsCount(key, indices - {i});
      assert RefsOf(key, indices) == RefsOf(key, indices - {i}) + {ShardRef(key.0, key.1, i)};
    }
  }

  lemma BadShardsAdd(
    h: Hash, replies: Replies, manifests: map<BlobKey, Manifest>, objects: map<ShardRef, Bytes>,
    keys: set<BlobKey>, key: BlobKey, bad: set<nat>)
    requires keys <= manifests.Keys && key in manifests && key !in keys
    requires bad == Upto(|manifests[key].shards|) - Healthy(h, objects, key.0, key.1, manifests[key])
    ensures
      var before, after :=
        BadShards(h, replies, manifests, objects, keys), BadShards(h, replies, manifests, objects, keys + {key});
      if Repairable(h, replies, manifests, objects, key) then
        after == before + RefsOf(key, bad) && before !! RefsOf(key, bad)
      else after == before
  {
    hide Healthy, Repairable;
  }

  lemma DueIsBad(
    h: Hash, objects: map<ShardRef, Bytes>, key: BlobKey, m: Manifest)
    ensures |Upto(|m.shards|) - Healthy(h, objects, key.0, key.1, m)|
         == |m.shards| - |Healthy(h, objects, key.0, key.1, m)|
  {
    var n, healthy := |m.shards|, Healthy(h, objects, key.0, key.1, m);
    assert healthy <= Upto(n);
    hide Healthy;
    assert Upto(n) == healthy + (Upto(n) - healthy);
  }

  /** One more blob adds what is due for it. */
  lemma DueAdds(
    h: Hash, replies: Replies, manifests: map<BlobKey, Manifest>, objects: map<ShardRef, Bytes>,
    keys: set<BlobKey>, key: BlobKey)
    requires keys <= manifests.Keys && key in manifests && key !in keys
    ensures |BadShards(h, replies, manifests, objects, keys + {key})|
         == |BadShards(h, replies, manifests, objects, keys)| + Due(h, replies, manifests, objects, key)
    ensures |LostBlobs(h, replies, manifests, objects, keys + {key})|
         == |LostBlobs(h, replies, manifests, objects, keys)|
            + if Repairable(h, replies, manifests, objects, key) then 0 else 1
  {
    hide BadShards, Healthy, RefsOf, Repairable, Upto, LostBlobs;
    var bad := Upto(|manifests[key].shards|) - Healthy(h, objects, key.0, key.1, manifests[key]);
    BadShardsAdd(h, replies, manifests, objects, keys, key, bad);
    DueIsBad(h, objects, key, manifests[key]);
    RefsCount(key, bad);
    LostBlobsAdd(h, replies, manifests, objects, keys, key);
  }

  lemma LostBlobsAdd(
    h: Hash, replies: Replies, manifests: map<BlobKey, Manifest>, objects: map<ShardRef, Bytes>,
    keys: set<BlobKey>, key: BlobKey)
    requires keys <= manifests.Keys && key in manifests && key !in keys
    ensures |LostBlobs(h, replies, manifests, objects, keys + {key})|
         == |LostBlobs(h, replies, manifests, objects, keys)|
            + if Repairable(h, replies, manifests, objects, key) then 0 else 1
  {
    hide Repairable;
    var before, after :=
      LostBlobs(h, replies, manifests, objects, keys), LostBlobs(h, replies, manifests, objects, keys + {key});
    if Repairable(h, replies, manifests, objects, key) {
      assert after == before;
    } else {
      assert after == before + {key};
    }
  }

  lemma OnlyThisBlob(
    before: map<ShardRef, Bytes>, after: map<ShardRef, Bytes>, key: BlobKey, other: BlobKey, codeword: seq<Bytes>)
    requires OnlyCodewordWrites(before, after, key.0, key.1, codeword) && other != key
    ensures SameBlob(before, after, other)
  {
    hide OnlyCodewordWrites;
    OtherBlobsUntouched(before, after, key.0, key.1, codeword);
    forall at: ShardRef | at.namespace == other.0 && at.blobId == other.1
      ensures at in after <==> at in WithoutBlob(after, key.0, key.1)
      ensures at in before <==> at in WithoutBlob(before, key.0, key.1)
    {}
  }

  lemma SameBlobTrans(a: map<ShardRef, Bytes>, b: map<ShardRef, Bytes>, c: map<ShardRef, Bytes>, key: BlobKey)
    requires SameBlob(a, b, key) && SameBlob(b, c, key)
    ensures SameBlob(a, c, key)
  {}

  /** A repair of one more blob, however it went, leaves the others as they were. */
  lemma PassTouch(
    h: Hash, replies: Replies, manifests: map<BlobKey, Manifest>, visited: seq<BlobKey>, finished: set<BlobKey>,
    before: map<ShardRef, Bytes>, mid: map<ShardRef, Bytes>, after: map<ShardRef, Bytes>, key: BlobKey,
    codeword: seq<Bytes>)
    requires key in manifests && key !in visited && key !in finished
    requires Passed(h, replies, manifests, visited, finished, before, mid)
    requires OnlyCodewordWrites(mid, after, key.0, key.1, codeword)
    ensures Passed(h, replies, manifests, visited + [key], finished, before, after)
  {
    forall other | other in manifests && other != key
      ensures SameBlob(mid, after, other)
      ensures Healthy(h, after, other.0, other.1, manifests[other])
           == Healthy(h, mid, other.0, other.1, manifests[other])
      ensures SameBlob(before, mid, other) ==> SameBlob(before, after, other)
    {
      OnlyThisBlob(mid, after, key, other, codeword);
      SameBlobSame(h, replies, mid, after, other, manifests[other]);
      if SameBlob(before, mid, other) {
        SameBlobTrans(before, mid, after, other);
      }
      hide SameBlob, Healthy;
    }
    hide SameBlob, Healthy, Sources, OnlyCodewordWrites, Repairable;
  }

  /** One more blob repaired, reported exactly as the state before the pass had it. */
  lemma PassStep(
    h: Hash, replies: Replies, manifests: map<BlobKey, Manifest>, visited: seq<BlobKey>, finished: set<BlobKey>,
    before: map<ShardRef, Bytes>, mid: map<ShardRef, Bytes>, after: map<ShardRef, Bytes>, key: BlobKey,
    codeword: seq<Bytes>, sent: seq<Delivery>, sent': seq<Delivery>, report: RepairReport)
    requires key in manifests && key !in visited && key !in finished
    requires Passed(h, replies, manifests, visited, finished, before, mid)
    requires OnlyCodewordWrites(mid, after, key.0, key.1, codeword)
    requires Outcome(h, replies, key.0, key.1, manifests[key], mid, after, sent, sent', report)
    ensures Passed(h, replies, manifests, visited + [key], finished + {key}, before, after)
    ensures report.repaired == Due(h, replies, manifests, before, key)
    ensures report.unrepairable <==> !Repairable(h, replies, manifests, before, key)
  {
    hide OnlyCodewordWrites, SameBlob, Healthy, Sources;
    PassTouch(h, replies, manifests, visited, finished, before, mid, after, key, codeword);
    assert SameBlob(before, mid, key);
    SameBlobSame(h, replies, before, mid, key, manifests[key]);
    if !Repairable(h, replies, manifests, before, key) {
      assert after == mid;
    }
  }

  lemma NoneLostStep(
    h: Hash, coder: Coder, manifests: map<BlobKey, Manifest>, data: map<BlobKey, Bytes>,
    codewords: map<BlobKey, seq<Bytes>>, before: map<ShardRef, Bytes>, mid: map<ShardRef, Bytes>,
    after: map<ShardRef, Bytes>, key: BlobKey)
    requires key in manifests && AllStored(h, coder, manifests, data, codewords)
    requires NoneLost(h, manifests, before, mid)
    requires OnlyCodewordWrites(mid, after, key.0, key.1, codewords[key])
    ensures NoneLost(h, manifests, before, after)
  {
    forall other | other in manifests
      ensures Healthy(h, mid, other.0, other.1, manifests[other])
          <= Healthy(h, after, other.0, other.1, manifests[other])
    {
      if other == key {
        NoGoodShardLost(h, coder, manifests[key], data[key], codewords[key], key.0, key.1, mid, after);
      } else {
        OnlyThisBlob(mid, after, key, other, codewords[key]);
        SameBlobSame(h, None, mid, after, other, manifests[other]);
      }
      hide Healthy, Stored, OnlyCodewordWrites, SameBlob;
    }
    hide Healthy, Stored, OnlyCodewordWrites, SameBlob;
  }

  /** Blobs of the store, none twice. */
  ghost predicate Visits(keys: seq<BlobKey>, manifests: map<BlobKey, Manifest>) {
    && (forall key :: key in keys ==> key in manifests)
    && (forall i, j :: 0 <= i < j < |keys| ==> keys[i] != keys[j])
  }

  lemma VisitsSnoc(keys: seq<BlobKey>, manifests: map<BlobKey, Manifest>, key: BlobKey)
    requires Visits(keys, manifests) && key in manifests && key !in keys
    ensures Visits(keys + [key], manifests)
  {}

  /** Every blob whose repair ran through was repaired if it could be, and the two counts say how many shards and
      how many hopeless blobs there were. */
  ghost predicate Counted(
    h: Hash, replies: Replies, manifests: map<BlobKey, Manifest>, visited: seq<BlobKey>, finished: set<BlobKey>,
    before: map<ShardRef, Bytes>, objects: map<ShardRef, Bytes>, repaired: nat, unrepairable: nat)
  {
    && (forall key :: key in finished ==> key in visited) && finished <= manifests.Keys
    && Passed(h, replies, manifests, visited, finished, before, objects)
    && repaired == |BadShards(h, replies, manifests, before, finished)|
    && unrepairable == |LostBlobs(h, replies, manifests, before, finished)|
  }

  lemma CountedStep(
    h: Hash, replies: Replies, manifests: map<BlobKey, Manifest>, visited: seq<BlobKey>, finished: set<BlobKey>,
    before: map<ShardRef, Bytes>, mid: map<ShardRef, Bytes>, after: map<ShardRef, Bytes>,
    repaired: nat, unrepairable: nat, key: BlobKey, codeword: seq<Bytes>,
    sent: seq<Delivery>, sent': seq<Delivery>, report: RepairReport)
    requires key in manifests && key !in visited
    requires Counted(h, replies, manifests, visited, finished, before, mid, repaired, unrepairable)
    requires OnlyCodewordWrites(mid, after, key.0, key.1, codeword)
    requires Outcome(h, replies, key.0, key.1, manifests[key], mid, after, sent, sent', report)
    ensures Counted(h, replies, manifests, visited + [key], finished + {key}, before, after,
      repaired + report.repaired, unrepairable + if report.unrepairable then 1 else 0)
  {
    hide Passed, BadShards, LostBlobs, Due, Repairable, Outcome, OnlyCodewordWrites;
    PassStep(h, replies, manifests, visited, finished, before, mid, after, key, codeword, sent, sent', report);
    DueAdds(h, replies, manifests, before, finished, key);
  }

  lemma NotCounted(
    h: Hash, replies: Replies, manifests: map<BlobKey, Manifest>, visited: seq<BlobKey>, finished: set<BlobKey>,
    before: map<ShardRef, Bytes>, mid: map<ShardRef, Bytes>, after: map<ShardRef, Bytes>,
    repaired: nat, unrepairable: nat, key: BlobKey, codeword: seq<Bytes>)
    requires key in manifests && key !in visited
    requires Counted(h, replies, manifests, visited, finished, before, mid, repaired, unrepairable)
    requires OnlyCodewordWrites(mid, after, key.0, key.1, codeword)
    ensures Counted(h, replies, manifests, visited + [key], finished, before, after, repaired, unrepairable)
  {
    hide Passed, BadShards, LostBlobs, Repairable, OnlyCodewordWrites;
    PassTouch(h, replies, manifests, visited, finished, before, mid, after, key, codeword);
  }

  /** The state of a pass after some blobs: no good shard lost, and exactly the repairs that ran through counted; with
      a reliable anchor all of them do. */
  ghost predicate Progress(
    h: Hash, replies: Replies, manifests: map<BlobKey, Manifest>, reliable: bool, visited: seq<BlobKey>,
    finished: set<BlobKey>, before: map<ShardRef, Bytes>, objects: map<ShardRef, Bytes>, checked: nat,
    repaired: nat, unrepairable: nat)
  {
    && Visits(visited, manifests)
    && checked == |visited|
    && NoneLost(h, manifests, before, objects)
    && Counted(h, replies, manifests, visited, finished, before, objects, repaired, unrepairable)
    && (reliable ==> forall key :: key in visited ==> key in finished)
  }

  lemma ProgressStart(
    h: Hash, replies: Replies, manifests: map<BlobKey, Manifest>, reliable: bool, before: map<ShardRef, Bytes>)
    ensures Progress(h, replies, manifests, reliable, [], {}, before, before, 0, 0, 0)
  {}

  /** One more blob of a pass; `report` is the repair's, when it ran through. */
  lemma ProgressStep(
    h: Hash, coder: Coder, replies: Replies, manifests: map<BlobKey, Manifest>, reliable: bool,
    visited: seq<BlobKey>, finished: set<BlobKey>, before: map<ShardRef, Bytes>, mid: map<ShardRef, Bytes>,
    after: map<ShardRef, Bytes>, checked: nat, repaired: nat, unrepairable: nat, data: map<BlobKey, Bytes>,
    codewords: map<BlobKey, seq<Bytes>>, key: BlobKey, sent: seq<Delivery>, sent': seq<Delivery>,
    report: PortResult<RepairReport>)
    requires AllStored(h, coder, manifests, data, codewords)
    requires key in manifests && key in codewords && key !in visited
    requires Progress(h, replies, manifests, reliable, visited, finished, before, mid, checked, repaired, unrepairable)
    requires OnlyCodewordWrites(mid, after, key.0, key.1, codewords[key])
    requires report.Ok? ==> Outcome(h, replies, key.0, key.1, manifests[key], mid, after, sent, sent', report.value)
    requires reliable ==> report.Ok?
    ensures
      match report
      case Ok(done) =>
        Progress(h, replies, manifests, reliable, visited + [key], finished + {key}, before, after, checked + 1,
          repaired + done.repaired, unrepairable + if done.unrepairable then 1 else 0)
      case Err(_) =>
        Progress(h, replies, manifests, reliable, visited + [key], finished, before, after, checked + 1,
          repaired, unrepairable)
  {
    hide Counted, NoneLost, Outcome, OnlyCodewordWrites, AllStored, Visits;
    VisitsSnoc(visited, manifests, key);
    NoneLostStep(h, coder, manifests, data, codewords, before, mid, after, key);
    match report
    case Ok(done) =>
      CountedStep(h, replies, manifests, visited, finished, before, mid, after, repaired, unrepairable, key,
        codewords[key], sent, sent', done);
    case Err(_) =>
      NotCounted(h, replies, manifests, visited, finished, before, mid, after, repaired, unrepairable, key,
        codewords[key]);
  }

  class NodeAgent {
    const metadata: MemoryMetadataStore
    const repair: RepairShards
    const get: GetBackup
    const sweep: SweepHandle

    constructor (metadata: MemoryMetadataStore, repair: RepairShards, get: GetBackup, sweep: SweepHandle)
      ensures this.metadata == metadata && this.repair == repair && this.get == get && this.sweep == sweep
    {
      this.metadata, this.repair, this.get, this.sweep := metadata, repair, get, sweep;
    }

    /** One blob of a pass: a failed repair counts as nothing. */
    method Visit(key: BlobKey, checked: nat, repaired: nat, unrepairable: nat,
      ghost data: map<BlobKey, Bytes>, ghost codewords: map<BlobKey, seq<Bytes>>,
      ghost visited: seq<BlobKey>, ghost finished: set<BlobKey>, ghost before: map<ShardRef, Bytes>)
      returns (repaired': nat, unrepairable': nat, ghost finished': set<BlobKey>)
      requires repair.metadata == metadata
      requires AllStored(repair.h, repair.coder, metadata.manifests, data, codewords)
      requires NoneForged(repair.h, repair.Mesh(), metadata.manifests, codewords, repair.anchor.objects)
      requires key in metadata.manifests && key !in visited
      requires Progress(repair.h, repair.Mesh(), metadata.manifests, repair.anchor.reliable, visited, finished,
        before, repair.anchor.objects, checked, repaired, unrepairable)
      modifies repair.anchor`objects, repair.transport`sent
      ensures Progress(repair.h, repair.Mesh(), metadata.manifests, repair.anchor.reliable, visited + [key],
        finished', before, repair.anchor.objects, checked + 1, repaired', unrepairable')
      ensures NoneForged(repair.h, repair.Mesh(), metadata.manifests, codewords, repair.anchor.objects)
    {
      hide *;
      ghost var mid, sent := repair.anchor.objects, repair.transport.sent;
      StoredHere(repair.h, repair.coder, repair.Mesh(), metadata.manifests, data, codewords, mid, key);
      var r := repair.Execute(key.0, key.1, data[key], codewords[key]);
      NoneForgedKept(repair.h, repair.Mesh(), metadata.manifests, codewords, mid, repair.anchor.objects, key);
      repaired', unrepairable', finished' := repaired, unrepairable, finished;
      if r.Ok? {
        repaired' := repaired + r.value.repaired;
        if r.value.unrepairable {
          unrepairable' := unrepairable + 1;
        }
        finished' := finished + {key};
      }
      ProgressStep(repair.h, repair.coder, repair.Mesh(), metadata.manifests, repair.anchor.reliable, visited,
        finished, before, mid, repair.anchor.objects, checked, repaired, unrepairable, data, codewords, key,
        sent, repair.transport.sent, r);
    }

    /** The blobs of one namespace. */
    method SweepNamespace(ns: NamespaceId, checked: nat, repaired: nat, unrepairable: nat,
      ghost data: map<BlobKey, Bytes>, ghost codewords: map<BlobKey, seq<Bytes>>,
      ghost visited: seq<BlobKey>, ghost finished: set<BlobKey>, ghost before: map<ShardRef, Bytes>)
      returns (checked': nat, repaired': nat, unrepairable': nat, ghost visited': seq<BlobKey>,
        ghost finished': set<BlobKey>)
      requires repair.metadata == metadata
      requires AllStored(repair.h, repair.coder, metadata.manifests, data, codewords)
      requires NoneForged(repair.h, repair.Mesh(), metadata.manifests, codewords, repair.anchor.objects)
      requires forall key :: key in visited ==> key.0 != ns
      requires Progress(repair.h, repair.Mesh(), metadata.manifests, repair.anchor.reliable, visited, finished,
        before, repair.anchor.objects, checked, repaired, unrepairable)
      modifies repair.anchor`objects, repair.transport`sent
      ensures forall key :: key in visited' <==> key in visited || (key in metadata.manifests && key.0 == ns)
      ensures Progress(repair.h, repair.Mesh(), metadata.manifests, repair.anchor.reliable, visited', finished',
        before, repair.anchor.objects, checked', repaired', unrepairable')
      ensures NoneForged(repair.h, repair.Mesh(), metadata.manifests, codewords, repair.anchor.objects)
    {
      hide AllStored, NoneForged, Progress;
      checked', repaired', unrepairable', visited', finished' := checked, repaired, unrepairable, visited, finished;
      var blobs := metadata.ListBlobs(ns);
      for i := 0 to |blobs|
        invariant forall key :: key in visited' <==> key in visited || (key.0 == ns && key.1 in blobs[..i])
        invariant Progress(repair.h, repair.Mesh(), metadata.manifests, repair.anchor.reliable, visited', finished',
          before, repair.anchor.objects, checked', repaired', unrepairable')
        invariant NoneForged(repair.h, repair.Mesh(), metadata.manifests, codewords, repair.anchor.objects)
      {
        assert blobs[i] in blobs && blobs[i] !in blobs[..i];
        assert blobs[..i + 1] == blobs[..i] + [blobs[i]];
        repaired', unrepairable', finished' :=
          Visit((ns, blobs[i]), checked', repaired', unrepairable', data, codewords, visited', finished', before);
        checked', visited' := checked' + 1, visited' + [(ns, blobs[i])];
      }
      assert blobs[..|blobs|] == blobs;
    }

    /** The heal behind a degraded read, spawned to run whenever it gets to: whatever happened since the read, it
        repairs the blob as it finds it, and counts what it rebuilt. */
    method HealReactively(ns: NamespaceId, blobId: BlobId, now: Timestamp,
      ghost data: Bytes, ghost codeword: seq<Bytes>)
      requires repair.metadata == metadata
      requires (ns, blobId) in metadata.manifests ==>
        && Stored(repair.h, repair.coder, metadata.manifests[(ns, blobId)], data, codeword)
        && NoForgery(repair.h, codeword, repair.anchor.objects, repair.Mesh(), ns, blobId)
      modifies repair.anchor`objects, repair.transport`sent, sweep
      ensures OnlyCodewordWrites(old(repair.anchor.objects), repair.anchor.objects, ns, blobId, codeword)
      ensures repair.anchor.reliable ==>
        Mended(repair.h, repair.Mesh(), metadata.manifests, (ns, blobId), old(repair.anchor.objects),
          repair.anchor.objects, old(sweep.status), sweep.status, now)
      ensures
        || sweep.status == old(sweep.status)
        || exists repaired: nat :: repaired > 0 && sweep.status == Updated(old(sweep.status), Healed(now, repaired))
    {
      hide *;
      ghost var before, sent, status := repair.anchor.objects, repair.transport.sent, sweep.status;
      var r := repair.Execute(ns, blobId, data, codeword);
      if r.Ok? && r.value.repaired > 0 {
        sweep.Record(Healed(now, r.value.repaired));
      }
      if repair.anchor.reliable {
        if (ns, blobId) in metadata.manifests {
          ReportMends(repair.h, repair.coder, repair.Mesh(), metadata.manifests, ns, blobId, data, codeword, before,
            repair.anchor.objects, sent, repair.transport.sent, r.value, status, now);
        } else {
          UnlistedUnmended(repair.h, repair.Mesh(), metadata.manifests, ns, blobId, codeword, before,
            repair.anchor.objects, status, now);
        }
      }
    }

    /** The read route: the exact ciphertext or an error, and a heal to be spawned exactly when the read was
        degraded. */
    method GetRoute(ns: NamespaceId, token: CapabilityToken, blobId: BlobId, now: Timestamp,
      ghost data: Bytes, ghost codeword: seq<Bytes>) returns (r: PortResult<Bytes>, heal: bool)
      requires get.metadata == metadata
      requires (ns, blobId) in metadata.manifests ==>
        && Stored(get.h, get.coder, metadata.manifests[(ns, blobId)], data, codeword)
        && NoForgery(get.h, codeword, get.anchor.objects, get.Mesh(), ns, blobId)
      // refused as the restore refuses
      ensures
        var auth := Authorize(get.verify, metadata.namespaces, now, ns, token, Get);
        && (auth.Err? ==> r == Err(auth.error) && !heal)
        && (auth.Ok? && (ns, blobId) !in metadata.manifests ==> r == Err(NotFound) && !heal)
      // and otherwise the restore's own answer, with a heal behind it when something was missing
      ensures
        Authorize(get.verify, metadata.namespaces, now, ns, token, Get).Ok? && (ns, blobId) in metadata.manifests ==>
          exists answer ::
            && Restored(get.h, get.anchor.objects, get.Mesh(), ns, blobId, metadata.manifests[(ns, blobId)], data,
                 get.anchor.reliable, answer)
            && r == (if answer.Ok? then Ok(answer.value.ciphertext) else Err(answer.error))
            && heal == (answer.Ok? && answer.value.shardsMissing > 0)
      // with a reliable anchor, exactly the data when k indices have a source
      ensures
        Authorize(get.verify, metadata.namespaces, now, ns, token, Get).Ok? && (ns, blobId) in metadata.manifests
        && get.anchor.reliable ==>
          var m := metadata.manifests[(ns, blobId)];
          var found := |Sources(get.h, get.anchor.objects, get.Mesh(), ns, blobId, m)|;
          && r == (if found >= m.erasure.k then Ok(data) else Err(Unavailable))
          && (heal <==> m.erasure.k <= found < |m.shards|)
      // and with k peer copies whatever the anchor does
      ensures
        Authorize(get.verify, metadata.namespaces, now, ns, token, Get).Ok? && (ns, blobId) in metadata.manifests ==>
          var m := metadata.manifests[(ns, blobId)];
          |PeerSources(get.h, get.Mesh(), ns, blobId, m)| >= m.erasure.k ==> r == Ok(data)
      ensures r.Ok? ==> r.value == data && (ns, blobId) in metadata.manifests
    {
      hide Stored, Authorize, Sources, PeerSources, NoForgery;
      var outcome := get.Restore(ns, token, blobId, now, data, codeword);
      if outcome.Err? {
        return Err(outcome.error), false;
      }
      return Ok(outcome.value.ciphertext), outcome.value.shardsMissing > 0;
    }

    /** One pass. With a reliable anchor every blob of a registered namespace with k valid copies ends fully
        healthy, the counters say how many shards that took and how many blobs were beyond repair; and no
        blob loses a good shard whatever fails. */
    method SweepPass(now: Timestamp, ghost data: map<BlobKey, Bytes>, ghost codewords: map<BlobKey, seq<Bytes>>)
      returns (ghost visited: seq<BlobKey>, ghost finished: set<BlobKey>)
      requires repair.metadata == metadata
      requires AllStored(repair.h, repair.coder, metadata.manifests, data, codewords)
      requires NoneForged(repair.h, repair.Mesh(), metadata.manifests, codewords, repair.anchor.objects)
      modifies repair.anchor`objects, repair.transport`sent, sweep
      ensures forall key :: key in visited <==> key in metadata.manifests && key.0 in metadata.namespaces
      ensures exists repaired, unrepairable ::
        && sweep.status == Updated(old(sweep.status), Swept(now, |visited|, repaired, unrepairable))
        && Progress(repair.h, repair.Mesh(), metadata.manifests, repair.anchor.reliable, visited,
             finished, old(repair.anchor.objects), repair.anchor.objects, |visited|, repaired, unrepairable)
    {
      ghost var before := repair.anchor.objects;
      ProgressStart(repair.h, repair.Mesh(), metadata.manifests, repair.anchor.reliable, before);
      var namespaces := metadata.ListNamespaces();
      var checked, repaired, unrepairable := 0, 0, 0;
      visited, finished := [], {};
      hide AllStored, NoneForged, Progress;
      for i := 0 to |namespaces|
        invariant forall key :: key in visited <==> key in metadata.manifests && key.0 in namespaces[..i]
        invariant Progress(repair.h, repair.Mesh(), metadata.manifests, repair.anchor.reliable, visited, finished,
          before, repair.anchor.objects, checked, repaired, unrepairable)
        invariant NoneForged(repair.h, repair.Mesh(), metadata.manifests, codewords, repair.anchor.objects)
        invariant sweep.status == old(sweep.status)
      {
        assert namespaces[i] !in namespaces[..i];
        assert namespaces[..i + 1] == namespaces[..i] + [namespaces[i]];
        checked, repaired, unrepairable, visited, finished :=
          SweepNamespace(namespaces[i], checked, repaired, unrepairable, data, codewords, visited, finished, before);
      }
      assert namespaces[..|namespaces|] == namespaces;
      ProgressCounts(repair.h, repair.Mesh(), metadata.manifests, repair.anchor.reliable, visited, finished,
        before, repair.anchor.objects, checked, repaired, unrepairable);
      sweep.Record(Swept(now, checked, repaired, unrepairable));
    }
  }

  /** What a heal does: a listed blob with k sources and a bad shard is made whole, and counted with the number
      of its bad shards; anything else is left alone and not counted. */
  ghost predicate Mended(
    h: Hash, replies: Replies, manifests: map<BlobKey, Manifest>, key: BlobKey, before: map<ShardRef, Bytes>,
    after: map<ShardRef, Bytes>, status: SweepStatus, status': SweepStatus, now: Timestamp)
  {
    if key in manifests && Repairable(h, replies, manifests, before, key)
       && |Healthy(h, before, key.0, key.1, manifests[key])| < |manifests[key].shards|
    then
      && status' == Updated(status, Healed(now, Due(h, replies, manifests, before, key)))
      && Healthy(h, after, key.0, key.1, manifests[key]) == Upto(|manifests[key].shards|)
    else status' == status && after == before
  }

  lemma ReportMends(
    h: Hash, coder: Coder, replies: Replies, manifests: map<BlobKey, Manifest>, ns: NamespaceId, blob: BlobId,
    data: Bytes, codeword: seq<Bytes>, before: map<ShardRef, Bytes>, after: map<ShardRef, Bytes>,
    sent: seq<Delivery>, sent': seq<Delivery>, report: RepairReport, status: SweepStatus, now: Timestamp)
    requires (ns, blob) in manifests && Stored(h, coder, manifests[(ns, blob)], data, codeword)
    requires NoForgery(h, codeword, before, replies, ns, blob)
    requires OnlyCodewordWrites(before, after, ns, blob, codeword)
    requires Outcome(h, replies, ns, blob, manifests[(ns, blob)], before, after, sent, sent', report)
    ensures Mended(h, replies, manifests, (ns, blob), before, after, status,
      if report.repaired > 0 then Updated(status, Healed(now, report.repaired)) else status, now)
  {
    hide Healthy, Sources, Updated, Stored, NoForgery, OnlyCodewordWrites;
    FullUnchanged(h, coder, replies, manifests[(ns, blob)], data, codeword, ns, blob, before, after);
  }

  lemma FullUnchanged(
    h: Hash, coder: Coder, replies: Replies, m: Manifest, data: Bytes, codeword: seq<Bytes>, ns: NamespaceId,
    blob: BlobId, before: map<ShardRef, Bytes>, after: map<ShardRef, Bytes>)
    requires Stored(h, coder, m, data, codeword) && OnlyCodewordWrites(before, after, ns, blob, codeword)
    requires NoForgery(h, codeword, before, replies, ns, blob)
    ensures |Healthy(h, before, ns, blob, m)| == |m.shards| ==> after == before
  {
    hide *;
    if |Healthy(h, before, ns, blob, m)| == |m.shards| {
      HealthyWithin(h, before, ns, blob, m);
      FullSubset(Healthy(h, before, ns, blob, m), Upto(|m.shards|));
      HealthyUnchanged(h, coder, replies, m, data, codeword, ns, blob, before, after);
    }
  }

  lemma HealthyWithin(h: Hash, objects: map<ShardRef, Bytes>, ns: NamespaceId, blob: BlobId, m: Manifest)
    ensures Healthy(h, objects, ns, blob, m) <= Upto(|m.shards|)
  {}

  lemma UnlistedUnmended(
    h: Hash, replies: Replies, manifests: map<BlobKey, Manifest>, ns: NamespaceId, blob: BlobId, codeword: seq<Bytes>,
    before: map<ShardRef, Bytes>, after: map<ShardRef, Bytes>, status: SweepStatus, now: Timestamp)
    requires (ns, blob) !in manifests && after == before
    ensures Mended(h, replies, manifests, (ns, blob), before, after, status, status, now)
  {}

  /** A heal that finds the blob as the degraded read did makes it whole, and counts at least as many shards as
      the read found missing. */
  lemma DegradedReadHeals(
    h: Hash, replies: Replies, manifests: map<BlobKey, Manifest>, key: BlobKey, data: Bytes,
    before: map<ShardRef, Bytes>, after: map<ShardRef, Bytes>, read: PortResult<RestoreOutcome>,
    status: SweepStatus, status': SweepStatus, now: Timestamp)
    requires key in manifests
    requires Restored(h, before, replies, key.0, key.1, manifests[key], data, true, read)
    requires read.Ok? && read.value.shardsMissing > 0
    requires Mended(h, replies, manifests, key, before, after, status, status', now)
    ensures exists repaired: nat ::
      && read.value.shardsMissing <= repaired && status' == Updated(status, Healed(now, repaired))
      && Healthy(h, after, key.0, key.1, manifests[key]) == Upto(|manifests[key].shards|)
  {
    hide Healthy, Sources, Updated;
    SourcesCoverHealthy(h, replies, before, key.0, key.1, manifests[key]);
  }

  lemma ProgressCounts(
    h: Hash, replies: Replies, manifests: map<BlobKey, Manifest>, reliable: bool, visited: seq<BlobKey>,
    finished: set<BlobKey>, before: map<ShardRef, Bytes>, objects: map<ShardRef, Bytes>, checked: nat,
    repaired: nat, unrepairable: nat)
    requires Progress(h, replies, manifests, reliable, visited, finished, before, objects,
      checked, repaired, unrepairable)
    ensures checked == |visited|
  {}
}
