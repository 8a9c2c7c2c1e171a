/** What every reachable state of the system keeps, and the proof that every step keeps it. */
module ClusterInvariants {
  import opened Prelude
  import opened Domain
  import opened Stores
  import opened ErasureCoder
  import opened Uploads = PutBackup
  import opened Cluster

  // ---- Shards: good, hit, covered ----

  ghost predicate GoodAt(s: State, key: BlobKey, i: nat) {
    && key in s.origins && i < |s.origins[key].codeword|
    && Own(key, i) in s.anchor && s.anchor[Own(key, i)] == s.origins[key].codeword[i]
  }

  /** A fault hit the shard since this point of the damage log. */
  ghost predicate HitSince(s: State, key: BlobKey, i: nat, since: nat) {
    since <= |s.damage| && Own(key, i) in s.damage[since..]
  }

  ghost predicate Lost(s: State, key: BlobKey, i: nat, since: nat) {
    key in s.reaped || HitSince(s, key, i, since)
  }

  ghost predicate Covered(s: State, key: BlobKey, i: nat, since: nat) {
    GoodAt(s, key, i) || Lost(s, key, i, since)
  }

  // ---- How a state may evolve ----

  ghost predicate Grows(s: State, s': State) {
    && s.now <= s'.now
    && s.damage <= s'.damage && s.delivered <= s'.delivered
    && s.reaped <= s'.reaped
    && (forall key :: key in s.origins ==> key in s'.origins && s'.origins[key] == s.origins[key])
    && (forall key :: key in s.born ==> key in s'.born && s'.born[key] == s.born[key])
    && (forall key :: key in s.marks ==> key in s'.marks && s'.marks[key] >= s.marks[key])
  }

  /** A good shard stays good unless a fault hits it or its blob is reaped. */
  ghost predicate Keeps(s: State, s': State) {
    forall key, i: nat :: GoodAt(s, key, i) ==> GoodAt(s', key, i) || Lost(s', key, i, |s.damage|)
  }

  ghost predicate Evolves(s: State, s': State) { Grows(s, s') && Keeps(s, s') }

  lemma LostStable(s: State, s': State, key: BlobKey, i: nat, since: nat)
    requires Grows(s, s') && Lost(s, key, i, since)
    ensures Lost(s', key, i, since)
  {
    if key !in s.reaped {
      assert s'.damage[since..] == s.damage[since..] + s'.damage[|s.damage|..];
    }
  }

  lemma LostEarlier(s: State, key: BlobKey, i: nat, since: nat, earlier: nat)
    requires Lost(s, key, i, since) && earlier <= since
    ensures Lost(s, key, i, earlier)
  {
    if key !in s.reaped {
      assert s.damage[earlier..] == s.damage[earlier..since] + s.damage[since..];
    }
  }

  lemma CoveredStable(s: State, s': State, key: BlobKey, i: nat, since: nat)
    requires Evolves(s, s') && Covered(s, key, i, since) && since <= |s.damage|
    ensures Covered(s', key, i, since)
  {
    if Lost(s, key, i, since) {
      LostStable(s, s', key, i, since);
    } else if !GoodAt(s', key, i) {
      LostEarlier(s', key, i, |s.damage|, since);
    }
  }

  // ---- The invariant ----

  ghost predicate OriginOk(u: Setup, o: Origin) {
    Supports(u.coder, o.params) && Encoded(u.coder, o.data, o.params) == Ok(o.codeword)
  }

  /** The manifest is what the put of this blob recorded, up to its name. */
  ghost predicate RecordOf(u: Setup, s: State, key: BlobKey, m: Manifest) {
    && key in s.origins && key in s.born && key in s.marks
    && key == (m.namespace, m.blobId)
    && m.erasure == s.origins[key].params && m.ciphertextLen == |s.origins[key].data|
    && m.createdAt == s.born[key]
    && Describes(u.h, m, s.origins[key].codeword)
    && forall i :: 0 <= i < |m.shards| ==>
         LocationsDelivered(m.shards[i], Own(key, i), s.origins[key].codeword[i], s.delivered)
  }

  /** A published blob: every shard good or hit since the blob's mark; its manifest goes only after its hold. */
  ghost predicate BornOk(u: Setup, s: State, key: BlobKey) {
    && key in s.origins && key in s.born && key in s.marks
    && s.marks[key] <= |s.damage| && s.born[key] <= s.now
    && (forall i: nat :: i < |s.origins[key].codeword| ==> Covered(s, key, i, s.marks[key]))
  }

  ghost predicate HoldOver(u: Setup, s: State, key: BlobKey) {
    u.policy(key.0).minDays == 0 || (key in s.born && u.policy(key.0).HoldElapsed(s.born[key], s.now))
  }

  ghost predicate UploadOk(u: Setup, s: State, key: BlobKey, p: Upload) {
    && key in s.origins && key !in s.born && key !in s.marks && key !in s.manifests
    && p.start <= |s.damage|
    && |p.metas| <= p.written <= |p.metas| + 1 && p.written <= |s.origins[key].codeword|
    && Listed(u.h, p.metas, key.0, key.1, s.origins[key].codeword, s.delivered)
    && (p.written > |p.metas| ==> forall peer :: peer in p.placed ==>
          Delivery(peer, Own(key, |p.metas|), s.origins[key].codeword[|p.metas|], true) in s.delivered)
    && (p.stamp.Some? ==> p.stamp.value <= s.now && |p.metas| == |s.origins[key].codeword|)
    && (forall i: nat :: i < p.written ==> Covered(s, key, i, p.start))
  }

  /** A slot collected for shard i is its codeword shard; an empty one means it was lost, or the read failed. */
  ghost predicate SlotOk(s: State, key: BlobKey, i: nat, floor: nat, failed: set<nat>, slot: Option<Bytes>) {
    && key in s.origins && i < |s.origins[key].codeword|
    && match slot
       case Some(bytes) => bytes == s.origins[key].codeword[i]
       case None => Lost(s, key, i, floor) || i in failed
  }

  ghost predicate SlotsOk(s: State, key: BlobKey, floor: nat, failed: set<nat>, collected: seq<Option<Bytes>>) {
    forall i :: 0 <= i < |collected| ==> SlotOk(s, key, i, floor, failed, collected[i])
  }

  /** Every shard read and not found bad is covered since the repair began. */
  ghost predicate ReadOk(s: State, key: BlobKey, start: nat, upto: nat, bad: seq<nat>) {
    && start <= |s.damage|
    && (forall i :: i in bad ==> i < upto)
    && forall i: nat :: i < upto && i !in bad ==> Covered(s, key, i, start)
  }

  ghost predicate TaskOk(u: Setup, s: State, t: Task) {
    match t
    case Repairing(key, m, start, floor, collected, bad) =>
      && RecordOf(u, s, key, m) && floor <= s.marks[key] && |collected| <= |m.shards|
      && SlotsOk(s, key, floor, {}, collected)
      && ReadOk(s, key, start, |collected|, bad)
    case Rewriting(key, start, renewed, bad, next) =>
      && key in s.origins && key in s.born && key in s.marks
      && (bad != [] ==> renewed == s.origins[key].codeword)
      && next <= |bad|
      && ReadOk(s, key, start, |s.origins[key].codeword|, bad[next..])
      && (forall i :: i in bad ==> i < |s.origins[key].codeword|)
    case Restoring(key, m, floor, collected, failed) =>
      && RecordOf(u, s, key, m) && floor <= s.marks[key] && |collected| <= |m.shards|
      && SlotsOk(s, key, floor, failed, collected)
    case Naming(key, m) => RecordOf(u, s, key, m)
    case Reaping(key, created, granted, dropped) =>
      && (granted ==> HoldOver(u, s, key))
      && (dropped ==> key in s.reaped)
      && (!granted ==> key in s.born && created == s.born[key])
  }

  ghost predicate CodewordShard(s: State, at: ShardRef, bytes: Bytes) {
    var key := (at.namespace, at.blobId);
    key in s.origins && at.index < |s.origins[key].codeword| && bytes == s.origins[key].codeword[at.index]
  }

  /** No bytes from outside carry the hash of a stored shard without being that shard. */
  ghost predicate Unforged(u: Setup, s: State, shown: set<Bytes>) {
    forall key, i: nat, b ::
      key in s.origins && i < |s.origins[key].codeword| && b in shown && u.h(b) == u.h(s.origins[key].codeword[i]) ==>
        b == s.origins[key].codeword[i]
  }

  /** The anchor holds codeword shards at their place, and bytes from outside. */
  ghost predicate AnchorKnown(s: State, shown: set<Bytes>) {
    forall at :: at in s.anchor ==> s.anchor[at] in shown || CodewordShard(s, at, s.anchor[at])
  }

  ghost predicate OriginsOk(u: Setup, s: State) {
    forall key :: key in s.origins ==> OriginOk(u, s.origins[key])
  }

  ghost predicate RecordsOk(u: Setup, s: State) {
    forall key :: key in s.manifests ==> RecordOf(u, s, key, s.manifests[key])
  }

  ghost predicate BlobsOk(u: Setup, s: State) {
    && s.marks.Keys == s.born.Keys
    && (forall key :: key in s.born ==> BornOk(u, s, key))
    && (forall key :: key in s.born && key !in s.manifests ==> key in s.reaped)
    && (forall key :: key in s.reaped ==> HoldOver(u, s, key))
  }

  ghost predicate UploadsOk(u: Setup, s: State) {
    forall key :: key in s.uploads ==> UploadOk(u, s, key, s.uploads[key])
  }

  ghost predicate TasksOk(u: Setup, s: State) {
    forall pid :: pid in s.tasks ==> TaskOk(u, s, s.tasks[pid])
  }

  ghost predicate DeliveriesOk(s: State) {
    forall d :: d in s.delivered ==> CodewordShard(s, d.at, d.bytes)
  }

  ghost predicate Inv(u: Setup, s: State) {
    OriginsOk(u, s) && RecordsOk(u, s) && BlobsOk(u, s) && UploadsOk(u, s) && TasksOk(u, s) && DeliveriesOk(s)
  }

  // ---- Each part survives any evolution ----

  lemma RecordStable(u: Setup, s: State, s': State, key: BlobKey, m: Manifest)
    requires Grows(s, s') && RecordOf(u, s, key, m)
    ensures RecordOf(u, s', key, m)
  {
    hide Describes;
  }

  lemma BornStable(u: Setup, s: State, s': State, key: BlobKey)
    requires Evolves(s, s') && BornOk(u, s, key) && s'.marks[key] == s.marks[key]
    ensures BornOk(u, s', key)
  {
    hide Covered, Keeps;
    forall i: nat | i < |s.origins[key].codeword|
      ensures Covered(s', key, i, s.marks[key])
    {
      CoveredStable(s, s', key, i, s.marks[key]);
    }
  }

  lemma HoldStable(u: Setup, s: State, s': State, key: BlobKey)
    requires Grows(s, s') && HoldOver(u, s, key)
    ensures HoldOver(u, s', key)
  {
    if u.policy(key.0).minDays != 0 {
      HoldMonotone(u.policy(key.0), s.born[key], s.born[key], s.now, s'.now);
    }
  }

  lemma UploadStable(u: Setup, s: State, s': State, key: BlobKey, p: Upload)
    requires Evolves(s, s') && UploadOk(u, s, key, p)
    requires key !in s'.born && key !in s'.marks && key !in s'.manifests
    ensures UploadOk(u, s', key, p)
  {
    hide Covered, Keeps;
    forall i: nat | i < p.written
      ensures Covered(s', key, i, p.start)
    {
      CoveredStable(s, s', key, i, p.start);
    }
  }

  lemma SlotsStable(
    s: State, s': State, key: BlobKey, floor: nat, failed: set<nat>, collected: seq<Option<Bytes>>)
    requires Grows(s, s') && SlotsOk(s, key, floor, failed, collected)
    ensures SlotsOk(s', key, floor, failed, collected)
  {
    hide Lost;
    forall i | 0 <= i < |collected|
      ensures SlotOk(s', key, i, floor, failed, collected[i])
    {
      assert SlotOk(s, key, i, floor, failed, collected[i]);
      if collected[i].None? && i !in failed {
        LostStable(s, s', key, i, floor);
      }
    }
  }

  lemma ReadStable(s: State, s': State, key: BlobKey, start: nat, upto: nat, bad: seq<nat>)
    requires Evolves(s, s') && ReadOk(s, key, start, upto, bad)
    ensures ReadOk(s', key, start, upto, bad)
  {
    hide Covered, Keeps;
    forall i: nat | i < upto && i !in bad
      ensures Covered(s', key, i, start)
    {
      CoveredStable(s, s', key, i, start);
    }
  }

  lemma TaskStable(u: Setup, s: State, s': State, t: Task)
    requires Evolves(s, s') && TaskOk(u, s, t)
    ensures TaskOk(u, s', t)
  {
    hide RecordOf, SlotsOk, ReadOk, HoldOver, Keeps;
    match t
    case Repairing(key, m, start, floor, collected, bad) =>
      RecordStable(u, s, s', key, m);
      RecordBasics(u, s, key, m);
      SlotsStable(s, s', key, floor, {}, collected);
      ReadStable(s, s', key, start, |collected|, bad);
    case Rewriting(key, start, renewed, bad, next) =>
      ReadStable(s, s', key, start, |s.origins[key].codeword|, bad[next..]);
    case Restoring(key, m, floor, collected, failed) =>
      RecordStable(u, s, s', key, m);
      RecordBasics(u, s, key, m);
      SlotsStable(s, s', key, floor, failed, collected);
    case Naming(key, m) =>
      RecordStable(u, s, s', key, m);
    case Reaping(key, created, granted, dropped) =>
      if granted {
        HoldStable(u, s, s', key);
      }
  }

  lemma RecordBasics(u: Setup, s: State, key: BlobKey, m: Manifest)
    requires RecordOf(u, s, key, m)
    ensures key in s.origins && key in s.born && key in s.marks && key == (m.namespace, m.blobId)
    ensures |m.shards| == |s.origins[key].codeword| == m.erasure.n && m.createdAt == s.born[key]
    ensures m.erasure == s.origins[key].params && m.ciphertextLen == |s.origins[key].data|
    ensures forall i :: 0 <= i < |m.shards| ==> m.shards[i].index == i
  {}

  // ---- A step needs to account only for what it changed ----

  ghost predicate NewRecords(u: Setup, s: State, s': State) {
    forall key :: key in s'.manifests ==>
      (key in s.manifests && s'.manifests[key] == s.manifests[key]) || RecordOf(u, s', key, s'.manifests[key])
  }

  ghost predicate NewBlobs(u: Setup, s: State, s': State) {
    && s'.marks.Keys == s'.born.Keys
    && (forall key :: key in s'.born ==>
          (key in s.born && key in s.marks && key in s'.marks && s'.marks[key] == s.marks[key]) || BornOk(u, s', key))
    && (forall key :: key in s'.born && key !in s'.manifests ==>
          (key in s.born && key !in s.manifests) || key in s'.reaped)
    && (forall key :: key in s'.reaped ==> key in s.reaped || HoldOver(u, s', key))
  }

  ghost predicate NewUploads(u: Setup, s: State, s': State) {
    forall key :: key in s'.uploads ==>
      || UploadOk(u, s', key, s'.uploads[key])
      || (key in s.uploads && s'.uploads[key] == s.uploads[key]
          && key !in s'.born && key !in s'.marks && key !in s'.manifests)
  }

  ghost predicate NewTasks(u: Setup, s: State, s': State) {
    forall pid :: pid in s'.tasks ==>
      (pid in s.tasks && s'.tasks[pid] == s.tasks[pid]) || TaskOk(u, s', s'.tasks[pid])
  }

  ghost predicate NewDeliveries(s: State, s': State) {
    forall d :: d in s'.delivered ==> d in s.delivered || CodewordShard(s', d.at, d.bytes)
  }

  ghost predicate Accounted(u: Setup, s: State, s': State) {
    && OriginsOk(u, s') && NewRecords(u, s, s') && NewBlobs(u, s, s') && NewUploads(u, s, s')
    && NewTasks(u, s, s') && NewDeliveries(s, s')
  }

  lemma RecordsKept(u: Setup, s: State, s': State)
    requires Grows(s, s') && RecordsOk(u, s) && NewRecords(u, s, s')
    ensures RecordsOk(u, s')
  {
    hide RecordOf, Grows;
    forall key | key in s'.manifests
      ensures RecordOf(u, s', key, s'.manifests[key])
    {
      if key in s.manifests && s'.manifests[key] == s.manifests[key] {
        RecordStable(u, s, s', key, s.manifests[key]);
      }
    }
  }

  lemma BlobsKept(u: Setup, s: State, s': State)
    requires Evolves(s, s') && BlobsOk(u, s) && NewBlobs(u, s, s')
    ensures BlobsOk(u, s')
  {
    hide BornOk, HoldOver, Keeps;
    forall key | key in s'.born
      ensures BornOk(u, s', key)
    {
      if !BornOk(u, s', key) {
        BornStable(u, s, s', key);
      }
    }
    forall key | key in s'.reaped
      ensures HoldOver(u, s', key)
    {
      if !HoldOver(u, s', key) {
        HoldStable(u, s, s', key);
      }
    }
  }

  lemma UploadsKept(u: Setup, s: State, s': State)
    requires Evolves(s, s') && UploadsOk(u, s) && NewUploads(u, s, s')
    ensures UploadsOk(u, s')
  {
    hide UploadOk, Evolves;
    forall key | key in s'.uploads
      ensures UploadOk(u, s', key, s'.uploads[key])
    {
      if !UploadOk(u, s', key, s'.uploads[key]) {
        UploadStable(u, s, s', key, s.uploads[key]);
      }
    }
  }

  lemma TasksKept(u: Setup, s: State, s': State)
    requires Evolves(s, s') && TasksOk(u, s) && NewTasks(u, s, s')
    ensures TasksOk(u, s')
  {
    hide TaskOk, Evolves;
    forall pid | pid in s'.tasks
      ensures TaskOk(u, s', s'.tasks[pid])
    {
      if pid in s.tasks && s'.tasks[pid] == s.tasks[pid] {
        TaskStable(u, s, s', s.tasks[pid]);
      }
    }
  }

  lemma DeliveriesKept(s: State, s': State)
    requires Grows(s, s') && DeliveriesOk(s) && NewDeliveries(s, s')
    ensures DeliveriesOk(s')
  {}

  lemma AccountedInv(u: Setup, s: State, s': State)
    requires Inv(u, s) && Evolves(s, s') && Accounted(u, s, s')
    ensures Inv(u, s')
  {
    hide RecordsOk, BlobsOk, UploadsOk, TasksOk, DeliveriesOk, OriginsOk;
    hide NewRecords, NewBlobs, NewUploads, NewTasks, NewDeliveries, Grows, Keeps;
    RecordsKept(u, s, s');
    BlobsKept(u, s, s');
    UploadsKept(u, s, s');
    TasksKept(u, s, s');
    DeliveriesKept(s, s');
  }

  // ---- What keeps good shards good ----

  lemma SameAnchorKeeps(s: State, s': State)
    requires s'.anchor == s.anchor && Grows(s, s')
    ensures Keeps(s, s')
  {}

  /** Writing a codeword shard at its own index. */
  lemma WriteKeeps(s: State, s': State, key: BlobKey, i: nat)
    requires Grows(s, s') && key in s.origins && i < |s.origins[key].codeword|
    requires s'.anchor == s.anchor[Own(key, i) := s.origins[key].codeword[i]]
    ensures Keeps(s, s') && GoodAt(s', key, i)
  {}

  /** A change confined to one place hit by a fault. */
  lemma FaultKeeps(s: State, s': State, at: ShardRef)
    requires Grows(s, s') && s'.damage == s.damage + [at]
    requires forall a :: a in s.anchor && a != at ==> a in s'.anchor && s'.anchor[a] == s.anchor[a]
    ensures Keeps(s, s')
  {
    assert s'.damage[|s.damage|..] == [at];
  }

  /** A change confined to a reaped blob. */
  lemma ReapKeeps(s: State, s': State, key: BlobKey)
    requires Grows(s, s') && key in s'.reaped
    requires forall a :: a in s.anchor && (a.namespace, a.blobId) != key ==>
      a in s'.anchor && s'.anchor[a] == s.anchor[a]
    ensures Keeps(s, s')
  {}
}
