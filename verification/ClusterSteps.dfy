/** Every step of the system keeps the invariant. */
module ClusterSteps {
  import opened Prelude
  import opened Domain
  import opened Stores
  import opened ErasureCoder
  import opened Uploads = PutBackup
  import opened Cluster
  import opened ClusterInvariants

  /** The step evolves the state and accounts for what it changed. */
  ghost predicate GoodStep(u: Setup, s: State, s': State) { Evolves(s, s') && Accounted(u, s, s') }

  // ---- Parts a step leaves alone ----

  lemma SameRecords(u: Setup, s: State, s': State)
    requires forall key :: key in s'.manifests ==> key in s.manifests && s'.manifests[key] == s.manifests[key]
    ensures NewRecords(u, s, s')
  {}

  lemma SameBlobs(u: Setup, s: State, s': State)
    requires BlobsOk(u, s)
    requires s'.born == s.born && s'.marks == s.marks && s'.reaped == s.reaped && s'.manifests.Keys == s.manifests.Keys
    ensures NewBlobs(u, s, s')
  {
    hide BornOk, HoldOver;
    assert forall key :: key in s.manifests <==> key in s'.manifests.Keys;
    assert forall key :: key in s.born ==> key in s.marks.Keys;
  }

  lemma SameUploads(u: Setup, s: State, s': State)
    requires UploadsOk(u, s)
    requires s'.born == s.born && s'.marks == s.marks && s'.manifests.Keys == s.manifests.Keys
    requires forall key :: key in s'.uploads ==> key in s.uploads && s'.uploads[key] == s.uploads[key]
    ensures NewUploads(u, s, s')
  {
    forall key | key in s'.uploads
      ensures key !in s'.born && key !in s'.marks && key !in s'.manifests
    {
      UploadUnborn(u, s, key);
      assert key !in s'.manifests.Keys;
    }
    hide UploadOk;
  }

  lemma UploadUnborn(u: Setup, s: State, key: BlobKey)
    requires UploadsOk(u, s) && key in s.uploads
    ensures UploadOk(u, s, key, s.uploads[key])
    ensures key in s.origins && key !in s.born && key !in s.marks && key !in s.manifests
  {}

  lemma SameTasks(u: Setup, s: State, s': State)
    requires forall pid :: pid in s'.tasks ==> pid in s.tasks && s'.tasks[pid] == s.tasks[pid]
    ensures NewTasks(u, s, s')
  {}

  lemma OneTask(u: Setup, s: State, s': State, pid: nat, t: Task)
    requires s'.tasks == s.tasks[pid := t] && TaskOk(u, s', t)
    ensures NewTasks(u, s, s')
  {
    hide TaskOk;
  }

  /** Only the clock, the anchor, the damage log and the tasks may differ. */
  ghost predicate Quiet(s: State, s': State) {
    && s' == s.(now := s'.now, anchor := s'.anchor, damage := s'.damage, tasks := s'.tasks)
    && s.now <= s'.now && s.damage <= s'.damage
  }

  lemma QuietGrows(s: State, s': State)
    requires Quiet(s, s')
    ensures Grows(s, s')
  {}

  lemma QuietStep(u: Setup, s: State, s': State)
    requires Inv(u, s) && Quiet(s, s') && Keeps(s, s') && NewTasks(u, s, s')
    ensures GoodStep(u, s, s')
  {
    hide OriginOk, RecordsOk, BlobsOk, UploadsOk, TasksOk, DeliveriesOk, NewRecords, NewBlobs, NewUploads, NewTasks;
    hide Grows, Keeps, CodewordShard;
    QuietGrows(s, s');
    SameRecords(u, s, s');
    SameBlobs(u, s, s');
    SameUploads(u, s, s');
  }

  lemma Stutter(u: Setup, s: State)
    requires Inv(u, s)
    ensures GoodStep(u, s, s)
  {
    hide Inv, GoodStep, Keeps, NewTasks, Grows;
    QuietGrows(s, s);
    SameAnchorKeeps(s, s);
    SameTasks(u, s, s);
    QuietStep(u, s, s);
  }

  // ---- The clock, faults and crashes ----

  lemma TickStep(u: Setup, s: State, millis: nat)
    requires Inv(u, s)
    ensures GoodStep(u, s, s.(now := s.now + millis))
  {
    hide Inv, GoodStep, Keeps, NewTasks, Grows;
    var s' := s.(now := s.now + millis);
    QuietGrows(s, s');
    SameAnchorKeeps(s, s');
    SameTasks(u, s, s');
    QuietStep(u, s, s');
  }

  lemma FaultStep(u: Setup, s: State, at: ShardRef, left: Option<Bytes>)
    requires Inv(u, s)
    ensures GoodStep(u, s, Step(u, s, Fault(at, left)))
  {
    hide Inv, GoodStep, Keeps, NewTasks, Grows;
    var s' := Step(u, s, Fault(at, left));
    QuietGrows(s, s');
    FaultKeeps(s, s', at);
    SameTasks(u, s, s');
    QuietStep(u, s, s');
  }

  lemma EndStep(u: Setup, s: State, pid: nat)
    requires Inv(u, s)
    ensures GoodStep(u, s, s.(tasks := s.tasks - {pid}))
  {
    hide Inv, GoodStep, Keeps, NewTasks, Grows;
    var s' := s.(tasks := s.tasks - {pid});
    QuietGrows(s, s');
    SameAnchorKeeps(s, s');
    SameTasks(u, s, s');
    QuietStep(u, s, s');
  }

  /** Only one task changed, and it is fine. */
  lemma PutStep(u: Setup, s: State, pid: nat, t: Task)
    requires Inv(u, s) && TaskOk(u, s, t)
    ensures GoodStep(u, s, WithTask(s, pid, t))
  {
    hide Inv, GoodStep, Keeps, NewTasks, Grows, TaskOk;
    var s' := WithTask(s, pid, t);
    QuietGrows(s, s');
    SameAnchorKeeps(s, s');
    TaskStable(u, s, s', t);
    OneTask(u, s, s', pid, t);
    QuietStep(u, s, s');
  }

  // ---- Uploads ----

  lemma OneUpload(u: Setup, s: State, s': State, key: BlobKey, p: Upload)
    requires UploadsOk(u, s) && s'.uploads == s.uploads[key := p] && UploadOk(u, s', key, p)
    requires s'.born == s.born && s'.marks == s.marks && s'.manifests == s.manifests
    ensures NewUploads(u, s, s')
  {
    forall k | k in s'.uploads && k != key
      ensures k !in s'.born && k !in s'.marks && k !in s'.manifests
    {
      UploadUnborn(u, s, k);
    }
    hide UploadOk;
  }

  /** Only one upload changed, besides the anchor and deliveries of codeword shards. */
  lemma UploadPutStep(u: Setup, s: State, s': State, key: BlobKey, p: Upload)
    requires Inv(u, s)
    requires s' == s.(uploads := s.uploads[key := p], anchor := s'.anchor,
      delivered := s'.delivered, origins := s'.origins)
    requires Evolves(s, s') && OriginsOk(u, s') && UploadOk(u, s', key, p) && NewDeliveries(s, s')
    ensures GoodStep(u, s, s')
  {
    hide OriginsOk, RecordsOk, BlobsOk, UploadsOk, TasksOk, DeliveriesOk, NewRecords, NewBlobs, NewUploads, NewTasks;
    hide NewDeliveries, Evolves, UploadOk;
    SameRecords(u, s, s');
    SameBlobs(u, s, s');
    OneUpload(u, s, s', key, p);
    SameTasks(u, s, s');
  }

  lemma SameDeliveries(s: State, s': State)
    requires s'.delivered == s.delivered
    ensures NewDeliveries(s, s')
  {}

  lemma UploadBeginStep(u: Setup, s: State, key: BlobKey, data: Bytes, params: ErasureParams)
    requires Inv(u, s)
    ensures GoodStep(u, s, UploadStep(u, s, key, UploadBegin(data, params)))
  {
    hide Inv, GoodStep, Keeps, Grows, Encoded, NewDeliveries, UploadOk, OriginsOk, Supports;
    if key in s.origins || !Supports(u.coder, params) {
      Stutter(u, s);
    } else {
      EncodedOk(u.coder, data, params);
      var s' := UploadStep(u, s, key, UploadBegin(data, params));
      OriginAdded(u, s, s', key);
      FreshKey(u, s, key);
      FreshUpload(u, s', key);
      SameDeliveries(s, s');
      UploadPutStep(u, s, s', key, s'.uploads[key]);
    }
  }

  lemma OriginAdded(u: Setup, s: State, s': State, key: BlobKey)
    requires Inv(u, s) && key !in s.origins && key in s'.origins && OriginOk(u, s'.origins[key])
    requires s' == s.(origins := s.origins[key := s'.origins[key]], uploads := s'.uploads)
    ensures Evolves(s, s') && OriginsOk(u, s')
  {
    hide OriginOk;
    SameAnchorKeeps(s, s');
  }

  lemma FreshUpload(u: Setup, s: State, key: BlobKey)
    requires key in s.origins && key !in s.born && key !in s.marks && key !in s.manifests
    ensures UploadOk(u, s, key, Upload(|s.damage|, 0, [], [], None))
  {}

  lemma EncodedOk(c: Coder, data: Bytes, params: ErasureParams)
    requires Supports(c, params)
    ensures Encoded(c, data, params).Ok? && |Encoded(c, data, params).value| == params.n
  {
    hide RsEncoded;
  }

  lemma FreshKey(u: Setup, s: State, key: BlobKey)
    requires Inv(u, s) && key !in s.origins
    ensures key !in s.born && key !in s.marks && key !in s.manifests && key !in s.uploads
  {
    assert key in s.marks.Keys <==> key in s.born.Keys;
  }

  lemma UploadFacts(u: Setup, s: State, key: BlobKey)
    requires Inv(u, s) && key in s.uploads
    ensures UploadOk(u, s, key, s.uploads[key])
    ensures key in s.origins && key !in s.born && key !in s.marks && key !in s.manifests
    ensures OriginsOk(u, s) && OriginOk(u, s.origins[key])
  {
    hide UploadOk, OriginOk;
    UploadUnborn(u, s, key);
  }

  lemma UploadWriteStep(u: Setup, s: State, key: BlobKey)
    requires Inv(u, s)
    ensures GoodStep(u, s, UploadStep(u, s, key, UploadWrite))
  {
    hide Inv, GoodStep, Keeps, Grows, NewDeliveries, UploadOk, OriginsOk, OriginOk;
    var s' := UploadStep(u, s, key, UploadWrite);
    if s' == s {
      Stutter(u, s);
    } else {
      UploadFacts(u, s, key);
      UploadWriteOk(u, s, s', key);
      SameDeliveries(s, s');
      OriginsSame(u, s, s');
      UploadPutStep(u, s, s', key, s'.uploads[key]);
    }
  }

  lemma OriginsSame(u: Setup, s: State, s': State)
    requires OriginsOk(u, s) && s'.origins == s.origins
    ensures OriginsOk(u, s')
  {}

  lemma UploadWriteOk(u: Setup, s: State, s': State, key: BlobKey)
    requires key in s.uploads && UploadOk(u, s, key, s.uploads[key]) && s' == UploadStep(u, s, key, UploadWrite) != s
    ensures Evolves(s, s') && UploadOk(u, s', key, s'.uploads[key])
  {
    var p := s.uploads[key];
    hide Keeps, GoodAt, Lost, LocationsDelivered;
    WriteKeeps(s, s', key, p.written);
    forall i: nat | i < p.written
      ensures Covered(s', key, i, p.start)
    {
      CoveredStable(s, s', key, i, p.start);
    }
  }

  lemma UploadSendStep(u: Setup, s: State, key: BlobKey, peer: Peer, accepted: bool)
    requires Inv(u, s)
    ensures GoodStep(u, s, UploadStep(u, s, key, UploadSend(peer, accepted)))
  {
    hide Inv, GoodStep, Keeps, Grows, NewDeliveries, UploadOk, OriginsOk, OriginOk;
    var s' := UploadStep(u, s, key, UploadSend(peer, accepted));
    if s' == s {
      Stutter(u, s);
    } else {
      UploadFacts(u, s, key);
      UploadSendOk(u, s, s', key, peer, accepted);
      OriginsSame(u, s, s');
      UploadPutStep(u, s, s', key, s'.uploads[key]);
    }
  }

  lemma UploadSendOk(u: Setup, s: State, s': State, key: BlobKey, peer: Peer, accepted: bool)
    requires key in s.uploads && UploadOk(u, s, key, s.uploads[key])
    requires s' == UploadStep(u, s, key, UploadSend(peer, accepted)) != s
    ensures Evolves(s, s') && NewDeliveries(s, s') && UploadOk(u, s', key, s'.uploads[key])
  {
    var p := s.uploads[key];
    hide Keeps, Covered;
    SameAnchorKeeps(s, s');
    UploadStable(u, s, s', key, p);
  }

  lemma UploadListStep(u: Setup, s: State, key: BlobKey)
    requires Inv(u, s)
    ensures GoodStep(u, s, UploadStep(u, s, key, UploadList))
  {
    hide Inv, GoodStep, Keeps, Grows, NewDeliveries, UploadOk, OriginsOk, OriginOk;
    var s' := UploadStep(u, s, key, UploadList);
    if s' == s {
      Stutter(u, s);
    } else {
      UploadFacts(u, s, key);
      UploadListOk(u, s, s', key);
      SameDeliveries(s, s');
      OriginsSame(u, s, s');
      UploadPutStep(u, s, s', key, s'.uploads[key]);
    }
  }

  lemma UploadListOk(u: Setup, s: State, s': State, key: BlobKey)
    requires key in s.uploads && UploadOk(u, s, key, s.uploads[key])
    requires s' == UploadStep(u, s, key, UploadList) != s
    ensures Evolves(s, s') && UploadOk(u, s', key, s'.uploads[key])
  {
    var p := s.uploads[key];
    var i := |p.metas|;
    var bytes := s.origins[key].codeword[i];
    var meta := Shard(i, u.h(bytes), |bytes| % U32_LIMIT, [Anchor] + AsPeers(p.placed));
    hide Keeps, Covered;
    SameAnchorKeeps(s, s');
    UploadStable(u, s, s', key, p);
    assert LocationsDelivered(meta, Own(key, i), bytes, s.delivered);
    ListedSnoc(u.h, p.metas, key.0, key.1, s.origins[key].codeword, s.delivered, s.delivered, meta);
    hide Listed;
  }

  lemma UploadStampStep(u: Setup, s: State, key: BlobKey)
    requires Inv(u, s)
    ensures GoodStep(u, s, UploadStep(u, s, key, UploadStamp))
  {
    hide Inv, GoodStep, Keeps, Grows, NewDeliveries, UploadOk, OriginsOk, OriginOk;
    var s' := UploadStep(u, s, key, UploadStamp);
    if s' == s {
      Stutter(u, s);
    } else {
      UploadFacts(u, s, key);
      UploadStampOk(u, s, s', key);
      SameDeliveries(s, s');
      OriginsSame(u, s, s');
      UploadPutStep(u, s, s', key, s'.uploads[key]);
    }
  }

  lemma UploadStampOk(u: Setup, s: State, s': State, key: BlobKey)
    requires key in s.uploads && UploadOk(u, s, key, s.uploads[key])
    requires s' == UploadStep(u, s, key, UploadStamp) != s
    ensures Evolves(s, s') && UploadOk(u, s', key, s'.uploads[key])
  {
    hide Keeps, Covered, Listed;
    SameAnchorKeeps(s, s');
    UploadStable(u, s, s', key, s.uploads[key]);
  }

  lemma UploadCrashStep(u: Setup, s: State, key: BlobKey)
    requires Inv(u, s)
    ensures GoodStep(u, s, UploadStep(u, s, key, UploadCrash))
  {
    hide RecordsOk, TasksOk, DeliveriesOk, NewRecords, NewBlobs, NewUploads, NewTasks, NewDeliveries, Keeps,
      BlobsOk, UploadsOk;
    var s' := UploadStep(u, s, key, UploadCrash);
    SameAnchorKeeps(s, s');
    OriginsSame(u, s, s');
    SameRecords(u, s, s');
    SameBlobs(u, s, s');
    SameUploads(u, s, s');
    SameTasks(u, s, s');
    SameDeliveries(s, s');
  }

  lemma UploadPublishStep(u: Setup, s: State, key: BlobKey)
    requires Inv(u, s)
    ensures GoodStep(u, s, UploadStep(u, s, key, UploadPublish))
  {
    hide Inv, GoodStep, Keeps, Grows, UploadOk, OriginsOk, OriginOk, RecordOf, BornOk, Evolves, NewTasks, NewDeliveries;
    hide NewRecords, NewBlobs, NewUploads;
    var s' := UploadStep(u, s, key, UploadPublish);
    if s' == s {
      Stutter(u, s);
    } else {
      UploadFacts(u, s, key);
      PublishEvolves(u, s, s', key);
      PublishRecord(u, s, s', key);
      PublishOthers(u, s, s', key);
      OriginsSame(u, s, s');
      SameTasks(u, s, s');
      SameDeliveries(s, s');
      Conclude(u, s, s');
    }
  }

  lemma Conclude(u: Setup, s: State, s': State)
    requires Evolves(s, s') && OriginsOk(u, s') && NewRecords(u, s, s') && NewBlobs(u, s, s') && NewUploads(u, s, s')
    requires NewTasks(u, s, s') && NewDeliveries(s, s')
    ensures GoodStep(u, s, s')
  {
    hide Evolves, OriginsOk, NewRecords, NewBlobs, NewUploads, NewTasks, NewDeliveries;
  }

  /** The published state of an upload. */
  ghost predicate Publishes(u: Setup, s: State, s': State, key: BlobKey) {
    && key in s.uploads && UploadOk(u, s, key, s.uploads[key]) && s.uploads[key].stamp.Some?
    && s' == UploadStep(u, s, key, UploadPublish)
  }

  lemma PublishEvolves(u: Setup, s: State, s': State, key: BlobKey)
    requires Publishes(u, s, s', key)
    ensures Evolves(s, s')
  {
    hide Keeps, Covered, Listed;
    SameAnchorKeeps(s, s');
  }

  lemma PublishRecord(u: Setup, s: State, s': State, key: BlobKey)
    requires Publishes(u, s, s', key) && OriginOk(u, s.origins[key])
    ensures key in s'.manifests && RecordOf(u, s', key, s'.manifests[key]) && BornOk(u, s', key)
  {
    var p, o := s.uploads[key], s.origins[key];
    EncodedOk(u.coder, o.data, o.params);
    hide Keeps, Encoded, LocationsDelivered, Covered;
    PublishEvolves(u, s, s', key);
    forall i: nat | i < |o.codeword|
      ensures Covered(s', key, i, p.start)
    {
      CoveredStable(s, s', key, i, p.start);
    }
  }

  /** Only this blob's entries are new. */
  ghost predicate AddsBlob(s: State, s': State, key: BlobKey) {
    && key !in s.born && key !in s.marks
    && s'.uploads == s.uploads - {key} && s'.reaped == s.reaped
    && key in s'.manifests && s'.manifests == s.manifests[key := s'.manifests[key]]
    && key in s'.born && s'.born == s.born[key := s'.born[key]]
    && key in s'.marks && s'.marks == s.marks[key := s'.marks[key]]
  }

  lemma PublishAdds(u: Setup, s: State, s': State, key: BlobKey)
    requires Publishes(u, s, s', key)
    ensures AddsBlob(s, s', key)
  {
    hide Listed, Covered;
  }

  lemma AddedBlobs(u: Setup, s: State, s': State, key: BlobKey)
    requires BlobsOk(u, s) && AddsBlob(s, s', key) && BornOk(u, s', key)
    ensures NewBlobs(u, s, s')
  {
    hide BornOk, HoldOver;
    assert s'.marks.Keys == s.marks.Keys + {key} && s'.born.Keys == s.born.Keys + {key};
    assert forall k :: k in s.born ==> k in s.marks.Keys;
  }

  lemma AddedUploads(u: Setup, s: State, s': State, key: BlobKey)
    requires UploadsOk(u, s) && AddsBlob(s, s', key)
    ensures NewUploads(u, s, s')
  {
    forall k | k in s'.uploads
      ensures k !in s'.born && k !in s'.marks && k !in s'.manifests
    {
      UploadUnborn(u, s, k);
    }
    hide UploadOk;
  }

  lemma PublishOthers(u: Setup, s: State, s': State, key: BlobKey)
    requires Inv(u, s) && Publishes(u, s, s', key)
    requires key in s'.manifests && RecordOf(u, s', key, s'.manifests[key]) && BornOk(u, s', key)
    ensures NewRecords(u, s, s') && NewBlobs(u, s, s') && NewUploads(u, s, s')
  {
    hide Publishes, RecordOf, BornOk, BlobsOk, UploadsOk, NewBlobs, NewUploads,
      OriginsOk, TasksOk, DeliveriesOk, RecordsOk;
    PublishAdds(u, s, s', key);
    AddedBlobs(u, s, s', key);
    AddedUploads(u, s, s', key);
  }

  // ---- Reading shards ----

  lemma TaskFacts(u: Setup, s: State, pid: nat)
    requires Inv(u, s) && pid in s.tasks
    ensures TaskOk(u, s, s.tasks[pid])
  {
    hide OriginsOk, RecordsOk, BlobsOk, UploadsOk, DeliveriesOk, TaskOk;
  }

  lemma BornFacts(u: Setup, s: State, key: BlobKey)
    requires Inv(u, s) && key in s.born
    ensures BornOk(u, s, key)
  {
    hide OriginsOk, RecordsOk, TasksOk, UploadsOk, DeliveriesOk, BornOk;
  }

  /** Bytes that pass the hash check of a record are the codeword shard. */
  lemma ValidIsShard(u: Setup, s: State, shown: set<Bytes>, key: BlobKey, m: Manifest, i: nat, bytes: Bytes)
    requires RecordOf(u, s, key, m) && Unforged(u, s, shown) && i < |m.shards|
    requires bytes in shown || CodewordShard(s, Own(key, i), bytes)
    ensures i < |s.origins[key].codeword|
    ensures Valid(u.h, m, i, bytes) <==> bytes == s.origins[key].codeword[i]
  {
    hide LocationsDelivered;
  }

  /** What the anchor gives is the codeword shard, and it gives nothing only for a lost one. */
  lemma AnchorSlotOk(u: Setup, s: State, shown: set<Bytes>, key: BlobKey, m: Manifest, i: nat, floor: nat)
    requires Inv(u, s) && Unforged(u, s, shown) && AnchorKnown(s, shown)
    requires RecordOf(u, s, key, m) && i < |m.shards| && floor <= s.marks[key]
    ensures SlotOk(s, key, i, floor, {}, AnchorSlot(u, s, key, m, i))
    ensures AnchorSlot(u, s, key, m, i).Some? ==> GoodAt(s, key, i)
  {
    hide Inv, Unforged, CodewordShard, Lost, RecordOf, Valid;
    RecordBasics(u, s, key, m);
    BornFacts(u, s, key);
    var at := Own(key, i);
    if at in s.anchor {
      ValidIsShard(u, s, shown, key, m, i, s.anchor[at]);
    }
    if AnchorSlot(u, s, key, m, i).None? {
      assert Covered(s, key, i, s.marks[key]);
      LostEarlier(s, key, i, s.marks[key], floor);
    }
  }

  lemma SlotsSnoc(
    s: State, key: BlobKey, floor: nat, failed: set<nat>, collected: seq<Option<Bytes>>, slot: Option<Bytes>)
    requires SlotsOk(s, key, floor, failed, collected) && SlotOk(s, key, |collected|, floor, failed, slot)
    ensures SlotsOk(s, key, floor, failed, collected + [slot])
  {
    hide SlotOk;
  }

  lemma SlotsFailed(
    s: State, key: BlobKey, floor: nat, failed: set<nat>, more: set<nat>, collected: seq<Option<Bytes>>)
    requires SlotsOk(s, key, floor, failed, collected) && failed <= more
    ensures SlotsOk(s, key, floor, more, collected)
  {
    hide Lost;
  }

  lemma ReadSnoc(s: State, key: BlobKey, start: nat, upto: nat, bad: seq<nat>, good: bool)
    requires ReadOk(s, key, start, upto, bad) && (good ==> GoodAt(s, key, upto))
    ensures ReadOk(s, key, start, upto + 1, if good then bad else bad + [upto])
  {
    hide Lost, GoodAt;
  }

  // ---- Repairs ----

  lemma RepairReadStep(u: Setup, s: State, shown: set<Bytes>, pid: nat)
    requires Inv(u, s) && Unforged(u, s, shown) && AnchorKnown(s, shown) && pid in s.tasks && s.tasks[pid].Repairing?
    ensures GoodStep(u, s, RepairingStep(u, s, pid, s.tasks[pid], RepairRead))
  {
    hide Inv, GoodStep, Unforged, AnchorKnown, RecordOf, SlotsOk, ReadOk, AnchorSlot, SlotOk, GoodAt;
    TaskFacts(u, s, pid);
    var Repairing(key, m, start, floor, collected, bad) := s.tasks[pid];
    if |collected| < |m.shards| {
      var slot := AnchorSlot(u, s, key, m, |collected|);
      RecordBasics(u, s, key, m);
      AnchorSlotOk(u, s, shown, key, m, |collected|, floor);
      SlotsSnoc(s, key, floor, {}, collected, slot);
      ReadSnoc(s, key, start, |collected|, bad, slot.Some?);
      PutStep(u, s, pid, Repairing(key, m, start, floor, collected + [slot],
        if slot.Some? then bad else bad + [m.shards[|collected|].index]));
    } else {
      Stutter(u, s);
    }
  }

  lemma RepairBorrowStep(u: Setup, s: State, shown: set<Bytes>, pid: nat, i: nat, reply: Bytes)
    requires Inv(u, s) && Unforged(u, s, shown) && reply in shown && pid in s.tasks && s.tasks[pid].Repairing?
    ensures GoodStep(u, s, RepairingStep(u, s, pid, s.tasks[pid], RepairBorrow(i, reply)))
  {
    hide Inv, GoodStep, Unforged, RecordOf, ReadOk, Lost, Valid, CountSome, SlotsOk;
    TaskFacts(u, s, pid);
    var Repairing(key, m, start, floor, collected, bad) := s.tasks[pid];
    if RepairingStep(u, s, pid, s.tasks[pid], RepairBorrow(i, reply)) != s {
      ValidIsShard(u, s, shown, key, m, i, reply);
      RecordBasics(u, s, key, m);
      SlotsFill(s, key, floor, collected, i, reply);
      PutStep(u, s, pid, Repairing(key, m, start, floor, collected[i := Some(reply)], bad));
    } else {
      Stutter(u, s);
    }
  }

  lemma SlotsFill(s: State, key: BlobKey, floor: nat, collected: seq<Option<Bytes>>, i: nat, bytes: Bytes)
    requires SlotsOk(s, key, floor, {}, collected) && i < |collected|
    requires key in s.origins && i < |s.origins[key].codeword| && bytes == s.origins[key].codeword[i]
    ensures SlotsOk(s, key, floor, {}, collected[i := Some(bytes)])
  {
    hide Lost;
  }

  /** Enough collected slots decode to the data, whose encoding is the stored one. */
  lemma CollectedDecodes(
    u: Setup, s: State, key: BlobKey, m: Manifest, floor: nat, failed: set<nat>, collected: seq<Option<Bytes>>)
    requires Inv(u, s) && RecordOf(u, s, key, m)
    requires SlotsOk(s, key, floor, failed, collected) && |collected| == |m.shards|
    ensures m.erasure.WellFormed()
    ensures Decoded(u.coder, collected, m.erasure, m.ciphertextLen)
         == if CountSome(collected) >= m.erasure.k then Ok(s.origins[key].data) else Err(Unavailable)
    ensures Encoded(u.coder, s.origins[key].data, m.erasure) == Ok(s.origins[key].codeword)
    ensures m.erasure.k <= |m.shards| == m.erasure.n
  {
    hide RecordOf, Encoded, Decoded, CountSome, RecordsOk, BlobsOk, UploadsOk, TasksOk, DeliveriesOk, Lost;
    RecordBasics(u, s, key, m);
    var o := s.origins[key];
    assert OriginOk(u, o);
    forall i | 0 <= i < |collected| && collected[i].Some?
      ensures collected[i].value == o.codeword[i]
    {
      assert SlotOk(s, key, i, floor, failed, collected[i]);
    }
    EncodedOk(u.coder, o.data, o.params);
    AnyKOfN(u.coder, o.data, o.params, o.codeword, collected);
  }

  lemma RepairDecideStep(u: Setup, s: State, pid: nat)
    requires Inv(u, s) && pid in s.tasks && s.tasks[pid].Repairing?
    ensures GoodStep(u, s, RepairingStep(u, s, pid, s.tasks[pid], RepairDecide))
  {
    hide Inv, GoodStep, RecordOf, ReadOk, SlotsOk, CountSome, Encoded, Decoded;
    TaskFacts(u, s, pid);
    var Repairing(key, m, start, floor, collected, bad) := s.tasks[pid];
    Stutter(u, s);
    EndStep(u, s, pid);
    RecordBasics(u, s, key, m);
    if |collected| == |m.shards| {
      CollectedDecodes(u, s, key, m, floor, {}, collected);
      BadInRange(s, key, start, |collected|, bad);
      assert bad[0..] == bad;
      if bad == [] {
        PutStep(u, s, pid, Rewriting(key, start, [], [], 0));
      } else if m.IsReconstructable(CountSome(collected)) {
        PutStep(u, s, pid, Rewriting(key, start, s.origins[key].codeword, bad, 0));
      }
    }
  }

  lemma BadInRange(s: State, key: BlobKey, start: nat, upto: nat, bad: seq<nat>)
    requires ReadOk(s, key, start, upto, bad)
    ensures forall i :: i in bad ==> i < upto
  {}

  lemma RepairWriteStep(u: Setup, s: State, pid: nat)
    requires Inv(u, s) && pid in s.tasks && s.tasks[pid].Rewriting?
    ensures GoodStep(u, s, RewritingStep(s, pid, s.tasks[pid], RepairWrite))
  {
    hide Inv, GoodStep, Keeps, Grows, ReadOk, NewTasks;
    TaskFacts(u, s, pid);
    var Rewriting(key, start, renewed, bad, next) := s.tasks[pid];
    var s' := RewritingStep(s, pid, s.tasks[pid], RepairWrite);
    if next < |bad| {
      var i := bad[next];
      assert i in bad;
      QuietGrows(s, s');
      WriteKeeps(s, s', key, i);
      ReadStable(s, s', key, start, |s.origins[key].codeword|, bad[next..]);
      WrittenOk(s', key, start, |s.origins[key].codeword|, bad, next);
      OneTask(u, s, s', pid, Rewriting(key, start, renewed, bad, next + 1));
      QuietStep(u, s, s');
    } else {
      Stutter(u, s);
    }
  }

  lemma WrittenOk(s: State, key: BlobKey, start: nat, upto: nat, bad: seq<nat>, next: nat)
    requires next < |bad| && ReadOk(s, key, start, upto, bad[next..]) && GoodAt(s, key, bad[next])
    ensures ReadOk(s, key, start, upto, bad[next + 1..])
  {
    hide Lost, GoodAt;
    var rest, now := bad[next + 1..], bad[next..];
    assert now == [bad[next]] + rest;
    assert forall i :: i in now <==> i == bad[next] || i in rest;
  }

  lemma RepairSendStep(u: Setup, s: State, pid: nat, peer: Peer, accepted: bool)
    requires Inv(u, s) && pid in s.tasks && s.tasks[pid].Rewriting?
    ensures GoodStep(u, s, RewritingStep(s, pid, s.tasks[pid], RepairSend(peer, accepted)))
  {
    hide Inv, GoodStep, Keeps, ReadOk, NewRecords, NewBlobs, NewUploads, NewTasks, OriginsOk, Stored;
    TaskFacts(u, s, pid);
    var Rewriting(key, start, renewed, bad, next) := s.tasks[pid];
    var s' := RewritingStep(s, pid, s.tasks[pid], RepairSend(peer, accepted));
    if s' != s {
      assert bad[next - 1] in bad;
      SameAnchorKeeps(s, s');
      SendOnly(u, s, s');
    } else {
      Stutter(u, s);
    }
  }

  /** Only deliveries changed. */
  lemma SendOnly(u: Setup, s: State, s': State)
    requires Inv(u, s) && s' == s.(delivered := s'.delivered) && Evolves(s, s') && NewDeliveries(s, s')
    ensures GoodStep(u, s, s')
  {
    hide RecordsOk, TasksOk, DeliveriesOk, NewRecords, NewBlobs, NewUploads, NewTasks, NewDeliveries,
      BlobsOk, UploadsOk, Evolves;
    OriginsSame(u, s, s');
    SameRecords(u, s, s');
    SameBlobs(u, s, s');
    SameUploads(u, s, s');
    SameTasks(u, s, s');
  }

  lemma RepairFinishStep(u: Setup, s: State, pid: nat)
    requires Inv(u, s) && pid in s.tasks && s.tasks[pid].Rewriting?
    ensures GoodStep(u, s, RewritingStep(s, pid, s.tasks[pid], RepairFinish))
  {
    hide Inv, GoodStep, Keeps, ReadOk, NewRecords, NewBlobs, NewUploads, NewTasks, OriginsOk, BornOk, NewDeliveries;
    TaskFacts(u, s, pid);
    var Rewriting(key, start, renewed, bad, next) := s.tasks[pid];
    var s' := RewritingStep(s, pid, s.tasks[pid], RepairFinish);
    if next == |bad| {
      SameAnchorKeeps(s, s');
      BornFacts(u, s, key);
      MarkMoved(u, s, s', key, start, bad[next..]);
      MarkOnly(u, s, s', key);
    } else {
      Stutter(u, s);
    }
  }

  /** A finished repair covers every shard since it began. */
  lemma MarkMoved(u: Setup, s: State, s': State, key: BlobKey, start: nat, rest: seq<nat>)
    requires BornOk(u, s, key) && rest == [] && ReadOk(s, key, start, |s.origins[key].codeword|, rest)
    requires s' == s.(marks := s.marks[key := Max(s.marks[key], start)], tasks := s'.tasks)
    requires Evolves(s, s')
    ensures BornOk(u, s', key)
  {
    hide Evolves, Covered;
    forall i: nat | i < |s.origins[key].codeword|
      ensures Covered(s', key, i, s'.marks[key])
    {
      CoveredStable(s, s', key, i, s.marks[key]);
      CoveredStable(s, s', key, i, start);
    }
  }

  /** Only one blob's mark changed, and it is fine. */
  lemma MarkOnly(u: Setup, s: State, s': State, key: BlobKey)
    requires Inv(u, s) && key in s.marks && key in s'.marks
    requires s' == s.(marks := s.marks[key := s'.marks[key]], tasks := s'.tasks)
    requires forall pid :: pid in s'.tasks ==> pid in s.tasks && s'.tasks[pid] == s.tasks[pid]
    requires Evolves(s, s') && BornOk(u, s', key)
    ensures GoodStep(u, s, s')
  {
    hide RecordsOk, TasksOk, DeliveriesOk, NewRecords, NewBlobs, NewUploads, NewTasks, NewDeliveries,
      BlobsOk, UploadsOk;
    hide Evolves, BornOk;
    OriginsSame(u, s, s');
    SameRecords(u, s, s');
    MarkedBlobs(u, s, s', key);
    MarkedUploads(u, s, s', key);
    SameTasks(u, s, s');
    SameDeliveries(s, s');
  }

  lemma MarkedBlobs(u: Setup, s: State, s': State, key: BlobKey)
    requires BlobsOk(u, s) && key in s.marks && key in s'.marks
    requires s' == s.(marks := s.marks[key := s'.marks[key]], tasks := s'.tasks) && BornOk(u, s', key)
    ensures NewBlobs(u, s, s')
  {
    hide BornOk, HoldOver;
    assert s'.marks.Keys == s.marks.Keys;
    assert forall k :: k in s.born ==> k in s.marks.Keys;
  }

  lemma MarkedUploads(u: Setup, s: State, s': State, key: BlobKey)
    requires UploadsOk(u, s) && key in s.marks && key in s'.marks
    requires s' == s.(marks := s.marks[key := s'.marks[key]], tasks := s'.tasks)
    ensures NewUploads(u, s, s')
  {
    forall k | k in s'.uploads
      ensures k !in s'.born && k !in s'.marks && k !in s'.manifests
    {
      UploadUnborn(u, s, k);
    }
    hide UploadOk;
  }

  // ---- Restores ----

  lemma RestoreReadStep(
    u: Setup, s: State, shown: set<Bytes>, pid: nat, fetched: Option<Bytes>, answers: bool)
    requires Inv(u, s) && Unforged(u, s, shown) && AnchorKnown(s, shown)
    requires pid in s.tasks && s.tasks[pid].Restoring? && (fetched.Some? ==> fetched.value in shown)
    ensures GoodStep(u, s, RestoringStep(u, s, pid, s.tasks[pid], RestoreRead(fetched, answers)))
  {
    hide Inv, GoodStep, Unforged, AnchorKnown, RecordOf, SlotsOk, AnchorSlot, GoodAt, Lost, Valid;
    TaskFacts(u, s, pid);
    var Restoring(key, m, floor, collected, failed) := s.tasks[pid];
    if |collected| < |m.shards| {
      RecordBasics(u, s, key, m);
      AnchorSlotOk(u, s, shown, key, m, |collected|, floor);
      if fetched.Some? {
        ValidIsShard(u, s, shown, key, m, |collected|, fetched.value);
      }
      if fetched.Some? && Valid(u.h, m, |collected|, fetched.value) {
        SlotsSnoc(s, key, floor, failed, collected, fetched);
        PutStep(u, s, pid, Restoring(key, m, floor, collected + [fetched], failed));
      } else if answers {
        var slot := AnchorSlot(u, s, key, m, |collected|);
        SlotsSnoc(s, key, floor, failed, collected, slot);
        PutStep(u, s, pid, Restoring(key, m, floor, collected + [slot], failed));
      } else {
        var more := failed + {|collected|};
        SlotsFailed(s, key, floor, failed, more, collected);
        SlotsSnoc(s, key, floor, more, collected, None);
        PutStep(u, s, pid, Restoring(key, m, floor, collected + [None], more));
      }
    } else {
      Stutter(u, s);
    }
  }

  // ---- Name edits, deletes and prunes ----

  lemma NameWriteStep(u: Setup, s: State, pid: nat, nameEnc: Str, objectId: Option<Str>)
    requires Inv(u, s) && pid in s.tasks && s.tasks[pid].Naming?
    ensures GoodStep(u, s, NamingStep(s, pid, s.tasks[pid], NameWrite(nameEnc, objectId)))
  {
    hide Inv, GoodStep, Keeps, NewRecords, NewBlobs, NewUploads, NewTasks, OriginsOk, NewDeliveries;
    TaskFacts(u, s, pid);
    var Naming(key, m) := s.tasks[pid];
    var s' := NamingStep(s, pid, s.tasks[pid], NameWrite(nameEnc, objectId));
    RecordRenamed(u, s, s', key, m, nameEnc, if objectId.Some? then objectId else m.objectId);
    hide RecordOf;
    RecordBasics(u, s, key, m);
    SameAnchorKeeps(s, s');
    RecordOnly(u, s, s', key);
  }

  lemma RecordRenamed(u: Setup, s: State, s': State, key: BlobKey, m: Manifest, nameEnc: Str, objectId: Option<Str>)
    requires RecordOf(u, s, key, m)
    requires s' == s.(manifests := s'.manifests, tasks := s'.tasks)
    ensures RecordOf(u, s', key, m.(nameEnc := Some(nameEnc), objectId := objectId))
  {
    hide LocationsDelivered;
  }

  /** Only one blob's manifest was stored, and it is a record of its put. */
  lemma RecordOnly(u: Setup, s: State, s': State, key: BlobKey)
    requires Inv(u, s) && key in s.born && key in s'.manifests
    requires s' == s.(manifests := s.manifests[key := s'.manifests[key]], tasks := s'.tasks)
    requires forall pid :: pid in s'.tasks ==> pid in s.tasks && s'.tasks[pid] == s.tasks[pid]
    requires Evolves(s, s') && RecordOf(u, s', key, s'.manifests[key])
    ensures GoodStep(u, s, s')
  {
    hide RecordsOk, TasksOk, DeliveriesOk, NewRecords, NewBlobs, NewUploads, NewTasks, NewDeliveries,
      BlobsOk, UploadsOk;
    hide Evolves, RecordOf;
    OriginsSame(u, s, s');
    StoredRecords(u, s, s', key);
    StoredBlobs(u, s, s', key);
    StoredUploads(u, s, s', key);
    SameTasks(u, s, s');
    SameDeliveries(s, s');
  }

  lemma StoredRecords(u: Setup, s: State, s': State, key: BlobKey)
    requires key in s'.manifests && s'.manifests == s.manifests[key := s'.manifests[key]]
    requires RecordOf(u, s', key, s'.manifests[key])
    ensures NewRecords(u, s, s')
  {
    hide RecordOf;
  }

  lemma StoredBlobs(u: Setup, s: State, s': State, key: BlobKey)
    requires BlobsOk(u, s) && key in s'.manifests
    requires s' == s.(manifests := s.manifests[key := s'.manifests[key]], tasks := s'.tasks)
    ensures NewBlobs(u, s, s')
  {
    hide BornOk, HoldOver;
    assert forall k :: k in s.born ==> k in s.marks.Keys;
  }

  lemma StoredUploads(u: Setup, s: State, s': State, key: BlobKey)
    requires UploadsOk(u, s) && key in s.born && key in s'.manifests
    requires s' == s.(manifests := s.manifests[key := s'.manifests[key]], tasks := s'.tasks)
    ensures NewUploads(u, s, s')
  {
    forall k | k in s'.uploads
      ensures k !in s'.born && k !in s'.marks && k !in s'.manifests
    {
      UploadUnborn(u, s, k);
    }
    hide UploadOk;
  }

  lemma ReapCheckStep(u: Setup, s: State, pid: nat)
    requires Inv(u, s) && pid in s.tasks && s.tasks[pid].Reaping?
    ensures GoodStep(u, s, ReapingStep(u, s, pid, s.tasks[pid], ReapCheck))
  {
    hide Inv, GoodStep;
    TaskFacts(u, s, pid);
    EndStep(u, s, pid);
    var Reaping(key, created, granted, dropped) := s.tasks[pid];
    if u.policy(key.0).HoldElapsed(created, s.now) {
      PutStep(u, s, pid, Reaping(key, created, true, dropped));
    }
  }

  lemma ReapShardsStep(u: Setup, s: State, pid: nat, spared: set<ShardRef>, done: bool)
    requires Inv(u, s) && pid in s.tasks && s.tasks[pid].Reaping?
    ensures GoodStep(u, s, ReapingStep(u, s, pid, s.tasks[pid], ReapShards(spared, done)))
  {
    hide Inv, GoodStep, Keeps, NewRecords, NewBlobs, NewUploads, NewTasks, OriginsOk, NewDeliveries, HoldOver;
    TaskFacts(u, s, pid);
    var Reaping(key, created, granted, dropped) := s.tasks[pid];
    var s' := ReapingStep(u, s, pid, s.tasks[pid], ReapShards(spared, done));
    if granted {
      ReapKeeps(s, s', key);
      HoldStable(u, s, s', key);
      OneTask(u, s, s', pid, Reaping(key, created, true, dropped || done));
      ReapOnly(u, s, s', key);
    } else {
      Stutter(u, s);
    }
  }

  /** Only one blob was reaped, its hold over. */
  lemma ReapOnly(u: Setup, s: State, s': State, key: BlobKey)
    requires Inv(u, s) && HoldOver(u, s', key)
    requires s' == s.(anchor := s'.anchor, reaped := s.reaped + {key}, tasks := s'.tasks)
    requires Evolves(s, s') && NewTasks(u, s, s')
    ensures GoodStep(u, s, s')
  {
    hide RecordsOk, TasksOk, DeliveriesOk, NewRecords, NewBlobs, NewUploads, NewTasks, NewDeliveries,
      BlobsOk, UploadsOk;
    hide Evolves, HoldOver;
    OriginsSame(u, s, s');
    SameRecords(u, s, s');
    ReapedBlobs(u, s, s', key);
    SameUploads(u, s, s');
    SameDeliveries(s, s');
  }

  lemma ReapedBlobs(u: Setup, s: State, s': State, key: BlobKey)
    requires BlobsOk(u, s) && HoldOver(u, s', key)
    requires s' == s.(anchor := s'.anchor, reaped := s.reaped + {key}, tasks := s'.tasks)
    ensures NewBlobs(u, s, s')
  {
    hide BornOk, HoldOver;
    assert forall k :: k in s.born ==> k in s.marks.Keys;
  }

  lemma ReapManifestStep(u: Setup, s: State, pid: nat)
    requires Inv(u, s) && pid in s.tasks && s.tasks[pid].Reaping?
    ensures GoodStep(u, s, ReapingStep(u, s, pid, s.tasks[pid], ReapManifest))
  {
    hide Inv, GoodStep, Keeps, NewRecords, NewBlobs, NewUploads, NewTasks, OriginsOk, NewDeliveries, HoldOver;
    TaskFacts(u, s, pid);
    var Reaping(key, created, granted, dropped) := s.tasks[pid];
    var s' := ReapingStep(u, s, pid, s.tasks[pid], ReapManifest);
    if granted && dropped {
      SameAnchorKeeps(s, s');
      UnlistOnly(u, s, s', key);
    } else {
      Stutter(u, s);
    }
  }

  /** Only one manifest was removed, its blob reaped. */
  lemma UnlistOnly(u: Setup, s: State, s': State, key: BlobKey)
    requires Inv(u, s) && key in s.reaped
    requires s' == s.(manifests := s.manifests - {key}, tasks := s'.tasks)
    requires forall pid :: pid in s'.tasks ==> pid in s.tasks && s'.tasks[pid] == s.tasks[pid]
    requires Evolves(s, s')
    ensures GoodStep(u, s, s')
  {
    hide RecordsOk, TasksOk, DeliveriesOk, NewRecords, NewBlobs, NewUploads, NewTasks, NewDeliveries,
      BlobsOk, UploadsOk;
    hide Evolves, HoldOver;
    OriginsSame(u, s, s');
    SameRecords(u, s, s');
    UnlistedBlobs(u, s, s', key);
    UnlistedUploads(u, s, s', key);
    SameTasks(u, s, s');
    SameDeliveries(s, s');
  }

  lemma UnlistedBlobs(u: Setup, s: State, s': State, key: BlobKey)
    requires BlobsOk(u, s) && key in s.reaped
    requires s' == s.(manifests := s.manifests - {key}, tasks := s'.tasks)
    ensures NewBlobs(u, s, s')
  {
    hide BornOk, HoldOver;
    assert forall k :: k in s.born ==> k in s.marks.Keys;
  }

  lemma UnlistedUploads(u: Setup, s: State, s': State, key: BlobKey)
    requires UploadsOk(u, s)
    requires s' == s.(manifests := s.manifests - {key}, tasks := s'.tasks)
    ensures NewUploads(u, s, s')
  {
    forall k | k in s'.uploads
      ensures k !in s'.born && k !in s'.marks && k !in s'.manifests
    {
      UploadUnborn(u, s, k);
    }
    hide UploadOk;
  }

  // ---- Beginnings ----

  lemma RecordFacts(u: Setup, s: State, key: BlobKey)
    requires Inv(u, s) && key in s.manifests
    ensures RecordOf(u, s, key, s.manifests[key]) && BornOk(u, s, key)
  {
    hide OriginsOk, UploadsOk, DeliveriesOk, TasksOk, BornOk;
    assert RecordOf(u, s, key, s.manifests[key]);
  }

  lemma BeginStepOk(u: Setup, s: State, pid: nat, key: BlobKey, c: UseCase)
    requires Inv(u, s)
    ensures GoodStep(u, s, BeginStep(u, s, pid, key, c))
  {
    hide Inv, GoodStep, RecordOf, BornOk, WithTask;
    Stutter(u, s);
    if key in s.manifests {
      RecordFacts(u, s, key);
      RecordBasics(u, s, key, s.manifests[key]);
      match c
      case Repair => PutStep(u, s, pid, Repairing(key, s.manifests[key], |s.damage|, s.marks[key], [], []));
      case Restore => PutStep(u, s, pid, Restoring(key, s.manifests[key], s.marks[key], [], {}));
      case Rename => PutStep(u, s, pid, Naming(key, s.manifests[key]));
      case Reap =>
        if u.policy(key.0).minDays != 0 {
          PutStep(u, s, pid, Reaping(key, s.manifests[key].createdAt, false, false));
        }
    }
    if u.policy(key.0).minDays == 0 {
      PutStep(u, s, pid, Reaping(key, 0, true, false));
    }
  }
}
