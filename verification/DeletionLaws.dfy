/** Deleted blobs: which steps bring a manifest or a shard back, and when nothing can. A delete does not wait
    for what else is in flight for its blob.
  */
module DeletionLaws {
  import opened Prelude
  import opened Domain
  import opened Stores
  import opened ErasureCoder
  import opened Cluster
  import opened ClusterInvariants
  import opened ClusterSteps
  import opened ClusterRuns
  import opened ClusterLaws

  // ---- Manifests: what lists a blob again ----

  /** A name edit that read its manifest before a delete finished brings the manifest back, but only for a
      blob whose shards were already deleted, its hold over; and what it brings back is still the record. */
  lemma NameRevivesOnlyReaped(u: Setup, events: seq<Event>, pid: nat, nameEnc: Str, objectId: Option<Str>)
    requires Gates(u, events)
    requires pid in After(u, events).tasks && After(u, events).tasks[pid].Naming?
    requires After(u, events).tasks[pid].key !in After(u, events).manifests
    ensures
      var s := After(u, events);
      var key := s.tasks[pid].key;
      var s' := Step(u, s, OnTask(pid, NameWrite(nameEnc, objectId)));
      && key in s'.manifests && RecordOf(u, s', key, s'.manifests[key])
      && key in s'.reaped && HoldOver(u, s', key)
  {
    hide Gates, After, Shown, Inv, AnchorKnown, Unforged, RecordOf, HoldOver;
    var s := After(u, events);
    RunInv(u, events);
    NowKnown(u, s, Shown(events), OnTask(pid, NameWrite(nameEnc, objectId)));
    TaskFacts(u, s, pid);
    var key, m := s.tasks[pid].key, s.tasks[pid].m;
    RecordBasics(u, s, key, m);
    if key !in s.reaped {
      StillListed(u, s, key);
      assert false;
    }
    var s' := Step(u, s, OnTask(pid, NameWrite(nameEnc, objectId)));
    RecordRenamed(u, s, s', key, m, nameEnc, if objectId.Some? then objectId else m.objectId);
    StepInv(u, s, Shown(events), OnTask(pid, NameWrite(nameEnc, objectId)));
    ReapedHold(u, s', key);
  }

  lemma ReapedHold(u: Setup, s: State, key: BlobKey)
    requires Inv(u, s) && key in s.reaped
    ensures HoldOver(u, s, key)
  {
    hide OriginsOk, RecordsOk, UploadsOk, TasksOk, DeliveriesOk, BornOk, HoldOver;
  }

  /** The step is a name edit of this blob storing back the manifest it read. */
  ghost predicate StoresName(s: State, e: Event, key: BlobKey) {
    e.OnTask? && e.task.NameWrite? && e.pid in s.tasks && s.tasks[e.pid].Naming? && s.tasks[e.pid].key == key
  }

  /** In any reachable state, exactly the name edits in flight can list a deleted blob again. */
  lemma ListedAgainIffNamed(u: Setup, events: seq<Event>, e: Event, key: BlobKey)
    requires Gates(u, events) && key in After(u, events).born && key !in After(u, events).manifests
    ensures key in Step(u, After(u, events), e).manifests <==> StoresName(After(u, events), e, key)
  {
    hide After, Gates, Inv, StoresName, Step, AnchorKnown, Unforged, Shown;
    RunInv(u, events);
    StepLists(u, After(u, events), e, key);
  }

  lemma StepLists(u: Setup, s: State, e: Event, key: BlobKey)
    requires Inv(u, s) && key in s.born && key !in s.manifests
    ensures key in Step(u, s, e).manifests <==> StoresName(s, e, key)
  {
    hide Inv, UploadStep, BeginStep, TaskStep;
    match e
    case OnUpload(k, upload) => UploadLists(u, s, k, upload, key);
    case Begin(pid, k, useCase) => BeginLists(u, s, pid, k, useCase);
    case OnTask(pid, task) =>
      if pid in s.tasks {
        TaskLists(u, s, pid, task, key);
      }
    case _ =>
  }

  lemma UploadLists(u: Setup, s: State, k: BlobKey, e: UploadEvent, key: BlobKey)
    requires Inv(u, s) && key in s.born
    ensures key in UploadStep(u, s, k, e).manifests <==> key in s.manifests
  {
    hide Inv, Encoded, Supports, UploadOk;
    if e.UploadPublish? && k in s.uploads {
      UploadFacts(u, s, k);
    }
  }

  lemma BeginLists(u: Setup, s: State, pid: nat, key: BlobKey, c: UseCase)
    ensures BeginStep(u, s, pid, key, c).manifests == s.manifests
  {
    hide WithTask;
  }

  lemma TaskLists(u: Setup, s: State, pid: nat, e: TaskEvent, key: BlobKey)
    requires Inv(u, s) && pid in s.tasks && key !in s.manifests
    ensures key in TaskStep(u, s, pid, s.tasks[pid], e).manifests <==> StoresName(s, OnTask(pid, e), key)
  {
    hide Inv, RecordOf, TaskStep;
    TaskFacts(u, s, pid);
    var t := s.tasks[pid];
    if t.Naming? {
      NamingLists(u, s, pid, t, e);
    } else {
      OthersList(u, s, pid, t, e);
    }
  }

  lemma NamingLists(u: Setup, s: State, pid: nat, t: Task, e: TaskEvent)
    requires t.Naming? && RecordOf(u, s, t.key, t.m)
    ensures TaskStep(u, s, pid, t, e).manifests.Keys == s.manifests.Keys + if e.NameWrite? then {t.key} else {}
  {
    RecordBasics(u, s, t.key, t.m);
    hide RecordOf, WithoutTask;
  }

  lemma OthersList(u: Setup, s: State, pid: nat, t: Task, e: TaskEvent)
    requires !t.Naming?
    ensures TaskStep(u, s, pid, t, e).manifests.Keys <= s.manifests.Keys
  {
    hide RepairingStep, AnchorSlot, Valid, WithTask, WithoutTask;
    if t.Repairing? {
      RepairingLists(u, s, pid, t, e);
    }
  }

  lemma RepairingLists(u: Setup, s: State, pid: nat, t: Task, e: TaskEvent)
    requires t.Repairing?
    ensures RepairingStep(u, s, pid, t, e).manifests == s.manifests
  {
    hide Encoded, Decoded, AnchorSlot, Valid, CountSome, WithTask, WithoutTask;
  }

  // ---- Shards: when deleted ones stay away ----

  /** No shard of the blob is on the anchor. */
  ghost predicate Bare(s: State, key: BlobKey) {
    forall at :: at in s.anchor ==> (at.namespace, at.blobId) != key
  }

  /** The step is a shard write by a put or a repair of this blob. */
  ghost predicate WritesTo(s: State, e: Event, key: BlobKey) {
    match e
    case OnUpload(k, UploadWrite) =>
      && k == key && key in s.uploads && key in s.origins
      && s.uploads[key].written == |s.uploads[key].metas| < |s.origins[key].codeword|
    case OnTask(pid, RepairWrite) =>
      && pid in s.tasks && s.tasks[pid].Rewriting? && s.tasks[pid].key == key
      && s.tasks[pid].next < |s.tasks[pid].bad| && s.tasks[pid].bad[s.tasks[pid].next] < |s.tasks[pid].renewed|
    case _ => false
  }

  /** One step keeps the blob bare unless it is such a write. */
  lemma DeletedUntilWritten(u: Setup, s: State, e: Event, key: BlobKey)
    requires Bare(s, key) && !e.Fault?
    ensures Bare(Step(u, s, e), key) <==> !WritesTo(s, e, key)
  {
    hide UploadStep, BeginStep, TaskStep;
    match e
    case Tick(_) =>
    case OnUpload(k, upload) => UploadKeepsBare(u, s, k, upload, key);
    case Begin(pid, k, useCase) => BeginWritesNothing(u, s, pid, k, useCase);
    case OnTask(pid, task) =>
      if pid in s.tasks {
        TaskKeepsBare(u, s, pid, task, key);
      }
  }

  lemma UploadKeepsBare(u: Setup, s: State, k: BlobKey, e: UploadEvent, key: BlobKey)
    requires Bare(s, key)
    ensures Bare(UploadStep(u, s, k, e), key) <==> !WritesTo(s, OnUpload(k, e), key)
  {
    hide Encoded, Supports;
    if WritesTo(s, OnUpload(k, e), key) {
      assert Own(key, s.uploads[key].written) in UploadStep(u, s, k, e).anchor;
    }
  }

  lemma TaskKeepsBare(u: Setup, s: State, pid: nat, e: TaskEvent, key: BlobKey)
    requires Bare(s, key) && pid in s.tasks
    ensures Bare(TaskStep(u, s, pid, s.tasks[pid], e), key) <==> !WritesTo(s, OnTask(pid, e), key)
  {
    hide TaskStep, WithTask;
    var t := s.tasks[pid];
    TaskAnchor(u, s, pid, t, e);
    if WritesTo(s, OnTask(pid, e), key) {
      assert Own(key, t.bad[t.next]) in TaskStep(u, s, pid, t, e).anchor;
    }
  }

  /** Nothing of the blob is stored or listed. */
  ghost predicate Gone(s: State, key: BlobKey) { Bare(s, key) && key !in s.manifests }

  /** A task that no longer writes a shard or a manifest. A repair is one once it found nothing bad or rewrote
      all it found bad. */
  predicate Harmless(t: Task) {
    match t
    case Repairing(_, m, _, _, collected, bad) => |collected| >= |m.shards| && bad == []
    case Rewriting(_, _, _, bad, next) => next >= |bad|
    case Naming(_, _) => false
    case _ => true
  }

  /** No put of the blob is in flight, or can begin, and no task of it can still write. */
  ghost predicate Settled(s: State, key: BlobKey) {
    && key in s.origins && key !in s.uploads
    && forall pid :: pid in s.tasks && s.tasks[pid].key == key ==> Harmless(s.tasks[pid])
  }

  /** The event is not a fault that leaves something at one of the blob's places. */
  predicate Spares(e: Event, key: BlobKey) {
    e.Fault? && e.left.Some? ==> (e.at.namespace, e.at.blobId) != key
  }

  ghost predicate Sparing(events: seq<Event>, key: BlobKey) {
    forall i :: 0 <= i < |events| ==> Spares(events[i], key)
  }

  // ---- Settled blobs stay gone ----

  /** Name edits store back under the key they read from. */
  ghost predicate NamesKeyed(s: State) {
    && Keyed(s.manifests)
    && forall pid :: pid in s.tasks && s.tasks[pid].Naming? ==>
         s.tasks[pid].key == (s.tasks[pid].m.namespace, s.tasks[pid].m.blobId)
  }

  /** All of a settled, unlisted blob but its shards. */
  ghost predicate Quietened(s: State, key: BlobKey) { NamesKeyed(s) && Settled(s, key) && key !in s.manifests }

  /** What a task becomes when it takes a step. */
  predicate Continues(t: Task, t': Task) {
    && t'.key == t.key
    && (Harmless(t) ==> Harmless(t'))
    && (t'.Naming? ==> t.Naming? && t'.m == t.m)
  }

  /** Nothing that concerns the listing of blobs differs. */
  ghost predicate SameListing(s: State, s': State) {
    && s'.tasks == s.tasks && s'.origins == s.origins && s'.uploads == s.uploads && s'.manifests == s.manifests
  }

  lemma Continued(s: State, pid: nat, key: BlobKey)
    requires Quietened(s, key) && pid in s.tasks
    ensures forall s1 :: SameListing(s, s1) ==> Quietened(s1, key) && Quietened(WithoutTask(s1, pid), key)
    ensures forall s1, t :: SameListing(s, s1) && Continues(s.tasks[pid], t) ==> Quietened(WithTask(s1, pid, t), key)
  {
    hide Harmless;
  }

  lemma RepairingQuiet(u: Setup, s: State, pid: nat, t: Task, e: TaskEvent, key: BlobKey)
    requires Quietened(s, key) && pid in s.tasks && s.tasks[pid] == t && t.Repairing?
    ensures Quietened(RepairingStep(u, s, pid, t, e), key)
  {
    hide Encoded, Decoded, AnchorSlot, Valid, CountSome, WithTask, WithoutTask, Quietened;
    Continued(s, pid, key);
  }

  lemma RewritingQuiet(s: State, pid: nat, t: Task, e: TaskEvent, key: BlobKey)
    requires Quietened(s, key) && pid in s.tasks && s.tasks[pid] == t && t.Rewriting?
    ensures Quietened(RewritingStep(s, pid, t, e), key)
  {
    hide WithTask, WithoutTask, Quietened;
    Continued(s, pid, key);
  }

  lemma RestoringQuiet(u: Setup, s: State, pid: nat, t: Task, e: TaskEvent, key: BlobKey)
    requires Quietened(s, key) && pid in s.tasks && s.tasks[pid] == t && t.Restoring?
    ensures Quietened(RestoringStep(u, s, pid, t, e), key)
  {
    hide AnchorSlot, Valid, WithTask, WithoutTask, Quietened;
    Continued(s, pid, key);
  }

  lemma NamingQuiet(s: State, pid: nat, t: Task, e: TaskEvent, key: BlobKey)
    requires Quietened(s, key) && pid in s.tasks && s.tasks[pid] == t && t.Naming?
    ensures Quietened(NamingStep(s, pid, t, e), key)
  {}

  lemma ReapingQuiet(u: Setup, s: State, pid: nat, t: Task, e: TaskEvent, key: BlobKey)
    requires Quietened(s, key) && pid in s.tasks && s.tasks[pid] == t && t.Reaping?
    ensures Quietened(ReapingStep(u, s, pid, t, e), key)
  {
    hide WithTask, WithoutTask, Quietened;
    Continued(s, pid, key);
    if e.ReapManifest? && t.granted && t.dropped {
      Unlisted(s, pid, t.key, key);
    }
  }

  lemma Unlisted(s: State, pid: nat, gone: BlobKey, key: BlobKey)
    requires Quietened(s, key)
    ensures Quietened(WithoutTask(s.(manifests := s.manifests - {gone}), pid), key)
  {
    hide Harmless;
  }

  lemma TaskQuiet(u: Setup, s: State, pid: nat, e: TaskEvent, key: BlobKey)
    requires Quietened(s, key) && pid in s.tasks
    ensures Quietened(TaskStep(u, s, pid, s.tasks[pid], e), key)
  {
    hide RepairingStep, RewritingStep, RestoringStep, NamingStep, ReapingStep, WithoutTask, Quietened;
    var t := s.tasks[pid];
    Continued(s, pid, key);
    if !e.End? {
      match t
      case Repairing(_, _, _, _, _, _) => RepairingQuiet(u, s, pid, t, e, key);
      case Rewriting(_, _, _, _, _) => RewritingQuiet(s, pid, t, e, key);
      case Restoring(_, _, _, _, _) => RestoringQuiet(u, s, pid, t, e, key);
      case Naming(_, _) => NamingQuiet(s, pid, t, e, key);
      case Reaping(_, _, _, _) => ReapingQuiet(u, s, pid, t, e, key);
    }
  }

  lemma BeginQuiet(u: Setup, s: State, pid: nat, k: BlobKey, c: UseCase, key: BlobKey)
    requires Quietened(s, key) && pid !in s.tasks
    ensures Quietened(BeginStep(u, s, pid, k, c), key)
  {
    hide Harmless, WithTask, Quietened;
    Begun(s, pid, key);
    ListedKeyed(s, k, key);
  }

  lemma ListedKeyed(s: State, k: BlobKey, key: BlobKey)
    requires Quietened(s, key)
    ensures key !in s.manifests && (k in s.manifests ==> k == (s.manifests[k].namespace, s.manifests[k].blobId))
  {}

  lemma Begun(s: State, pid: nat, key: BlobKey)
    requires Quietened(s, key) && pid !in s.tasks
    ensures forall t: Task ::
      (t.key == key ==> t.Reaping?) && (t.Naming? ==> t.key == (t.m.namespace, t.m.blobId)) ==>
        Quietened(WithTask(s, pid, t), key)
  {}

  lemma UploadQuiet(u: Setup, s: State, k: BlobKey, e: UploadEvent, key: BlobKey)
    requires Quietened(s, key)
    ensures Quietened(UploadStep(u, s, k, e), key)
  {
    hide Encoded, Supports, Harmless;
  }

  lemma StepQuiet(u: Setup, s: State, e: Event, key: BlobKey)
    requires Quietened(s, key)
    ensures Quietened(Step(u, s, e), key)
  {
    hide UploadStep, BeginStep, TaskStep, Quietened;
    match e
    case OnUpload(k, upload) => UploadQuiet(u, s, k, upload, key);
    case Begin(pid, k, useCase) =>
      if pid !in s.tasks {
        BeginQuiet(u, s, pid, k, useCase, key);
      }
    case OnTask(pid, task) =>
      if pid in s.tasks {
        TaskQuiet(u, s, pid, task, key);
      }
    case _ => SameQuiet(s, Step(u, s, e), key);
  }

  lemma SameQuiet(s: State, s': State, key: BlobKey)
    requires Quietened(s, key) && SameListing(s, s')
    ensures Quietened(s', key)
  {
    hide Harmless;
  }

  lemma SettledWritesNothing(s: State, e: Event, key: BlobKey)
    requires Settled(s, key)
    ensures !WritesTo(s, e, key)
  {}

  /** The next state of a settled blob that is gone is one, too. */
  lemma StepStaysGone(u: Setup, s: State, e: Event, key: BlobKey)
    requires Quietened(s, key) && Bare(s, key) && Spares(e, key)
    ensures Quietened(Step(u, s, e), key) && Bare(Step(u, s, e), key)
  {
    hide Step, WritesTo, NamesKeyed, Settled;
    StepQuiet(u, s, e, key);
    if e.Fault? {
      FaultSpares(u, s, e, key);
    } else {
      DeletedUntilWritten(u, s, e, key);
      SettledWritesNothing(s, e, key);
    }
  }

  lemma FaultSpares(u: Setup, s: State, e: Event, key: BlobKey)
    requires Bare(s, key) && Spares(e, key) && e.Fault?
    ensures Bare(Step(u, s, e), key)
  {
    hide UploadStep, BeginStep, TaskStep;
  }

  lemma {:induction false} RunStaysGone(u: Setup, events: seq<Event>, later: seq<Event>, key: BlobKey)
    requires Quietened(After(u, events), key) && Bare(After(u, events), key) && Sparing(later, key)
    ensures Quietened(After(u, events + later), key) && Bare(After(u, events + later), key)
  {
    hide After, Step, Quietened, Bare, Spares;
    if later == [] {
      assert events + later == events;
    } else {
      var front, e := later[..|later| - 1], later[|later| - 1];
      assert events + later == (events + front) + [e];
      AfterMore(u, events + front, e);
      RunStaysGone(u, events, front, key);
      StepStaysGone(u, After(u, events + front), e, key);
    }
  }

  lemma QuietenedFirst(u: Setup, s: State, key: BlobKey)
    requires Inv(u, s) && Settled(s, key) && key !in s.manifests
    ensures Quietened(s, key)
  {
    hide OriginsOk, BlobsOk, UploadsOk, DeliveriesOk, Settled, SlotsOk, ReadOk, HoldOver, Describes;
  }

  /** A settled blob that is gone stays unlisted and without a shard, and settled, through every continuation of
      the run. */
  lemma SettledStaysGone(u: Setup, events: seq<Event>, later: seq<Event>, key: BlobKey)
    requires Gates(u, events) && Gone(After(u, events), key) && Settled(After(u, events), key) && Sparing(later, key)
    ensures Gone(After(u, events + later), key) && Settled(After(u, events + later), key)
  {
    hide After, Gates, Inv, AnchorKnown, Unforged, Shown, Sparing, Bare, Settled, NamesKeyed;
    RunInv(u, events);
    QuietenedFirst(u, After(u, events), key);
    RunStaysGone(u, events, later, key);
  }
}
