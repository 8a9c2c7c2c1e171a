/** Every reachable state of the system keeps the invariant. */
module ClusterRuns {
  import opened Prelude
  import opened Domain
  import opened Stores
  import opened ErasureCoder
  import opened Cluster
  import opened ClusterInvariants
  import opened ClusterSteps

  // ---- Every step keeps the invariant ----

  /** What a step may rely on: of the bytes from outside, with those of this event, none is forged. */
  ghost predicate Known(u: Setup, s: State, shown: set<Bytes>, e: Event) {
    Unforged(u, s, shown) && AnchorKnown(s, shown) && ShownBy(e) <= shown
  }

  lemma RepairingStepOk(u: Setup, s: State, shown: set<Bytes>, pid: nat, e: TaskEvent)
    requires Inv(u, s) && Known(u, s, shown, OnTask(pid, e)) && pid in s.tasks && s.tasks[pid].Repairing?
    ensures GoodStep(u, s, RepairingStep(u, s, pid, s.tasks[pid], e))
  {
    hide Inv, GoodStep, Unforged, AnchorKnown, AnchorSlot, Valid, Encoded, Decoded, CountSome, WithTask, WithoutTask;
    match e
    case RepairRead => RepairReadStep(u, s, shown, pid);
    case RepairBorrow(i, reply) => RepairBorrowStep(u, s, shown, pid, i, reply);
    case RepairDecide => RepairDecideStep(u, s, pid);
    case _ => Stutter(u, s);
  }

  lemma RewritingStepOk(u: Setup, s: State, pid: nat, e: TaskEvent)
    requires Inv(u, s) && pid in s.tasks && s.tasks[pid].Rewriting?
    ensures GoodStep(u, s, RewritingStep(s, pid, s.tasks[pid], e))
  {
    hide Inv, GoodStep, WithTask, WithoutTask;
    match e
    case RepairWrite => RepairWriteStep(u, s, pid);
    case RepairSend(peer, accepted) => RepairSendStep(u, s, pid, peer, accepted);
    case RepairFinish => RepairFinishStep(u, s, pid);
    case _ => Stutter(u, s);
  }

  lemma RestoringStepOk(u: Setup, s: State, shown: set<Bytes>, pid: nat, e: TaskEvent)
    requires Inv(u, s) && Known(u, s, shown, OnTask(pid, e)) && pid in s.tasks && s.tasks[pid].Restoring?
    ensures GoodStep(u, s, RestoringStep(u, s, pid, s.tasks[pid], e))
  {
    hide Inv, GoodStep, Unforged, AnchorKnown, AnchorSlot, Valid, WithTask;
    match e
    case RestoreRead(fetched, answers) => RestoreReadStep(u, s, shown, pid, fetched, answers);
    case _ => Stutter(u, s);
  }

  lemma NamingStepOk(u: Setup, s: State, pid: nat, e: TaskEvent)
    requires Inv(u, s) && pid in s.tasks && s.tasks[pid].Naming?
    ensures GoodStep(u, s, NamingStep(s, pid, s.tasks[pid], e))
  {
    hide Inv, GoodStep, WithoutTask;
    match e
    case NameWrite(nameEnc, objectId) => NameWriteStep(u, s, pid, nameEnc, objectId);
    case _ => Stutter(u, s);
  }

  lemma ReapingStepOk(u: Setup, s: State, pid: nat, e: TaskEvent)
    requires Inv(u, s) && pid in s.tasks && s.tasks[pid].Reaping?
    ensures GoodStep(u, s, ReapingStep(u, s, pid, s.tasks[pid], e))
  {
    hide Inv, GoodStep, WithTask, WithoutTask;
    match e
    case ReapCheck => ReapCheckStep(u, s, pid);
    case ReapShards(spared, done) => ReapShardsStep(u, s, pid, spared, done);
    case ReapManifest => ReapManifestStep(u, s, pid);
    case _ => Stutter(u, s);
  }

  lemma TaskStepOk(u: Setup, s: State, shown: set<Bytes>, pid: nat, e: TaskEvent)
    requires Inv(u, s) && Known(u, s, shown, OnTask(pid, e)) && pid in s.tasks
    ensures GoodStep(u, s, TaskStep(u, s, pid, s.tasks[pid], e))
  {
    hide Inv, GoodStep, Known, RepairingStep, RewritingStep, RestoringStep, NamingStep, ReapingStep;
    if e.End? {
      EndStep(u, s, pid);
    } else {
      match s.tasks[pid]
      case Repairing(_, _, _, _, _, _) => RepairingStepOk(u, s, shown, pid, e);
      case Rewriting(_, _, _, _, _) => RewritingStepOk(u, s, pid, e);
      case Restoring(_, _, _, _, _) => RestoringStepOk(u, s, shown, pid, e);
      case Naming(_, _) => NamingStepOk(u, s, pid, e);
      case Reaping(_, _, _, _) => ReapingStepOk(u, s, pid, e);
    }
  }

  lemma UploadStepOk(u: Setup, s: State, key: BlobKey, e: UploadEvent)
    requires Inv(u, s)
    ensures GoodStep(u, s, UploadStep(u, s, key, e))
  {
    hide Inv, GoodStep, UploadStep;
    match e
    case UploadBegin(data, params) => UploadBeginStep(u, s, key, data, params);
    case UploadWrite => UploadWriteStep(u, s, key);
    case UploadSend(peer, accepted) => UploadSendStep(u, s, key, peer, accepted);
    case UploadList => UploadListStep(u, s, key);
    case UploadStamp => UploadStampStep(u, s, key);
    case UploadPublish => UploadPublishStep(u, s, key);
    case UploadCrash => UploadCrashStep(u, s, key);
  }

  lemma StepGood(u: Setup, s: State, shown: set<Bytes>, e: Event)
    requires Inv(u, s) && Known(u, s, shown, e)
    ensures GoodStep(u, s, Step(u, s, e))
  {
    hide Inv, GoodStep, Known, UploadStep, BeginStep, TaskStep;
    Stutter(u, s);
    match e
    case Tick(millis) => TickStep(u, s, millis);
    case Fault(at, left) => FaultStep(u, s, at, left);
    case OnUpload(key, upload) => UploadStepOk(u, s, key, upload);
    case Begin(pid, key, useCase) => BeginStepOk(u, s, pid, key, useCase);
    case OnTask(pid, task) =>
      if pid in s.tasks {
        TaskStepOk(u, s, shown, pid, task);
      }
  }

  lemma StepInv(u: Setup, s: State, shown: set<Bytes>, e: Event)
    requires Inv(u, s) && Known(u, s, shown, e)
    ensures Inv(u, Step(u, s, e)) && Evolves(s, Step(u, s, e))
  {
    StepGood(u, s, shown, e);
    hide Inv, Known, Step, Evolves, Accounted;
    AccountedInv(u, s, Step(u, s, e));
  }

  /** What was put stays what it was. */
  ghost predicate SameOrigins(s: State, s': State) {
    forall key :: key in s.origins ==> key in s'.origins && s'.origins[key] == s.origins[key]
  }

  lemma OriginsKept(u: Setup, s: State, e: Event)
    ensures SameOrigins(s, Step(u, s, e))
  {
    hide UploadStep, BeginStep, TaskStep;
    match e
    case OnUpload(key, upload) => UploadKeepsOrigins(u, s, key, upload);
    case Begin(pid, key, useCase) => BeginKeepsOrigins(u, s, pid, key, useCase);
    case OnTask(pid, task) =>
      if pid in s.tasks {
        TaskKeepsOrigins(u, s, pid, s.tasks[pid], task);
      }
    case _ =>
  }

  lemma UploadKeepsOrigins(u: Setup, s: State, key: BlobKey, e: UploadEvent)
    ensures SameOrigins(s, UploadStep(u, s, key, e))
  {
    hide Encoded, Supports;
  }

  lemma BeginKeepsOrigins(u: Setup, s: State, pid: nat, key: BlobKey, c: UseCase)
    ensures BeginStep(u, s, pid, key, c).origins == s.origins
  {
    hide WithTask;
  }

  lemma TaskKeepsOrigins(u: Setup, s: State, pid: nat, t: Task, e: TaskEvent)
    ensures TaskStep(u, s, pid, t, e).origins == s.origins
  {
    hide Encoded, Decoded, AnchorSlot, Valid, CountSome, WithTask, WithoutTask, RepairingStep;
    match t
    case Repairing(_, _, _, _, _, _) => RepairingKeepsOrigins(u, s, pid, t, e);
    case _ =>
  }

  lemma RepairingKeepsOrigins(u: Setup, s: State, pid: nat, t: Task, e: TaskEvent)
    requires t.Repairing?
    ensures RepairingStep(u, s, pid, t, e).origins == s.origins
  {
    hide Encoded, Decoded, AnchorSlot, Valid, CountSome, WithTask, WithoutTask;
  }

  lemma BlankInv(u: Setup, shown: set<Bytes>)
    ensures Inv(u, BLANK) && AnchorKnown(BLANK, shown)
  {}

  lemma AfterSnoc(u: Setup, events: seq<Event>)
    requires events != []
    ensures After(u, events) == Step(u, After(u, events[..|events| - 1]), events[|events| - 1])
  {
    hide Step;
  }

  // ---- What the anchor holds ----

  /** One codeword shard written at its own place. */
  ghost predicate WritesShard(s: State, s': State, key: BlobKey, i: nat) {
    && key in s.origins && i < |s.origins[key].codeword|
    && s'.anchor == s.anchor[Own(key, i) := s.origins[key].codeword[i]]
  }

  /** Every object was there before or is among these bytes. */
  ghost predicate LeavesOnly(s: State, s': State, left: set<Bytes>) {
    forall at :: at in s'.anchor ==> s'.anchor[at] in left || (at in s.anchor && s.anchor[at] == s'.anchor[at])
  }

  lemma AnchorWrites(u: Setup, s: State, e: Event)
    requires Inv(u, s) && !e.Fault? && !(e.OnTask? && e.task.ReapShards?)
    ensures Step(u, s, e).anchor == s.anchor || exists key, i: nat :: WritesShard(s, Step(u, s, e), key, i)
  {
    hide Inv, UploadStep, BeginStep, TaskStep, WritesShard;
    match e
    case Tick(_) =>
    case OnUpload(key, upload) => UploadWrites(u, s, key, upload);
    case Begin(pid, key, useCase) => BeginWritesNothing(u, s, pid, key, useCase);
    case OnTask(pid, task) =>
      if pid in s.tasks {
        TaskWrites(u, s, pid, task);
      }
  }

  lemma UploadWrites(u: Setup, s: State, key: BlobKey, e: UploadEvent)
    ensures UploadStep(u, s, key, e).anchor == s.anchor
         || exists k, i: nat :: WritesShard(s, UploadStep(u, s, key, e), k, i)
  {
    hide Encoded, Supports;
    if e.UploadWrite? && key in s.uploads {
      if UploadStep(u, s, key, e) != s {
        assert WritesShard(s, UploadStep(u, s, key, e), key, s.uploads[key].written);
      }
    }
  }

  lemma BeginWritesNothing(u: Setup, s: State, pid: nat, key: BlobKey, c: UseCase)
    ensures BeginStep(u, s, pid, key, c).anchor == s.anchor
  {
    hide WithTask;
  }

  lemma TaskWrites(u: Setup, s: State, pid: nat, e: TaskEvent)
    requires Inv(u, s) && pid in s.tasks && !e.ReapShards?
    ensures TaskStep(u, s, pid, s.tasks[pid], e).anchor == s.anchor
         || exists k, i: nat :: WritesShard(s, TaskStep(u, s, pid, s.tasks[pid], e), k, i)
  {
    hide Inv, RecordOf, ReadOk, SlotsOk, TaskStep, HoldOver, WithTask, WithoutTask;
    TaskFacts(u, s, pid);
    var t := s.tasks[pid];
    TaskAnchor(u, s, pid, t, e);
    if t.Rewriting? && e.RepairWrite? && t.next < |t.bad| {
      assert t.bad[t.next] in t.bad;
      assert WritesShard(s, TaskStep(u, s, pid, t, e), t.key, t.bad[t.next]);
    }
  }

  /** Of all the steps of a task, only the writes of a repair and the deletions touch the anchor. */
  lemma TaskAnchor(u: Setup, s: State, pid: nat, t: Task, e: TaskEvent)
    ensures !(t.Rewriting? && e.RepairWrite?) && !e.ReapShards? ==> TaskStep(u, s, pid, t, e).anchor == s.anchor
    ensures t.Rewriting? && e.RepairWrite? ==> TaskStep(u, s, pid, t, e) == RewritingStep(s, pid, t, e)
    ensures e.ReapShards? ==> LeavesOnly(s, TaskStep(u, s, pid, t, e), {})
  {
    hide RepairingStep, ReapingStep, RewritingStep, AnchorSlot, Valid, WithTask, WithoutTask;
    if t.Repairing? {
      RepairingWritesNothing(u, s, pid, t, e);
    } else if t.Rewriting? {
      RewritingWritesOnly(s, pid, t, e);
    } else if t.Reaping? {
      ReapingLeaves(u, s, pid, t, e);
    }
  }

  lemma RewritingWritesOnly(s: State, pid: nat, t: Task, e: TaskEvent)
    requires t.Rewriting?
    ensures !e.RepairWrite? ==> RewritingStep(s, pid, t, e).anchor == s.anchor
  {
    hide WithTask, WithoutTask;
  }

  lemma ReapingLeaves(u: Setup, s: State, pid: nat, t: Task, e: TaskEvent)
    requires t.Reaping?
    ensures !e.ReapShards? ==> ReapingStep(u, s, pid, t, e).anchor == s.anchor
    ensures LeavesOnly(s, ReapingStep(u, s, pid, t, e), {})
  {
    hide WithTask, WithoutTask;
  }

  lemma RepairingWritesNothing(u: Setup, s: State, pid: nat, t: Task, e: TaskEvent)
    requires t.Repairing?
    ensures RepairingStep(u, s, pid, t, e).anchor == s.anchor
  {
    hide Encoded, Decoded, AnchorSlot, Valid, CountSome, WithTask, WithoutTask;
  }

  /** Whatever a step leaves on the anchor was there, is a codeword shard, or came from outside. */
  lemma StepAnchorKnown(u: Setup, s: State, shown: set<Bytes>, e: Event)
    requires Inv(u, s) && Known(u, s, shown, e)
    ensures AnchorKnown(Step(u, s, e), shown)
  {
    hide Inv, Unforged, Step, CodewordShard, WritesShard, LeavesOnly, SameOrigins;
    OriginsKept(u, s, e);
    if e.Fault? || (e.OnTask? && e.task.ReapShards?) {
      DamageLeaves(u, s, e);
      DamageKnown(s, Step(u, s, e), shown, ShownBy(e));
    } else {
      AnchorWrites(u, s, e);
      WriteKnown(s, Step(u, s, e), shown);
    }
  }

  lemma DamageLeaves(u: Setup, s: State, e: Event)
    requires e.Fault? || (e.OnTask? && e.task.ReapShards?)
    ensures LeavesOnly(s, Step(u, s, e), ShownBy(e))
  {
    hide TaskStep, UploadStep, BeginStep;
    if e.OnTask? && e.pid in s.tasks {
      TaskAnchor(u, s, e.pid, s.tasks[e.pid], e.task);
    }
  }

  lemma DamageKnown(s: State, s': State, shown: set<Bytes>, left: set<Bytes>)
    requires AnchorKnown(s, shown) && SameOrigins(s, s') && LeavesOnly(s, s', left) && left <= shown
    ensures AnchorKnown(s', shown)
  {}

  lemma WriteKnown(s: State, s': State, shown: set<Bytes>)
    requires AnchorKnown(s, shown) && SameOrigins(s, s')
    requires s'.anchor == s.anchor || exists key, i: nat :: WritesShard(s, s', key, i)
    ensures AnchorKnown(s', shown)
  {
    if s'.anchor != s.anchor {
      var key, i: nat :| WritesShard(s, s', key, i);
    }
  }

  // ---- Every run keeps the invariant ----

  lemma UnforgedEarlier(u: Setup, s: State, shown: set<Bytes>, e: Event)
    requires Unforged(u, Step(u, s, e), shown)
    ensures Unforged(u, s, shown)
  {
    hide Step;
    OriginsKept(u, s, e);
  }

  /** The only assumption about the digest: no bytes that a fault left or a peer answered in this run carry
      the hash of a stored shard without being that shard. */
  ghost predicate Gates(u: Setup, events: seq<Event>) { Unforged(u, After(u, events), Shown(events)) }

  lemma {:induction false} RunKeeps(u: Setup, events: seq<Event>, shown: set<Bytes>)
    requires Unforged(u, After(u, events), shown) && Shown(events) <= shown
    ensures Inv(u, After(u, events)) && AnchorKnown(After(u, events), shown)
  {
    hide *;
    if events == [] {
      BlankInv(u, shown);
      EmptyRun(u);
    } else {
      var front, e := events[..|events| - 1], events[|events| - 1];
      AfterSnoc(u, events);
      UnforgedEarlier(u, After(u, front), shown, e);
      ShownSnoc(events);
      RunKeeps(u, front, shown);
      NowKnown(u, After(u, front), shown, e);
      StepInv(u, After(u, front), shown, e);
      StepAnchorKnown(u, After(u, front), shown, e);
    }
  }

  lemma ShownSnoc(events: seq<Event>)
    requires events != []
    ensures Shown(events) == Shown(events[..|events| - 1]) + ShownBy(events[|events| - 1])
  {
    hide ShownBy;
  }

  lemma NowKnown(u: Setup, s: State, shown: set<Bytes>, e: Event)
    requires Unforged(u, s, shown) && AnchorKnown(s, shown) && ShownBy(e) <= shown
    ensures Known(u, s, shown, e)
  {
    hide Unforged, AnchorKnown, ShownBy;
  }

  lemma AfterMore(u: Setup, events: seq<Event>, e: Event)
    ensures After(u, events + [e]) == Step(u, After(u, events), e)
  {
    hide Step;
    assert (events + [e])[..|events|] == events;
  }

  /** One more step of a run. */
  lemma RunStep(u: Setup, events: seq<Event>, e: Event)
    requires Gates(u, events + [e])
    ensures Inv(u, After(u, events)) && Inv(u, Step(u, After(u, events), e))
    ensures Gates(u, events) && Evolves(After(u, events), Step(u, After(u, events), e))
  {
    hide Step, Inv, AnchorKnown, Unforged, Evolves, Shown, After;
    var s, shown := After(u, events), Shown(events + [e]);
    AfterMore(u, events, e);
    UnforgedEarlier(u, s, shown, e);
    ShownSnoc(events + [e]);
    assert (events + [e])[..|events|] == events;
    RunKeeps(u, events, shown);
    NowKnown(u, s, shown, e);
    StepInv(u, s, shown, e);
    UnforgedFewer(u, s, shown, Shown(events));
  }

  lemma UnforgedFewer(u: Setup, s: State, shown: set<Bytes>, fewer: set<Bytes>)
    requires Unforged(u, s, shown) && fewer <= shown
    ensures Unforged(u, s, fewer)
  {}

  lemma EmptyRun(u: Setup)
    ensures After(u, []) == BLANK
  {}

  /** The invariant holds in every reachable state. */
  lemma RunInv(u: Setup, events: seq<Event>)
    requires Gates(u, events)
    ensures Inv(u, After(u, events)) && AnchorKnown(After(u, events), Shown(events))
    ensures Unforged(u, After(u, events), Shown(events))
  {
    hide Inv, AnchorKnown, Unforged, After, Shown;
    RunKeeps(u, events, Shown(events));
  }
}
