/** What a repair loop achieves while everything else goes on: a blob whose repair both began and finished
    within a stretch of the run has lost, at any later moment, only shards hit since that stretch began.
  */
module SweepLaws {
  import opened Prelude
  import opened Stores
  import opened ErasureCoder
  import opened Cluster
  import opened ClusterInvariants
  import opened ClusterRuns
  import opened ClusterLaws

  predicate Repairs(t: Task) { t.Repairing? || t.Rewriting? }

  /** If the task is a repair, it began no earlier than this point of the damage log. */
  ghost predicate BeganSince(s: State, pid: nat, since: nat) {
    && since <= |s.damage|
    && (pid in s.tasks && Repairs(s.tasks[pid]) ==> s.tasks[pid].start >= since)
  }

  /** A task goes on as the repair it was. */
  predicate Continues(t: Task, t': Task) { Repairs(t') ==> Repairs(t) && t'.start == t.start }

  /** Neither the tasks nor the damage log differ. */
  ghost predicate SameTasksAndDamage(s: State, s': State) { s'.tasks == s.tasks && s'.damage == s.damage }

  lemma Continued(s: State, id: nat, pid: nat, since: nat)
    requires BeganSince(s, pid, since) && id in s.tasks
    ensures forall s1 :: SameTasksAndDamage(s, s1) ==>
      BeganSince(s1, pid, since) && BeganSince(WithoutTask(s1, id), pid, since)
    ensures forall s1, t :: SameTasksAndDamage(s, s1) && Continues(s.tasks[id], t) ==>
      BeganSince(WithTask(s1, id, t), pid, since)
  {}

  lemma StepBegan(u: Setup, s: State, e: Event, pid: nat, since: nat)
    requires BeganSince(s, pid, since)
    ensures BeganSince(Step(u, s, e), pid, since)
  {
    hide UploadStep, BeginStep, TaskStep;
    match e
    case OnUpload(key, upload) => UploadKeepsTasks(u, s, key, upload);
    case Begin(id, key, useCase) => BeginBegan(u, s, id, key, useCase, pid, since);
    case OnTask(id, task) =>
      if id in s.tasks {
        TaskBegan(u, s, id, task, pid, since);
      }
    case _ =>
  }

  lemma UploadKeepsTasks(u: Setup, s: State, key: BlobKey, e: UploadEvent)
    ensures UploadStep(u, s, key, e).tasks == s.tasks && UploadStep(u, s, key, e).damage == s.damage
  {
    hide Encoded, Supports;
  }

  lemma BeginBegan(u: Setup, s: State, id: nat, key: BlobKey, c: UseCase, pid: nat, since: nat)
    requires BeganSince(s, pid, since)
    ensures BeganSince(BeginStep(u, s, id, key, c), pid, since)
  {
    hide WithTask;
    Begun(s, id, pid, since);
  }

  lemma Begun(s: State, id: nat, pid: nat, since: nat)
    requires BeganSince(s, pid, since)
    ensures forall t :: (Repairs(t) ==> t.start == |s.damage|) ==> BeganSince(WithTask(s, id, t), pid, since)
  {}

  lemma TaskBegan(u: Setup, s: State, id: nat, e: TaskEvent, pid: nat, since: nat)
    requires BeganSince(s, pid, since) && id in s.tasks
    ensures BeganSince(TaskStep(u, s, id, s.tasks[id], e), pid, since)
  {
    hide RepairingStep, RewritingStep, RestoringStep, NamingStep, ReapingStep, WithTask, WithoutTask, BeganSince;
    var t := s.tasks[id];
    Continued(s, id, pid, since);
    if t.Repairing? {
      RepairingBegan(u, s, id, t, e, pid, since);
    } else if t.Rewriting? {
      RewritingBegan(s, id, t, e, pid, since);
    } else {
      OthersBegan(u, s, id, t, e, pid, since);
    }
  }

  lemma RepairingBegan(u: Setup, s: State, id: nat, t: Task, e: TaskEvent, pid: nat, since: nat)
    requires BeganSince(s, pid, since) && id in s.tasks && s.tasks[id] == t && t.Repairing?
    ensures BeganSince(RepairingStep(u, s, id, t, e), pid, since)
  {
    hide Encoded, Decoded, AnchorSlot, Valid, CountSome, WithTask, WithoutTask, BeganSince;
    Continued(s, id, pid, since);
  }

  lemma RewritingBegan(s: State, id: nat, t: Task, e: TaskEvent, pid: nat, since: nat)
    requires BeganSince(s, pid, since) && id in s.tasks && s.tasks[id] == t && t.Rewriting?
    ensures BeganSince(RewritingStep(s, id, t, e), pid, since)
  {
    hide WithTask, WithoutTask, BeganSince;
    Continued(s, id, pid, since);
  }

  lemma OthersBegan(u: Setup, s: State, id: nat, t: Task, e: TaskEvent, pid: nat, since: nat)
    requires BeganSince(s, pid, since) && id in s.tasks && s.tasks[id] == t && !Repairs(t)
    ensures BeganSince(TaskStep(u, s, id, t, e), pid, since)
  {
    hide RepairingStep, RewritingStep, AnchorSlot, Valid, WithTask, WithoutTask, BeganSince;
    Continued(s, id, pid, since);
  }

  lemma Longer(events: seq<Event>, later: seq<Event>)
    requires later != []
    ensures events + later == (events + later[..|later| - 1]) + [later[|later| - 1]]
  {}

  /** A task that was not running then began since. */
  lemma {:induction false} RunBegan(u: Setup, events: seq<Event>, later: seq<Event>, pid: nat)
    requires pid !in After(u, events).tasks
    ensures BeganSince(After(u, events + later), pid, |After(u, events).damage|)
  {
    hide After, Step;
    if later == [] {
      assert events + later == events;
    } else {
      var front, e := later[..|later| - 1], later[|later| - 1];
      Longer(events, later);
      AfterMore(u, events + front, e);
      RunBegan(u, events, front, pid);
      StepBegan(u, After(u, events + front), e, pid, |After(u, events).damage|);
    }
  }

  lemma GrowsTrans(a: State, b: State, c: State)
    requires Grows(a, b) && Grows(b, c)
    ensures Grows(a, c)
  {}

  lemma GrowsSelf(s: State)
    ensures Grows(s, s)
  {}

  lemma {:induction false} RunGrows(u: Setup, events: seq<Event>, later: seq<Event>)
    requires Gates(u, events + later)
    ensures Grows(After(u, events), After(u, events + later))
  {
    hide After, Step, Gates, Inv, Grows, Keeps;
    if later == [] {
      assert events + later == events;
      GrowsSelf(After(u, events));
    } else {
      var front, e := later[..|later| - 1], later[|later| - 1];
      Longer(events, later);
      AfterMore(u, events + front, e);
      RunStep(u, events + front, e);
      RunGrows(u, events, front);
      GrowsTrans(After(u, events), After(u, events + front), After(u, events + later));
    }
  }

  /** The repair of this task is about to finish. */
  ghost predicate Finishing(s: State, pid: nat) {
    pid in s.tasks && s.tasks[pid].Rewriting? && s.tasks[pid].next == |s.tasks[pid].bad| && s.tasks[pid].key in s.marks
  }

  lemma FinishMarks(u: Setup, s: State, pid: nat)
    requires Finishing(s, pid)
    ensures
      var key, s' := s.tasks[pid].key, Step(u, s, OnTask(pid, RepairFinish));
      key in s'.marks && s'.marks[key] >= s.tasks[pid].start
  {}

  /** A repair that began after `before` and finished after `during`: whatever else ran meanwhile and ran
      `after` it, every shard of its blob is good on the anchor unless a fault hit it since `before` or the
      blob was reaped. */
  lemma SweptStaysWhole(
    u: Setup, before: seq<Event>, during: seq<Event>, after: seq<Event>, pid: nat, key: BlobKey)
    requires pid !in After(u, before).tasks
    requires Finishing(After(u, before + during), pid) && After(u, before + during).tasks[pid].key == key
    requires Gates(u, before + during + [OnTask(pid, RepairFinish)] + after)
    ensures
      var s := After(u, before + during + [OnTask(pid, RepairFinish)] + after);
      var since := |After(u, before).damage|;
      && key in s.origins
      && (forall i: nat :: i < |s.origins[key].codeword| ==>
            GoodAt(s, key, i) || HitSince(s, key, i, since) || key in s.reaped)
      && (key !in s.reaped ==> |GoodShards(s, key)| + |Hit(s, key, since)| >= |s.origins[key].codeword|)
  {
    hide *;
    var e := OnTask(pid, RepairFinish);
    var since, mid := |After(u, before).damage|, After(u, before + during);
    var done, last := before + during + [e], before + during + [e] + after;
    RunBegan(u, before, during, pid);
    AfterMore(u, before + during, e);
    FinishMarks(u, mid, pid);
    RunGrows(u, done, after);
    RunInv(u, last);
    SinceMark(u, mid, After(u, done), After(u, last), pid, since);
  }

  lemma SinceMark(u: Setup, mid: State, done: State, s: State, pid: nat, since: nat)
    requires Finishing(mid, pid) && BeganSince(mid, pid, since)
    requires mid.tasks[pid].key in done.marks && done.marks[mid.tasks[pid].key] >= mid.tasks[pid].start
    requires Grows(done, s) && Inv(u, s)
    ensures
      var key := mid.tasks[pid].key;
      && key in s.origins
      && (forall i: nat :: i < |s.origins[key].codeword| ==>
            GoodAt(s, key, i) || HitSince(s, key, i, since) || key in s.reaped)
      && (key !in s.reaped ==> |GoodShards(s, key)| + |Hit(s, key, since)| >= |s.origins[key].codeword|)
  {
    hide GoodAt, HitSince, OriginsOk, RecordsOk, UploadsOk, TasksOk, DeliveriesOk;
    var key := mid.tasks[pid].key;
    assert key in s.marks.Keys;
    assert BornOk(u, s, key);
    forall i: nat | i < |s.origins[key].codeword|
      ensures GoodAt(s, key, i) || HitSince(s, key, i, since) || key in s.reaped
    {
      assert Covered(s, key, i, s.marks[key]);
      if !GoodAt(s, key, i) {
        LostEarlier(s, key, i, s.marks[key], since);
      }
    }
    if key !in s.reaped {
      MostGood(s, key, since);
    }
  }

  lemma MostGood(s: State, key: BlobKey, since: nat)
    requires key in s.origins
    requires forall i: nat :: i < |s.origins[key].codeword| ==> GoodAt(s, key, i) || HitSince(s, key, i, since)
    ensures |GoodShards(s, key)| + |Hit(s, key, since)| >= |s.origins[key].codeword|
  {
    hide GoodAt, HitSince;
    var all, both := Upto(|s.origins[key].codeword|), GoodShards(s, key) + Hit(s, key, since);
    assert all <= both;
    SubsetSize(all, both);
  }
}
