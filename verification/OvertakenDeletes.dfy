/** Two runs in which a delete is complete, and yet shards of the blob come back: a repair was in flight, or just
    a name edit. For every coder, all parameters, all data and any hold.
  */
module OvertakenDeletes {
  import opened Prelude
  import opened Domain
  import opened Stores
  import opened ErasureCoder
  import opened Cluster
  import opened ClusterInvariants
  import opened ClusterRuns
  import opened ClusterLaws
  import opened DeletionLaws
  import opened DeletionReturns
  import opened PutRuns

  /** A repair or a name edit of the blob, just begun. */
  function Begun(c: Scene, useCase: UseCase): Task
    requires c.Ok()
  {
    if useCase.Repair? then Repairing(c.key, c.Record(), 0, 0, [], []) else Naming(c.key, c.Record())
  }

  /** When the hold is over. */
  function Due(c: Scene): Timestamp { c.u.policy(c.key.0).minDays * DAY_MS }

  /** The blob at that time, before its shards are dropped or after. */
  function Waiting(c: Scene, tasks: map<nat, Task>): State
    requires c.Ok()
  {
    With(c, Shards(c, {}), tasks, 0, 0).(now := Due(c))
  }

  function Dropped(c: Scene, manifests: map<BlobKey, Manifest>, tasks: map<nat, Task>): State
    requires c.Ok()
  {
    With(c, map[], tasks, 0, 0).(now := Due(c), manifests := manifests, reaped := {c.key})
  }

  lemma UnhitBounded(c: Scene, s: State)
    requires c.Ok() && s.damage == [] && s.origins == With(c, map[], map[], 0, 0).origins
    requires s.marks == With(c, map[], map[], 0, 0).marks
    ensures Bounded(c, s)
  {
    hide Encoded;
    assert forall i: nat :: !HitSince(s, c.key, i, 0);
    assert Hit(s, c.key, 0) == {};
  }

  lemma Unstruck(key: BlobKey)
    ensures Struck(key, 0) == []
  {}

  lemma UseBegins(c: Scene, useCase: UseCase)
    requires c.Ok() && (useCase.Repair? || useCase.Rename?)
    ensures Step(c.u, With(c, Shards(c, {}), map[], 0, 0), Begin(0, c.key, useCase))
         == With(c, Shards(c, {}), map[0 := Begun(c, useCase)], 0, 0)
  {
    hide Encoded, UploadStep, TaskStep, Shards;
    var s := With(c, Shards(c, {}), map[], 0, 0);
    assert s.tasks[0 := Begun(c, useCase)] == map[0 := Begun(c, useCase)];
  }

  lemma TimePasses(c: Scene, tasks: map<nat, Task>)
    requires c.Ok()
    ensures Step(c.u, With(c, Shards(c, {}), tasks, 0, 0), Tick(Due(c))) == Waiting(c, tasks)
  {
    hide Encoded, UploadStep, TaskStep, BeginStep, Shards;
  }

  /** The delete, refused or granted so far, its shards dropped or not. */
  function Delete(c: Scene, granted: bool, dropped: bool): Task { Reaping(c.key, 0, granted, dropped) }

  lemma DeleteBegins(c: Scene, t: Task)
    requires c.Ok()
    ensures
      var free := c.u.policy(c.key.0).minDays == 0;
      Step(c.u, Waiting(c, map[0 := t]), Begin(1, c.key, Reap)) == Waiting(c, map[0 := t, 1 := Delete(c, free, false)])
  {
    hide Encoded, UploadStep, TaskStep, Shards;
    var s := Waiting(c, map[0 := t]);
    var reap := Delete(c, c.u.policy(c.key.0).minDays == 0, false);
    assert s.tasks[1 := reap] == map[0 := t, 1 := reap];
  }

  lemma DeleteGranted(c: Scene, t: Task, free: bool)
    requires c.Ok()
    ensures Step(c.u, Waiting(c, map[0 := t, 1 := Delete(c, free, false)]), OnTask(1, ReapCheck))
         == Waiting(c, map[0 := t, 1 := Delete(c, true, false)])
  {
    hide Encoded, UploadStep, BeginStep, RepairingStep, RewritingStep, RestoringStep, NamingStep, Shards;
    var s := Waiting(c, map[0 := t, 1 := Delete(c, free, false)]);
    assert c.u.policy(c.key.0).HoldElapsed(0, s.now);
    assert s.tasks[1 := Delete(c, true, false)] == map[0 := t, 1 := Delete(c, true, false)];
  }

  lemma DeleteDrops(c: Scene, t: Task)
    requires c.Ok()
    ensures Step(c.u, Waiting(c, map[0 := t, 1 := Delete(c, true, false)]), OnTask(1, ReapShards({}, true)))
         == Dropped(c, map[c.key := c.Record()], map[0 := t, 1 := Delete(c, true, true)])
  {
    hide Encoded, UploadStep, BeginStep, RepairingStep, RewritingStep, RestoringStep, NamingStep;
    var s := Waiting(c, map[0 := t, 1 := Delete(c, true, false)]);
    var s' := ReapingStep(c.u, s, 1, Delete(c, true, false), ReapShards({}, true));
    assert s'.anchor == map[];
    assert s.tasks[1 := Delete(c, true, true)] == map[0 := t, 1 := Delete(c, true, true)];
    assert s'.reaped == {c.key};
  }

  lemma DeleteUnlists(c: Scene, t: Task)
    requires c.Ok()
    ensures
      var s := Dropped(c, map[c.key := c.Record()], map[0 := t, 1 := Delete(c, true, true)]);
      Step(c.u, s, OnTask(1, ReapManifest)) == Dropped(c, map[], map[0 := t])
  {
    hide Encoded, UploadStep, BeginStep, RepairingStep, RewritingStep, RestoringStep, NamingStep;
    var s := Dropped(c, map[c.key := c.Record()], map[0 := t, 1 := Delete(c, true, true)]);
    assert s.tasks - {1} == map[0 := t];
    assert s.manifests - {c.key} == map[];
  }

  lemma DroppedReached(c: Scene, useCase: UseCase)
    requires c.Ok() && (useCase.Repair? || useCase.Rename?)
    ensures Reaches(c, Dropped(c, map[], map[0 := Begun(c, useCase)]))
  {
    hide *;
    var t, free := Begun(c, useCase), c.u.policy(c.key.0).minDays == 0;
    PublishedReached(c);
    ShapesBounded(c);
    UseBegins(c, useCase);
    Go(c, With(c, Shards(c, {}), map[], 0, 0), Begin(0, c.key, useCase), With(c, Shards(c, {}), map[0 := t], 0, 0));
    TimePasses(c, map[0 := t]);
    Go(c, With(c, Shards(c, {}), map[0 := t], 0, 0), Tick(Due(c)), Waiting(c, map[0 := t]));
    DeleteBegins(c, t);
    var asked := Waiting(c, map[0 := t, 1 := Delete(c, free, false)]);
    Go(c, Waiting(c, map[0 := t]), Begin(1, c.key, Reap), asked);
    DeleteGranted(c, t, free);
    var granted := Waiting(c, map[0 := t, 1 := Delete(c, true, false)]);
    Go(c, asked, OnTask(1, ReapCheck), granted);
    DeleteDrops(c, t);
    var listed := Dropped(c, map[c.key := c.Record()], map[0 := t, 1 := Delete(c, true, true)]);
    Go(c, granted, OnTask(1, ReapShards({}, true)), listed);
    DeleteUnlists(c, t);
    Go(c, listed, OnTask(1, ReapManifest), Dropped(c, map[], map[0 := t]));
  }

  lemma ShapesBounded(c: Scene)
    requires c.Ok()
    ensures forall tasks :: Bounded(c, With(c, Shards(c, {}), tasks, 0, 0)) && Bounded(c, Waiting(c, tasks))
    ensures forall manifests, tasks :: Bounded(c, Dropped(c, manifests, tasks))
  {
    hide Encoded, Bounded, Shards;
    Unstruck(c.key);
    forall tasks
      ensures Bounded(c, With(c, Shards(c, {}), tasks, 0, 0)) && Bounded(c, Waiting(c, tasks))
    {
      UnhitBounded(c, With(c, Shards(c, {}), tasks, 0, 0));
      UnhitBounded(c, Waiting(c, tasks));
    }
    forall manifests, tasks
      ensures Bounded(c, Dropped(c, manifests, tasks))
    {
      UnhitBounded(c, Dropped(c, manifests, tasks));
    }
  }

  /** The delete is complete, and just the one repair or name edit is in flight. */
  ghost predicate Overtaken(c: Scene, s: State, useCase: UseCase) {
    && Gone(s, c.key) && c.key in s.born && c.key in s.reaped && s.uploads == map[]
    && s.tasks.Keys == {0} && s.tasks[0].key == c.key
    && (if useCase.Repair? then s.tasks[0].Repairing? else s.tasks[0].Naming?)
  }

  /** With only a repair, or only a name edit, of it in flight, a completely deleted blob can have a shard on the
      anchor again. */
  lemma DeleteOvertaken(c: Scene, useCase: UseCase)
    requires c.Ok() && (useCase.Repair? || useCase.Rename?)
    ensures exists events, later ::
      && Gates(c.u, events) && Overtaken(c, After(c.u, events), useCase)
      && Sparing(later, c.key) && !Bare(After(c.u, events + later), c.key)
  {
    hide *;
    var s := Dropped(c, map[], map[0 := Begun(c, useCase)]);
    DroppedReached(c, useCase);
    ReachesRun(c, s);
    var events :| BoundedRun(c, events) && After(c.u, events) == s;
    QuietGates(c, events);
    DroppedOvertaken(c, useCase);
    OvertakenUnsettled(c, s, useCase);
    DeletedForGoodIffSettled(c.u, events, c.key);
    var later :| Sparing(later, c.key) && !Bare(After(c.u, events + later), c.key);
    assert Gates(c.u, events) && Overtaken(c, After(c.u, events), useCase);
  }

  lemma DroppedOvertaken(c: Scene, useCase: UseCase)
    requires c.Ok() && (useCase.Repair? || useCase.Rename?)
    ensures Overtaken(c, Dropped(c, map[], map[0 := Begun(c, useCase)]), useCase)
    ensures
      var s := Dropped(c, map[], map[0 := Begun(c, useCase)]);
      c.key in s.origins && (s.tasks[0].Repairing? ==> |s.tasks[0].collected| < |s.tasks[0].m.shards|)
  {
    hide Encoded;
  }

  lemma OvertakenUnsettled(c: Scene, s: State, useCase: UseCase)
    requires Overtaken(c, s, useCase)
    requires s.tasks[0].Repairing? ==> |s.tasks[0].collected| < |s.tasks[0].m.shards|
    ensures Gone(s, c.key) && !Settled(s, c.key)
  {
    hide Gone;
    assert 0 in s.tasks.Keys;
  }
}
