/** Durability speaks about one moment. A restore that reads across a finished repair can be refused although
    every state of the run meets the bound of durability: this module builds such a run for every coder, every
    parameters with parity and all data. It shows that the bound on restores in flight cannot be relaxed.
  */
module SlowRestore {
  import opened Prelude
  import opened Domain
  import opened Stores
  import opened ErasureCoder
  import opened Cluster
  import opened ClusterRuns
  import opened ClusterLaws
  import opened PutRuns
  import RS = ReedSolomon

  // ---- The steps of the restore, the faults and the repair ----

  /** The first i slots, with the first `missed` of them missing. */
  function Slots(c: Scene, i: nat, missed: nat): (slots: seq<Option<Bytes>>)
    requires c.Ok() && i <= c.params.n
    ensures |slots| == i
  {
    seq(i, j requires 0 <= j < i => if j < missed then None else Some(c.Codeword()[j]))
  }

  function Reading(c: Scene, i: nat, missed: nat): Task
    requires c.Ok() && i <= c.params.n
  {
    Restoring(c.key, c.Record(), 0, Slots(c, i, missed), {})
  }

  /** The repair after reading the first i shards. */
  function Mending(c: Scene, i: nat): Task
    requires c.Ok() && i <= c.params.n
  {
    Repairing(c.key, c.Record(), c.Parity(), 0, Slots(c, i, c.Parity()), Naturals(Min(i, c.Parity())))
  }

  /** The repair after rewriting `next` shards. */
  function Mended(c: Scene, next: nat): Task
    requires c.Ok()
  {
    Rewriting(c.key, c.Parity(), c.Codeword(), Naturals(c.Parity()), next)
  }

  lemma SlotsStep(c: Scene, i: nat, missed: nat)
    requires c.Ok() && i < c.params.n
    ensures Slots(c, i, missed) + [if i < missed then None else Some(c.Codeword()[i])] == Slots(c, i + 1, missed)
  {
    hide Encoded;
  }

  lemma RecordShape(c: Scene)
    requires c.Ok()
    ensures
      var m := c.Record();
      && |m.shards| == c.params.n && m.erasure == c.params && m.ciphertextLen == |c.data|
      && forall i :: 0 <= i < c.params.n ==> m.shards[i].index == i && Valid(c.u.h, m, i, c.Codeword()[i])
  {
    hide Encoded;
  }

  /** The anchor holds shard i, or nothing at its place, as `there` says. */
  ghost predicate HoldsAt(c: Scene, anchor: map<ShardRef, Bytes>, i: nat, there: bool)
    requires c.Ok() && i < c.params.n
  {
    && (Own(c.key, i) in anchor <==> there)
    && (there ==> anchor[Own(c.key, i)] == c.Codeword()[i])
  }

  lemma AnchorGives(
    c: Scene, anchor: map<ShardRef, Bytes>, tasks: map<nat, Task>, mark: nat, hits: nat, i: nat, there: bool)
    requires c.Ok() && i < c.params.n && HoldsAt(c, anchor, i, there)
    ensures |c.Record().shards| == c.params.n
    ensures AnchorSlot(c.u, With(c, anchor, tasks, mark, hits), c.key, c.Record(), i)
         == if there then Some(c.Codeword()[i]) else None
  {
    hide Encoded;
    RecordShape(c);
  }

  lemma RestoreBegins(c: Scene, anchor: map<ShardRef, Bytes>)
    requires c.Ok()
    ensures Step(c.u, With(c, anchor, map[], 0, 0), Begin(0, c.key, Restore))
         == With(c, anchor, map[0 := Reading(c, 0, c.Parity())], 0, 0)
  {
    hide Encoded, UploadStep, TaskStep;
    assert Slots(c, 0, c.Parity()) == [];
  }

  lemma ShardStruck(c: Scene, anchor: map<ShardRef, Bytes>, tasks: map<nat, Task>, mark: nat, hits: nat)
    requires c.Ok() && hits < c.params.n
    ensures Step(c.u, With(c, anchor, tasks, mark, hits), Fault(Own(c.key, hits), None))
         == With(c, anchor - {Own(c.key, hits)}, tasks, mark, hits + 1)
  {
    hide Encoded, UploadStep, BeginStep, TaskStep;
    assert Struck(c.key, hits) + [Own(c.key, hits)] == Struck(c.key, hits + 1);
  }

  lemma RestoreReads(c: Scene, anchor: map<ShardRef, Bytes>, mark: nat, hits: nat, i: nat, missed: nat)
    requires c.Ok() && i < c.params.n && HoldsAt(c, anchor, i, i >= missed)
    ensures Step(c.u, With(c, anchor, map[0 := Reading(c, i, missed)], mark, hits), OnTask(0, RestoreRead(None, true)))
         == With(c, anchor, map[0 := Reading(c, i + 1, missed)], mark, hits)
  {
    hide Encoded, UploadStep, BeginStep, RepairingStep, RewritingStep, NamingStep, ReapingStep,
      AnchorSlot, Slots, HoldsAt;
    AnchorGives(c, anchor, map[0 := Reading(c, i, missed)], mark, hits, i, i >= missed);
    SlotsStep(c, i, missed);
    var s := With(c, anchor, map[0 := Reading(c, i, missed)], mark, hits);
    assert RestoringStep(c.u, s, 0, Reading(c, i, missed), RestoreRead(None, true))
        == WithTask(s, 0, Reading(c, i + 1, missed));
    assert s.tasks[0 := Reading(c, i + 1, missed)] == map[0 := Reading(c, i + 1, missed)];
  }

  lemma RepairBegins(c: Scene, anchor: map<ShardRef, Bytes>, t: Task)
    requires c.Ok()
    ensures Step(c.u, With(c, anchor, map[0 := t], 0, c.Parity()), Begin(1, c.key, Repair))
         == With(c, anchor, map[0 := t, 1 := Mending(c, 0)], 0, c.Parity())
  {
    hide Encoded, UploadStep, TaskStep;
    assert Slots(c, 0, c.Parity()) == [] && Naturals(0) == [];
  }

  lemma RepairReads(c: Scene, anchor: map<ShardRef, Bytes>, t: Task, i: nat)
    requires c.Ok() && i < c.params.n && HoldsAt(c, anchor, i, i >= c.Parity())
    ensures Step(c.u, With(c, anchor, map[0 := t, 1 := Mending(c, i)], 0, c.Parity()), OnTask(1, RepairRead))
         == With(c, anchor, map[0 := t, 1 := Mending(c, i + 1)], 0, c.Parity())
  {
    hide Encoded, UploadStep, BeginStep, RewritingStep, RestoringStep, NamingStep, ReapingStep;
    hide AnchorSlot, Decoded, CountSome, Slots, HoldsAt;
    var b := c.Parity();
    AnchorGives(c, anchor, map[0 := t, 1 := Mending(c, i)], 0, b, i, i >= b);
    SlotsStep(c, i, b);
    RecordShape(c);
    if i < b {
      assert Naturals(i) + [i] == Naturals(i + 1);
    }
    var s := With(c, anchor, map[0 := t, 1 := Mending(c, i)], 0, b);
    assert RepairingStep(c.u, s, 1, Mending(c, i), RepairRead) == WithTask(s, 1, Mending(c, i + 1));
    assert s.tasks[1 := Mending(c, i + 1)] == map[0 := t, 1 := Mending(c, i + 1)];
  }

  /** What the slots hold is the codeword, short of the missed ones. */
  lemma SlotsDecode(c: Scene, missed: nat)
    requires c.Ok() && missed <= c.params.n
    ensures CountSome(Slots(c, c.params.n, missed)) == c.params.n - missed
    ensures Decoded(c.u.coder, Slots(c, c.params.n, missed), c.params, |c.data|)
         == if c.params.n - missed >= c.params.k then Ok(c.data) else Err(Unavailable)
    ensures Encoded(c.u.coder, c.data, c.params) == Ok(c.Codeword())
  {
    hide Encoded, Decoded, CountSome;
    CodewordEncodes(c);
    SlotsPresent(c, missed);
    AnyKOfN(c.u.coder, c.data, c.params, c.Codeword(), Slots(c, c.params.n, missed));
  }

  lemma SlotsPresent(c: Scene, missed: nat)
    requires c.Ok() && missed <= c.params.n
    ensures CountSome(Slots(c, c.params.n, missed)) == c.params.n - missed
    ensures RS.AgreesWith(Slots(c, c.params.n, missed), c.Codeword())
  {
    hide Encoded, CountSome;
    var slots := Slots(c, c.params.n, missed);
    CountSomeIsCardinality(slots);
    assert SomeSet(slots) == Range(missed, c.params.n);
    RangeSize(missed, c.params.n);
  }

  lemma CodewordEncodes(c: Scene)
    requires c.Ok()
    ensures Encoded(c.u.coder, c.data, c.params) == Ok(c.Codeword())
  {
    hide RsEncoded;
  }

  lemma RepairDecides(c: Scene, anchor: map<ShardRef, Bytes>, t: Task)
    requires c.Ok() && c.HasParity()
    ensures Step(c.u, With(c, anchor, map[0 := t, 1 := Mending(c, c.params.n)], 0, c.Parity()), OnTask(1, RepairDecide))
         == With(c, anchor, map[0 := t, 1 := Mended(c, 0)], 0, c.Parity())
  {
    hide Encoded, Decoded, CountSome, Slots, UploadStep, BeginStep, RewritingStep, RestoringStep,
      NamingStep, ReapingStep;
    SlotsDecode(c, c.Parity());
    RecordShape(c);
    var s := With(c, anchor, map[0 := t, 1 := Mending(c, c.params.n)], 0, c.Parity());
    assert c.Record().IsReconstructable(CountSome(Slots(c, c.params.n, c.Parity())));
    assert RepairingStep(c.u, s, 1, Mending(c, c.params.n), RepairDecide) == WithTask(s, 1, Mended(c, 0));
    assert s.tasks[1 := Mended(c, 0)] == map[0 := t, 1 := Mended(c, 0)];
  }

  lemma RepairWrites(c: Scene, anchor: map<ShardRef, Bytes>, t: Task, r: nat)
    requires c.Ok() && r < c.Parity()
    ensures Step(c.u, With(c, anchor, map[0 := t, 1 := Mended(c, r)], 0, c.Parity()), OnTask(1, RepairWrite))
         == With(c, anchor[Own(c.key, r) := c.Codeword()[r]], map[0 := t, 1 := Mended(c, r + 1)], 0, c.Parity())
  {
    hide Encoded, UploadStep, BeginStep, RepairingStep, RestoringStep, NamingStep, ReapingStep;
    var s := With(c, anchor, map[0 := t, 1 := Mended(c, r)], 0, c.Parity());
    assert RewritingStep(s, 1, Mended(c, r), RepairWrite)
        == WithTask(s.(anchor := s.anchor[Own(c.key, r) := c.Codeword()[r]]), 1, Mended(c, r + 1));
    assert s.tasks[1 := Mended(c, r + 1)] == map[0 := t, 1 := Mended(c, r + 1)];
  }

  lemma RepairEnds(c: Scene, anchor: map<ShardRef, Bytes>, t: Task)
    requires c.Ok()
    ensures Step(c.u, With(c, anchor, map[0 := t, 1 := Mended(c, c.Parity())], 0, c.Parity()), OnTask(1, RepairFinish))
         == With(c, anchor, map[0 := t], c.Parity(), c.Parity())
  {
    hide Encoded, UploadStep, BeginStep, RepairingStep, RestoringStep, NamingStep, ReapingStep;
    var b := c.Parity();
    var s := With(c, anchor, map[0 := t, 1 := Mended(c, b)], 0, b);
    assert s.tasks - {1} == map[0 := t];
    assert s.marks[c.key := Max(0, b)] == map[c.key := b];
  }

  // ---- The run ----

  lemma Holds(c: Scene, missing: set<nat>, i: nat)
    requires c.Ok() && i < c.params.n
    ensures HoldsAt(c, Shards(c, missing), i, i !in missing)
  {
    hide Shards, Encoded;
    ShardsAt(c, missing, i);
  }

  lemma RangeHas(lo: nat, hi: nat, i: nat)
    ensures i in Range(lo, hi) <==> lo <= i < hi
  {}

  /** The restore has begun, and as many shards are lost as the blob tolerates. */
  lemma {:induction false} LossesReached(c: Scene, j: nat)
    requires c.Ok() && j <= c.Parity()
    ensures Reaches(c, With(c, Shards(c, Range(0, j)), map[0 := Reading(c, 0, c.Parity())], 0, j))
  {
    hide *;
    ParityBounds(c);
    var tasks := map[0 := Reading(c, 0, c.Parity())];
    if j == 0 {
      RangeLast(0, 0);
      PublishedReached(c);
      RestoreBegins(c, Shards(c, {}));
      WithBounded(c, Shards(c, {}), tasks, 0, 0);
      Go(c, With(c, Shards(c, {}), map[], 0, 0), Begin(0, c.key, Restore), With(c, Shards(c, {}), tasks, 0, 0));
    } else {
      var before, after := Shards(c, Range(0, j - 1)), Shards(c, Range(0, j));
      LossesReached(c, j - 1);
      ShardStruck(c, before, tasks, 0, j - 1);
      ShardsLose(c, Range(0, j - 1), j - 1);
      RangeLast(0, j - 1);
      WithBounded(c, after, tasks, 0, j);
      Go(c, With(c, before, tasks, 0, j - 1), Fault(Own(c.key, j - 1), None), With(c, after, tasks, 0, j));
    }
  }

  /** The restore reads the lost shards and misses them. */
  lemma {:induction false} MissesReached(c: Scene, i: nat)
    requires c.Ok() && i <= c.Parity()
    ensures Reaches(c, With(c, Shards(c, Range(0, c.Parity())), map[0 := Reading(c, i, c.Parity())], 0, c.Parity()))
  {
    hide *;
    ParityBounds(c);
    var b := c.Parity();
    var anchor := Shards(c, Range(0, b));
    if i == 0 {
      LossesReached(c, b);
    } else {
      MissesReached(c, i - 1);
      Holds(c, Range(0, b), i - 1);
      RangeHas(0, b, i - 1);
      RestoreReads(c, anchor, 0, b, i - 1, b);
      WithBounded(c, anchor, map[0 := Reading(c, i, b)], 0, b);
      Go(c, With(c, anchor, map[0 := Reading(c, i - 1, b)], 0, b), OnTask(0, RestoreRead(None, true)),
        With(c, anchor, map[0 := Reading(c, i, b)], 0, b));
    }
  }

  /** A repair begins and reads every shard. */
  lemma {:induction false} RepairReached(c: Scene, i: nat)
    requires c.Ok() && i <= c.params.n
    ensures
      var t := Reading(c, c.Parity(), c.Parity());
      Reaches(c, With(c, Shards(c, Range(0, c.Parity())), map[0 := t, 1 := Mending(c, i)], 0, c.Parity()))
  {
    hide *;
    ParityBounds(c);
    var b := c.Parity();
    var t, anchor := Reading(c, b, b), Shards(c, Range(0, b));
    if i == 0 {
      MissesReached(c, b);
      RepairBegins(c, anchor, t);
      WithBounded(c, anchor, map[0 := t, 1 := Mending(c, 0)], 0, b);
      Go(c, With(c, anchor, map[0 := t], 0, b), Begin(1, c.key, Repair),
        With(c, anchor, map[0 := t, 1 := Mending(c, 0)], 0, b));
    } else {
      RepairReached(c, i - 1);
      Holds(c, Range(0, b), i - 1);
      RangeHas(0, b, i - 1);
      RepairReads(c, anchor, t, i - 1);
      WithBounded(c, anchor, map[0 := t, 1 := Mending(c, i)], 0, b);
      Go(c, With(c, anchor, map[0 := t, 1 := Mending(c, i - 1)], 0, b), OnTask(1, RepairRead),
        With(c, anchor, map[0 := t, 1 := Mending(c, i)], 0, b));
    }
  }

  /** It brings the lost shards back. */
  lemma {:induction false} RewriteReached(c: Scene, r: nat)
    requires c.Ok() && c.HasParity() && r <= c.Parity()
    ensures
      var t := Reading(c, c.Parity(), c.Parity());
      Reaches(c, With(c, Shards(c, Range(r, c.Parity())), map[0 := t, 1 := Mended(c, r)], 0, c.Parity()))
  {
    hide *;
    ParityBounds(c);
    var b := c.Parity();
    var t, after := Reading(c, b, b), Shards(c, Range(r, b));
    WithBounded(c, after, map[0 := t, 1 := Mended(c, r)], 0, b);
    if r == 0 {
      RepairReached(c, c.params.n);
      RepairDecides(c, after, t);
      Go(c, With(c, after, map[0 := t, 1 := Mending(c, c.params.n)], 0, b), OnTask(1, RepairDecide),
        With(c, after, map[0 := t, 1 := Mended(c, 0)], 0, b));
    } else {
      var before := Shards(c, Range(r - 1, b));
      RewriteReached(c, r - 1);
      RepairWrites(c, before, t, r - 1);
      ShardsPut(c, Range(r - 1, b), r - 1);
      RangeFirst(r - 1, b);
      Go(c, With(c, before, map[0 := t, 1 := Mended(c, r - 1)], 0, b), OnTask(1, RepairWrite),
        With(c, after, map[0 := t, 1 := Mended(c, r)], 0, b));
    }
  }

  /** The repair finishes, and one more shard is lost, the next one the restore will read. */
  lemma MoreLossReached(c: Scene)
    requires c.Ok() && c.HasParity()
    ensures
      var b := c.Parity();
      Reaches(c, With(c, Shards(c, {b}), map[0 := Reading(c, b, b + 1)], b, b + 1))
  {
    hide *;
    ParityBounds(c);
    var b := c.Parity();
    var t, all := Reading(c, b, b), Shards(c, {});
    RewriteReached(c, b);
    RangeLast(b, b);
    RepairEnds(c, all, t);
    WithBounded(c, all, map[0 := t], b, b);
    Go(c, With(c, all, map[0 := t, 1 := Mended(c, b)], 0, b), OnTask(1, RepairFinish), With(c, all, map[0 := t], b, b));
    ShardStruck(c, all, map[0 := t], b, b);
    ShardsLose(c, {}, b);
    assert {} + {b} == {b};
    WithBounded(c, Shards(c, {b}), map[0 := t], b, b + 1);
    Go(c, With(c, all, map[0 := t], b, b), Fault(Own(c.key, b), None), With(c, Shards(c, {b}), map[0 := t], b, b + 1));
    SameReading(c);
  }

  lemma SameReading(c: Scene)
    requires c.Ok()
    ensures Reading(c, c.Parity(), c.Parity()) == Reading(c, c.Parity(), c.Parity() + 1)
  {
    hide Encoded;
    assert Slots(c, c.Parity(), c.Parity()) == Slots(c, c.Parity(), c.Parity() + 1);
  }

  /** The restore misses that one too, and reads the rest. */
  lemma {:induction false} RestReached(c: Scene, i: nat)
    requires c.Ok() && c.HasParity() && c.Parity() <= i <= c.params.n
    ensures
      var b := c.Parity();
      Reaches(c, With(c, Shards(c, {b}), map[0 := Reading(c, i, b + 1)], b, b + 1))
    decreases i
  {
    hide *;
    ParityBounds(c);
    var b := c.Parity();
    var anchor := Shards(c, {b});
    if i == b {
      MoreLossReached(c);
    } else {
      RestReached(c, i - 1);
      Holds(c, {b}, i - 1);
      RestoreReads(c, anchor, b, b + 1, i - 1, b + 1);
      WithBounded(c, anchor, map[0 := Reading(c, i, b + 1)], b, b + 1);
      Go(c, With(c, anchor, map[0 := Reading(c, i - 1, b + 1)], b, b + 1), OnTask(0, RestoreRead(None, true)),
        With(c, anchor, map[0 := Reading(c, i, b + 1)], b, b + 1));
    }
  }

  /** The restore of task 0 has read every shard and is refused, with one hit more than the bound allows since
      its floor. */
  ghost predicate Refused(c: Scene, s: State) {
    && c.key in s.born && c.key !in s.reaped && c.key in s.origins
    && s.origins[c.key].data == c.data && s.origins[c.key].params == c.params
    && 0 in s.tasks && s.tasks[0].Restoring? && Complete(s.tasks[0]) && s.tasks[0].key == c.key
    && s.tasks[0].failed == {}
    && c.params.WellFormed()
    && Decoded(c.u.coder, s.tasks[0].collected, c.params, |c.data|) == Err(Unavailable)
    && |Hit(s, c.key, s.tasks[0].floor)| + c.params.k == c.params.n + 1
  }

  lemma LastRefused(c: Scene)
    requires c.Ok()
    ensures
      var b := c.Parity();
      Refused(c, With(c, Shards(c, {b}), map[0 := Reading(c, c.params.n, b + 1)], b, b + 1))
  {
    hide Encoded, Decoded, Hit, CountSome, Slots, Shards;
    var b := c.Parity();
    RecordShape(c);
    SlotsDecode(c, b + 1);
    HitStruck(c, Shards(c, {b}), map[0 := Reading(c, c.params.n, b + 1)], b, b + 1, 0);
  }

  /** For every coder, all parameters with parity and all data there is a run that meets the bound of
      durability in every state, and in which a restore that spans a finished repair is refused although just
      one shard more was hit since its floor than `RestoreNeverWrong` allows: that bound is the best one. */
  lemma SlowRestoreRefused(c: Scene)
    requires c.Ok() && c.HasParity()
    ensures exists events :: BoundedRun(c, events) && Gates(c.u, events) && Refused(c, After(c.u, events))
  {
    hide *;
    ParityBounds(c);
    var b := c.Parity();
    var s := With(c, Shards(c, {b}), map[0 := Reading(c, c.params.n, b + 1)], b, b + 1);
    RestReached(c, c.params.n);
    LastRefused(c);
    ReachesRun(c, s);
    var events :| BoundedRun(c, events) && After(c.u, events) == s;
    QuietGates(c, events);
    assert BoundedRun(c, events) && Gates(c.u, events) && Refused(c, After(c.u, events));
  }
}
