/** What a delete does not wait for: as long as anything but harmless tasks is in flight for a deleted blob, the
    run has a continuation that puts one of its shards back.
  */
module DeletionReturns {
  import opened Prelude
  import opened Domain
  import opened Stores
  import opened ErasureCoder
  import opened Cluster
  import opened ClusterInvariants
  import opened ClusterSteps
  import opened ClusterRuns
  import opened DeletionLaws

  // ---- Continuations ----

  ghost function From(u: Setup, s: State, later: seq<Event>): State
    decreases |later|
  {
    if later == [] then s else From(u, Step(u, s, later[0]), later[1..])
  }

  lemma {:induction false} FromAfter(u: Setup, events: seq<Event>, later: seq<Event>)
    ensures After(u, events + later) == From(u, After(u, events), later)
    decreases |later|
  {
    hide After, Step;
    if later == [] {
      assert events + later == events;
    } else {
      AfterMore(u, events, later[0]);
      FromAfter(u, events + [later[0]], later[1..]);
      assert events + later == (events + [later[0]]) + later[1..];
    }
  }

  /** Some continuation leaves a shard of the blob on the anchor, without a fault putting it there. */
  ghost predicate CanReturn(u: Setup, s: State, key: BlobKey) {
    exists later :: Sparing(later, key) && !Bare(From(u, s, later), key)
  }

  lemma Returned(u: Setup, s: State, key: BlobKey)
    requires !Bare(s, key)
    ensures CanReturn(u, s, key)
  {
    hide Bare;
    assert Sparing([], key) && From(u, s, []) == s;
  }

  lemma Onward(u: Setup, s: State, e: Event, key: BlobKey)
    requires Spares(e, key) && CanReturn(u, Step(u, s, e), key)
    ensures CanReturn(u, s, key)
  {
    hide Bare, Step, Spares;
    var later :| Sparing(later, key) && !Bare(From(u, Step(u, s, e), later), key);
    var all := [e] + later;
    assert all[0] == e && all[1..] == later;
    assert Sparing(all, key);
    assert From(u, s, all) == From(u, Step(u, s, e), later);
  }

  lemma OnwardTask(u: Setup, s: State, pid: nat, e: TaskEvent, s': State, key: BlobKey)
    requires pid in s.tasks && s' == TaskStep(u, s, pid, s.tasks[pid], e) && CanReturn(u, s', key)
    ensures CanReturn(u, s, key)
  {
    hide TaskStep, CanReturn;
    Onward(u, s, OnTask(pid, e), key);
  }

  // ---- A repair in flight ----

  /** A repair with shards to rewrite rewrites one. */
  lemma RewritingReturns(u: Setup, s: State, pid: nat, key: BlobKey)
    requires pid in s.tasks && s.tasks[pid].Rewriting? && s.tasks[pid].key == key
    requires
      var t := s.tasks[pid];
      t.next < |t.bad| && t.bad[t.next] < |t.renewed|
    ensures CanReturn(u, s, key)
  {
    hide WithTask, CanReturn;
    var t := s.tasks[pid];
    var s' := TaskStep(u, s, pid, t, RepairWrite);
    assert Own(key, t.bad[t.next]) in s'.anchor;
    Returned(u, s', key);
    OnwardTask(u, s, pid, RepairWrite, s', key);
  }

  /** What a repair in flight has collected for the blob of this put. */
  ghost predicate Mending(u: Setup, o: Origin, m: Manifest, collected: seq<Option<Bytes>>, bad: seq<nat>) {
    && OriginOk(u, o) && m.erasure == o.params && m.ciphertextLen == |o.data| && Describes(u.h, m, o.codeword)
    && |collected| <= |m.shards|
    && (forall i :: 0 <= i < |collected| && collected[i].Some? ==> collected[i].value == o.codeword[i])
    && (forall i :: i in bad ==> i < |o.codeword|)
  }

  /** With k slots it decodes them and has the stored codeword to rewrite from. */
  lemma DecidingReturns(u: Setup, s: State, pid: nat, o: Origin)
    requires pid in s.tasks && s.tasks[pid].Repairing?
    requires
      var t := s.tasks[pid];
      && Mending(u, o, t.m, t.collected, t.bad) && t.bad != []
      && |t.collected| == |t.m.shards| && CountSome(t.collected) >= o.params.k
    ensures CanReturn(u, s, s.tasks[pid].key)
  {
    hide Encoded, Decoded, CountSome, CanReturn;
    var t := s.tasks[pid];
    EncodedOk(u.coder, o.data, o.params);
    AnyKOfN(u.coder, o.data, o.params, o.codeword, t.collected);
    var rewriting := Rewriting(t.key, t.start, o.codeword, t.bad, 0);
    assert t.m.IsReconstructable(CountSome(t.collected));
    assert TaskStep(u, s, pid, t, RepairDecide) == WithTask(s, pid, rewriting);
    assert t.bad[0] in t.bad;
    RewritingReturns(u, WithTask(s, pid, rewriting), pid, t.key);
    OnwardTask(u, s, pid, RepairDecide, WithTask(s, pid, rewriting), t.key);
  }

  lemma SomeHole(collected: seq<Option<Bytes>>, k: nat) returns (i: nat)
    requires CountSome(collected) < k <= |collected|
    ensures i < |collected| && collected[i].None?
  {
    CountSomeAll(collected);
    i :| i < |collected| && collected[i].None?;
  }

  /** Short of k slots it can borrow the missing shards from peers that have them. */
  lemma {:induction false} BorrowingReturns(u: Setup, s: State, pid: nat, o: Origin)
    requires pid in s.tasks && s.tasks[pid].Repairing?
    requires
      var t := s.tasks[pid];
      && Mending(u, o, t.m, t.collected, t.bad) && t.bad != [] && |t.collected| == |t.m.shards|
    ensures CanReturn(u, s, s.tasks[pid].key)
    decreases |s.tasks[pid].m.shards| - CountSome(s.tasks[pid].collected)
  {
    var t := s.tasks[pid];
    MendingShape(u, o, t.m, t.collected, t.bad);
    CountAtMost(t.collected);
    hide Mending, CountSome, CanReturn, Encoded, Decoded, WithTask;
    if CountSome(t.collected) >= o.params.k {
      DecidingReturns(u, s, pid, o);
    } else {
      var i := SomeHole(t.collected, o.params.k);
      var filled := t.collected[i := Some(o.codeword[i])];
      CountSomeFill(t.collected, i, o.codeword[i]);
      CountAtMost(filled);
      MendingFilled(u, o, t.m, t.collected, t.bad, i);
      var s' := WithTask(s, pid, Repairing(t.key, t.m, t.start, t.floor, filled, t.bad));
      assert TaskStep(u, s, pid, t, RepairBorrow(i, o.codeword[i])) == s';
      WithTaskHas(s, pid, Repairing(t.key, t.m, t.start, t.floor, filled, t.bad));
      BorrowingReturns(u, s', pid, o);
      OnwardTask(u, s, pid, RepairBorrow(i, o.codeword[i]), s', t.key);
    }
  }

  lemma WithTaskHas(s: State, pid: nat, t: Task)
    ensures pid in WithTask(s, pid, t).tasks && WithTask(s, pid, t).tasks[pid] == t
  {}

  lemma CountAtMost(collected: seq<Option<Bytes>>)
    ensures CountSome(collected) <= |collected|
  {}

  lemma MendingShape(u: Setup, o: Origin, m: Manifest, collected: seq<Option<Bytes>>, bad: seq<nat>)
    requires Mending(u, o, m, collected, bad)
    ensures 1 <= o.params.k <= |m.shards| == |o.codeword| && m.erasure == o.params
  {
    EncodedOk(u.coder, o.data, o.params);
    hide Encoded;
  }

  lemma MendingFilled(
    u: Setup, o: Origin, m: Manifest, collected: seq<Option<Bytes>>, bad: seq<nat>, i: nat)
    requires Mending(u, o, m, collected, bad) && i < |collected|
    ensures i < |m.shards| == |o.codeword| && Valid(u.h, m, i, o.codeword[i])
    ensures Mending(u, o, m, collected[i := Some(o.codeword[i])], bad)
  {
    hide OriginOk;
  }

  /** It reads on; of a bare blob it finds every shard bad. */
  lemma {:induction false} ReadingReturns(u: Setup, s: State, pid: nat, o: Origin)
    requires pid in s.tasks && s.tasks[pid].Repairing? && Bare(s, s.tasks[pid].key)
    requires
      var t := s.tasks[pid];
      && Mending(u, o, t.m, t.collected, t.bad) && (|t.collected| < |t.m.shards| || t.bad != [])
    ensures CanReturn(u, s, s.tasks[pid].key)
    decreases |s.tasks[pid].m.shards| - |s.tasks[pid].collected|
  {
    var t := s.tasks[pid];
    MendingShape(u, o, t.m, t.collected, t.bad);
    if |t.collected| == |t.m.shards| {
      BorrowingReturns(u, s, pid, o);
    } else {
      MendingRead(u, o, t.m, t.collected, t.bad);
      hide Mending, CanReturn, WithTask, CountSome, Encoded, Decoded;
      var i := |t.collected|;
      var read := Repairing(t.key, t.m, t.start, t.floor, t.collected + [None], t.bad + [i]);
      var s' := WithTask(s, pid, read);
      assert AnchorSlot(u, s, t.key, t.m, i) == None by {
        assert Own(t.key, t.m.shards[i].index) !in s.anchor;
      }
      assert TaskStep(u, s, pid, t, RepairRead) == s';
      WithTaskHas(s, pid, read);
      ReadingReturns(u, s', pid, o);
      OnwardTask(u, s, pid, RepairRead, s', t.key);
    }
  }

  lemma MendingRead(u: Setup, o: Origin, m: Manifest, collected: seq<Option<Bytes>>, bad: seq<nat>)
    requires Mending(u, o, m, collected, bad) && |collected| < |m.shards|
    ensures m.shards[|collected|].index == |collected|
    ensures Mending(u, o, m, collected + [None], bad + [|collected|])
  {
    hide OriginOk;
  }

  // ---- A listed blob, a name edit, a put ----

  lemma {:induction false} Beyond(pids: set<nat>) returns (b: nat)
    ensures forall p :: p in pids ==> p < b
  {
    if pids == {} {
      b := 0;
    } else {
      var p :| p in pids;
      var rest := Beyond(pids - {p});
      b := Max(rest, p + 1);
      assert forall q :: q in pids ==> q == p || q in pids - {p};
    }
  }

  /** A bare blob that is listed can be repaired. */
  lemma ListedReturns(u: Setup, s: State, key: BlobKey)
    requires Inv(u, s) && key in s.manifests && Bare(s, key)
    ensures CanReturn(u, s, key)
  {
    hide Inv, RecordOf, BornOk, Mending, CanReturn, WithTask, Bare;
    RecordFacts(u, s, key);
    var m := s.manifests[key];
    RecordBasics(u, s, key, m);
    RecordMending(u, s, key, m);
    var pid := Beyond(s.tasks.Keys);
    assert pid !in s.tasks.Keys;
    var repair := Repairing(key, m, |s.damage|, s.marks[key], [], []);
    var s' := WithTask(s, pid, repair);
    WithTaskHas(s, pid, repair);
    SameBare(s, s', key);
    MendingShape(u, s.origins[key], m, [], []);
    ReadingReturns(u, s', pid, s.origins[key]);
    assert Step(u, s, Begin(pid, key, Repair)) == s';
    Onward(u, s, Begin(pid, key, Repair), key);
  }

  lemma SameBare(s: State, s': State, key: BlobKey)
    requires Bare(s, key) && s'.anchor == s.anchor
    ensures Bare(s', key)
  {}

  lemma RecordMending(u: Setup, s: State, key: BlobKey, m: Manifest)
    requires Inv(u, s) && RecordOf(u, s, key, m)
    ensures key in s.origins && Mending(u, s.origins[key], m, [], [])
  {
    RecordDescribes(u, s, key, m);
    hide RecordsOk, BlobsOk, UploadsOk, TasksOk, DeliveriesOk, RecordOf, Describes, OriginOk;
    RecordBasics(u, s, key, m);
  }

  lemma RecordDescribes(u: Setup, s: State, key: BlobKey, m: Manifest)
    requires RecordOf(u, s, key, m)
    ensures key in s.origins && Describes(u.h, m, s.origins[key].codeword)
  {
    hide Describes;
  }

  /** What the invariant of runs needs of a state. */
  ghost predicate Sound(u: Setup, s: State, shown: set<Bytes>) {
    Inv(u, s) && Unforged(u, s, shown) && AnchorKnown(s, shown)
  }

  lemma SoundStep(u: Setup, s: State, shown: set<Bytes>, e: Event)
    requires Sound(u, s, shown) && ShownBy(e) == {} && Step(u, s, e).origins == s.origins
    ensures Sound(u, Step(u, s, e), shown)
  {
    hide Inv, Step, AnchorKnown, Unforged;
    NowKnown(u, s, shown, e);
    StepInv(u, s, shown, e);
    StepAnchorKnown(u, s, shown, e);
    UnforgedSame(u, s, Step(u, s, e), shown);
  }

  lemma UnforgedSame(u: Setup, s: State, s': State, shown: set<Bytes>)
    requires Unforged(u, s, shown) && s'.origins == s.origins
    ensures Unforged(u, s', shown)
  {}

  /** A name edit lists the blob again. */
  lemma NamingReturns(u: Setup, s: State, shown: set<Bytes>, pid: nat)
    requires Sound(u, s, shown) && pid in s.tasks && s.tasks[pid].Naming? && Bare(s, s.tasks[pid].key)
    ensures CanReturn(u, s, s.tasks[pid].key)
  {
    hide Inv, AnchorKnown, Unforged, RecordOf, CanReturn, WithoutTask, Bare;
    var t, e := s.tasks[pid], NameWrite([], None);
    TaskFacts(u, s, pid);
    RecordBasics(u, s, t.key, t.m);
    var s' := Step(u, s, OnTask(pid, e));
    assert s'.origins == s.origins && s'.anchor == s.anchor && t.key in s'.manifests;
    SoundStep(u, s, shown, OnTask(pid, e));
    SameBare(s, s', t.key);
    ListedReturns(u, s', t.key);
    Onward(u, s, OnTask(pid, e), t.key);
  }

  /** A put writes its next shard, or publishes. */
  lemma {:induction false} UploadReturns(u: Setup, s: State, shown: set<Bytes>, key: BlobKey)
    requires Sound(u, s, shown) && key in s.uploads && Bare(s, key)
    ensures CanReturn(u, s, key)
    decreases
      var p := s.uploads[key];
      (if |p.metas| == p.written then 0 else 1) + (if p.stamp.None? then 1 else 0)
  {
    UploadShape(u, s, key);
    hide Sound, CanReturn, Bare;
    var p := s.uploads[key];
    if |p.metas| == p.written < |s.origins[key].codeword| {
      var e := OnUpload(key, UploadWrite);
      WriteReturns(u, s, key);
      Onward(u, s, e, key);
    } else {
      var upload :=
        if |p.metas| < p.written then UploadList else if p.stamp.None? then UploadStamp else UploadPublish;
      var s' := Step(u, s, OnUpload(key, upload));
      UploadMoves(u, s, key, upload);
      SoundStep(u, s, shown, OnUpload(key, upload));
      SameBare(s, s', key);
      if upload.UploadPublish? {
        SoundInv(u, s', shown);
        ListedReturns(u, s', key);
      } else {
        UploadReturns(u, s', shown, key);
      }
      Onward(u, s, OnUpload(key, upload), key);
    }
  }

  lemma SoundInv(u: Setup, s: State, shown: set<Bytes>)
    requires Sound(u, s, shown)
    ensures Inv(u, s)
  {
    hide Inv;
  }

  lemma UploadShape(u: Setup, s: State, key: BlobKey)
    requires Inv(u, s) && key in s.uploads
    ensures key in s.origins
    ensures
      var p := s.uploads[key];
      && |p.metas| <= p.written <= |p.metas| + 1 && p.written <= |s.origins[key].codeword|
      && (p.stamp.Some? ==> |p.metas| == |s.origins[key].codeword|)
  {
    hide Inv;
    UploadFacts(u, s, key);
  }

  lemma WriteReturns(u: Setup, s: State, key: BlobKey)
    requires key in s.uploads && key in s.origins
    requires s.uploads[key].written == |s.uploads[key].metas| < |s.origins[key].codeword|
    ensures CanReturn(u, Step(u, s, OnUpload(key, UploadWrite)), key)
  {
    hide CanReturn, Encoded, Supports, TaskStep, BeginStep;
    var s' := Step(u, s, OnUpload(key, UploadWrite));
    assert Own(key, s.uploads[key].written) in s'.anchor;
    Returned(u, s', key);
  }

  lemma UploadMoves(u: Setup, s: State, key: BlobKey, e: UploadEvent)
    requires key in s.uploads && key in s.origins
    requires
      var p := s.uploads[key];
      match e
      case UploadList => |p.metas| < p.written == |p.metas| + 1 <= |s.origins[key].codeword|
      case UploadStamp => |p.metas| == p.written == |s.origins[key].codeword| && p.stamp.None?
      case UploadPublish => p.stamp.Some?
      case _ => false
    ensures
      var s' := Step(u, s, OnUpload(key, e));
      && s'.origins == s.origins && s'.anchor == s.anchor
      && match e
         case UploadList =>
           key in s'.uploads && |s'.uploads[key].metas| == s'.uploads[key].written
           && s'.uploads[key].stamp == s.uploads[key].stamp
         case UploadStamp =>
           key in s'.uploads && s'.uploads[key].written == |s'.uploads[key].metas| && s'.uploads[key].stamp.Some?
         case _ => key in s'.manifests
  {
    hide Encoded, Supports, TaskStep, BeginStep;
  }

  // ---- Exactly the settled blobs stay deleted ----

  lemma TaskReturns(u: Setup, s: State, shown: set<Bytes>, pid: nat)
    requires Sound(u, s, shown) && pid in s.tasks && !Harmless(s.tasks[pid]) && Bare(s, s.tasks[pid].key)
    ensures CanReturn(u, s, s.tasks[pid].key)
  {
    hide Inv, AnchorKnown, Unforged, RecordOf, CanReturn, Bare, ReadOk, SlotsOk, Mending;
    TaskFacts(u, s, pid);
    var t := s.tasks[pid];
    if t.Naming? {
      NamingReturns(u, s, shown, pid);
    } else if t.Rewriting? {
      assert t.bad[t.next] in t.bad;
      RewritingReturns(u, s, pid, t.key);
    } else {
      RepairMending(u, s, pid);
      ReadingReturns(u, s, pid, s.origins[t.key]);
    }
  }

  lemma RepairMending(u: Setup, s: State, pid: nat)
    requires Inv(u, s) && pid in s.tasks && s.tasks[pid].Repairing?
    ensures
      var t := s.tasks[pid];
      t.key in s.origins && Mending(u, s.origins[t.key], t.m, t.collected, t.bad)
  {
    TaskFacts(u, s, pid);
    hide Inv, Lost, OriginOk, Covered;
    var t := s.tasks[pid];
    RecordMending(u, s, t.key, t.m);
    RecordBasics(u, s, t.key, t.m);
    hide RecordOf;
    forall i | 0 <= i < |t.collected| && t.collected[i].Some?
      ensures t.collected[i].value == s.origins[t.key].codeword[i]
    {
      assert SlotOk(s, t.key, i, t.floor, {}, t.collected[i]);
    }
  }

  /** In any reachable state, a deleted blob stays without a shard through every continuation exactly when it is
      settled: no put, name edit or repair with something to write is in flight for it. And then it stays
      unlisted, too. */
  lemma DeletedForGoodIffSettled(u: Setup, events: seq<Event>, key: BlobKey)
    requires Gates(u, events) && Gone(After(u, events), key) && key in After(u, events).origins
    ensures Settled(After(u, events), key)
       <==> forall later :: Sparing(later, key) ==> Bare(After(u, events + later), key)
    ensures Settled(After(u, events), key) ==>
      forall later :: Sparing(later, key) ==> Gone(After(u, events + later), key)
  {
    hide After, Gates, Inv, AnchorKnown, Unforged, Shown, Sparing, Bare, Settled;
    var s := After(u, events);
    if Settled(s, key) {
      forall later | Sparing(later, key)
        ensures Gone(After(u, events + later), key)
      {
        SettledStaysGone(u, events, later, key);
      }
    } else {
      RunInv(u, events);
      UnsettledReturns(u, s, Shown(events), key);
      var later :| Sparing(later, key) && !Bare(From(u, s, later), key);
      FromAfter(u, events, later);
    }
  }

  lemma UnsettledReturns(u: Setup, s: State, shown: set<Bytes>, key: BlobKey)
    requires Sound(u, s, shown) && Gone(s, key) && key in s.origins && !Settled(s, key)
    ensures CanReturn(u, s, key)
  {
    hide Sound, CanReturn, Bare, Harmless;
    if key in s.uploads {
      UploadReturns(u, s, shown, key);
    } else {
      var pid :| pid in s.tasks && s.tasks[pid].key == key && !Harmless(s.tasks[pid]);
      TaskReturns(u, s, shown, pid);
    }
  }
}
