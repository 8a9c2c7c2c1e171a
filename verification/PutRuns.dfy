/** A put followed step by step, for every coder, all parameters and all data: where the example runs of the
    other modules begin.
  */
module PutRuns {
  import opened Prelude
  import opened Domain
  import opened Stores
  import opened ErasureCoder
  import opened Cluster
  import opened ClusterRuns
  import opened ClusterLaws

  /** The blob the run is about. */
  datatype Scene = Scene(u: Setup, key: BlobKey, data: Bytes, params: ErasureParams) {
    predicate Ok() { Supports(u.coder, params) }
    predicate HasParity() { params.k < params.n }

    function Codeword(): (c: seq<Bytes>)
      requires Ok()
      ensures |c| == params.n
    {
      Encoded(u.coder, data, params).value
    }

    /** How many losses the blob tolerates. */
    function Parity(): (b: nat)
      requires Ok()
      ensures b < params.n && b + params.k == params.n
    {
      params.n - params.k
    }

    function Record(): Manifest
      requires Ok()
    {
      Manifest(key.1, key.0, params,
        seq(params.n, i requires 0 <= i < params.n =>
          Shard(i, u.h(Codeword()[i]), |Codeword()[i]| % U32_LIMIT, [Anchor])),
        |data|, 0, None, None)
    }
  }

  // ---- Runs that keep the bound of durability throughout ----

  ghost predicate Bounded(c: Scene, s: State) {
    c.key in s.born ==>
      c.key in s.origins && c.key in s.marks && |Hit(s, c.key, s.marks[c.key])| + c.params.k <= c.params.n
  }

  /** Every state meets the bound, and nothing came in from outside. */
  ghost predicate BoundedRun(c: Scene, events: seq<Event>) {
    && Shown(events) == {}
    && forall i :: 0 <= i <= |events| ==> Bounded(c, After(c.u, events[..i]))
  }

  ghost predicate Reaches(c: Scene, s: State) { exists events :: After(c.u, events) == s && BoundedRun(c, events) }

  lemma BoundedMore(c: Scene, events: seq<Event>, e: Event)
    requires BoundedRun(c, events) && Bounded(c, After(c.u, events + [e])) && ShownBy(e) == {}
    ensures BoundedRun(c, events + [e])
  {
    hide After, Bounded, Shown, ShownBy;
    var longer := events + [e];
    ShownSnoc(longer);
    assert longer[..|events|] == events;
    forall i | 0 <= i <= |longer|
      ensures Bounded(c, After(c.u, longer[..i]))
    {
      if i <= |events| {
        assert longer[..i] == events[..i];
      } else {
        assert longer[..i] == longer;
      }
    }
  }

  lemma ReachesRun(c: Scene, s: State)
    requires Reaches(c, s)
    ensures exists events :: BoundedRun(c, events) && After(c.u, events) == s
  {
    hide After, BoundedRun;
  }

  lemma QuietGates(c: Scene, events: seq<Event>)
    requires BoundedRun(c, events)
    ensures Gates(c.u, events)
  {
    hide After, Shown;
  }

  lemma RunReaches(c: Scene, events: seq<Event>)
    requires BoundedRun(c, events)
    ensures Reaches(c, After(c.u, events))
  {
    hide After, BoundedRun;
  }

  lemma ShowsNothing(e: Event)
    requires e.Fault? ==> e.left.None?
    requires e.OnTask? ==> !e.task.RepairBorrow? && (e.task.RestoreRead? ==> e.task.fetched.None?)
    ensures ShownBy(e) == {}
  {}

  lemma Go(c: Scene, s: State, e: Event, s': State)
    requires Reaches(c, s) && Step(c.u, s, e) == s' && Bounded(c, s')
    requires e.Fault? ==> e.left.None?
    requires e.OnTask? ==> !e.task.RepairBorrow? && (e.task.RestoreRead? ==> e.task.fetched.None?)
    ensures Reaches(c, s')
  {
    hide *;
    ShowsNothing(e);
    ReachesRun(c, s);
    var events :| BoundedRun(c, events) && After(c.u, events) == s;
    AfterMore(c.u, events, e);
    BoundedMore(c, events, e);
    RunReaches(c, events + [e]);
  }

  lemma Start(c: Scene)
    ensures Reaches(c, BLANK)
  {
    hide Step;
    var none: seq<Event> := [];
    assert After(c.u, none) == BLANK;
    assert forall i :: 0 <= i <= |none| ==> none[..i] == none;
    assert BoundedRun(c, none);
  }

  // ---- The states of the run ----

  /** Every place of the blob. */
  function Places(c: Scene): (r: set<ShardRef>)
    ensures forall at: ShardRef :: at in r <==> (at.namespace, at.blobId) == c.key && at.index < c.params.n
  {
    var r := set i: nat | i < c.params.n :: Own(c.key, i);
    assert forall at: ShardRef :: (at.namespace, at.blobId) == c.key ==> at == Own(c.key, at.index);
    r
  }

  /** The codeword on the anchor, but for the missing shards. */
  function Shards(c: Scene, missing: set<nat>): map<ShardRef, Bytes>
    requires c.Ok()
  {
    map at | at in Places(c) && at.index !in missing :: c.Codeword()[at.index]
  }

  /** The indices from lo up to hi. */
  ghost function Range(lo: nat, hi: nat): set<nat> { Upto(hi) - Upto(lo) }

  lemma ShardsPut(c: Scene, missing: set<nat>, i: nat)
    requires c.Ok() && i < c.params.n
    ensures Shards(c, missing)[Own(c.key, i) := c.Codeword()[i]] == Shards(c, missing - {i})
  {
    hide Encoded;
  }

  lemma ShardsLose(c: Scene, missing: set<nat>, i: nat)
    requires c.Ok() && i < c.params.n
    ensures Shards(c, missing) - {Own(c.key, i)} == Shards(c, missing + {i})
  {
    hide Encoded;
  }

  lemma ShardsAt(c: Scene, missing: set<nat>, i: nat)
    requires c.Ok() && i < c.params.n
    ensures Own(c.key, i) in Shards(c, missing) <==> i !in missing
    ensures i !in missing ==> Shards(c, missing)[Own(c.key, i)] == c.Codeword()[i]
  {
    hide Encoded;
  }

  lemma RangeFirst(lo: nat, hi: nat)
    requires lo < hi
    ensures Range(lo, hi) - {lo} == Range(lo + 1, hi)
  {}

  lemma RangeLast(lo: nat, hi: nat)
    requires lo <= hi
    ensures Range(lo, hi) + {hi} == Range(lo, hi + 1) && Range(lo, lo) == {}
  {}

  /** While the put runs. */
  function Putting(
    c: Scene, anchor: map<ShardRef, Bytes>, written: nat, listed: nat, stamp: Option<Timestamp>): State
    requires c.Ok() && listed <= c.params.n
  {
    BLANK.(
      origins := map[c.key := Origin(c.data, c.params, c.Codeword())],
      anchor := anchor,
      uploads := map[c.key := Upload(0, written, [], c.Record().shards[..listed], stamp)])
  }

  /** Published, with the anchor, tasks and mark as given, and the first `hits` shards hit in order. */
  function With(c: Scene, anchor: map<ShardRef, Bytes>, tasks: map<nat, Task>, mark: nat, hits: nat): State
    requires c.Ok()
  {
    State(0, anchor, map[c.key := c.Record()], map[], tasks,
      map[c.key := Origin(c.data, c.params, c.Codeword())], map[c.key := 0], map[c.key := mark], {}, [],
      Struck(c.key, hits))
  }

  function Struck(key: BlobKey, hits: nat): (damage: seq<ShardRef>)
    ensures |damage| == hits && forall i :: 0 <= i < hits ==> damage[i] == Own(key, i)
  {
    seq(hits, i requires 0 <= i < hits => Own(key, i))
  }

  lemma PuttingBounded(
    c: Scene, anchor: map<ShardRef, Bytes>, written: nat, listed: nat, stamp: Option<Timestamp>)
    requires c.Ok() && listed <= c.params.n
    ensures Bounded(c, Putting(c, anchor, written, listed, stamp))
  {
    hide Encoded, Hit;
  }

  lemma RangeSize(lo: nat, hi: nat)
    requires lo <= hi
    ensures |Range(lo, hi)| == hi - lo
  {
    assert Upto(hi) == Upto(lo) + Range(lo, hi);
  }

  /** The shards hit from a point on. */
  lemma HitStruck(
    c: Scene, anchor: map<ShardRef, Bytes>, tasks: map<nat, Task>, mark: nat, hits: nat, since: nat)
    requires c.Ok() && since <= hits <= c.params.n
    ensures c.key in With(c, anchor, tasks, mark, hits).origins
    ensures |Hit(With(c, anchor, tasks, mark, hits), c.key, since)| == hits - since
  {
    hide Encoded;
    var s := With(c, anchor, tasks, mark, hits);
    var tail := s.damage[since..];
    forall i: nat
      ensures i in Hit(s, c.key, since) <==> i in Range(since, hits)
    {
      if since <= i < hits {
        assert tail[i - since] == Own(c.key, i);
      }
    }
    assert Hit(s, c.key, since) == Range(since, hits);
    RangeSize(since, hits);
  }

  lemma WithBounded(c: Scene, anchor: map<ShardRef, Bytes>, tasks: map<nat, Task>, mark: nat, hits: nat)
    requires c.Ok() && mark <= hits <= mark + c.Parity() && hits <= c.params.n
    ensures Bounded(c, With(c, anchor, tasks, mark, hits))
  {
    hide Hit, Encoded;
    HitStruck(c, anchor, tasks, mark, hits, mark);
  }

  // ---- The put ----

  lemma PutBegins(c: Scene)
    requires c.Ok()
    ensures Step(c.u, BLANK, OnUpload(c.key, UploadBegin(c.data, c.params))) == Putting(c, map[], 0, 0, None)
  {
    hide Encoded, BeginStep, TaskStep;
  }

  lemma PutWrites(c: Scene, anchor: map<ShardRef, Bytes>, i: nat)
    requires c.Ok() && i < c.params.n
    ensures Step(c.u, Putting(c, anchor, i, i, None), OnUpload(c.key, UploadWrite))
         == Putting(c, anchor[Own(c.key, i) := c.Codeword()[i]], i + 1, i, None)
  {
    hide Encoded, BeginStep, TaskStep;
  }

  lemma PutLists(c: Scene, anchor: map<ShardRef, Bytes>, i: nat)
    requires c.Ok() && i < c.params.n
    ensures Step(c.u, Putting(c, anchor, i + 1, i, None), OnUpload(c.key, UploadList))
         == Putting(c, anchor, i + 1, i + 1, None)
  {
    hide Encoded, BeginStep, TaskStep;
    assert [Anchor] + AsPeers([]) == [Anchor];
    var all := c.Record().shards;
    assert all[..i + 1] == all[..i] + [all[i]];
  }

  lemma PutEnds(c: Scene, anchor: map<ShardRef, Bytes>)
    requires c.Ok()
    ensures Step(c.u, Putting(c, anchor, c.params.n, c.params.n, None), OnUpload(c.key, UploadStamp))
         == Putting(c, anchor, c.params.n, c.params.n, Some(0))
    ensures Step(c.u, Putting(c, anchor, c.params.n, c.params.n, Some(0)), OnUpload(c.key, UploadPublish))
         == With(c, anchor, map[], 0, 0)
  {
    hide Encoded, BeginStep, TaskStep;
    var s := Putting(c, anchor, c.params.n, c.params.n, Some(0));
    assert s.uploads[c.key].metas == c.Record().shards;
    assert s.uploads - {c.key} == map[];
    assert Struck(c.key, 0) == [];
  }

  lemma {:induction false} WrittenReached(c: Scene, i: nat)
    requires c.Ok() && i <= c.params.n
    ensures Reaches(c, Putting(c, Shards(c, Range(i, c.params.n)), i, i, None))
  {
    hide *;
    var n := c.params.n;
    if i == 0 {
      Start(c);
      PutBegins(c);
      NoShards(c);
      PuttingBounded(c, map[], 0, 0, None);
      Go(c, BLANK, OnUpload(c.key, UploadBegin(c.data, c.params)), Putting(c, map[], 0, 0, None));
    } else {
      var before, after := Shards(c, Range(i - 1, n)), Shards(c, Range(i, n));
      WrittenReached(c, i - 1);
      PutWrites(c, before, i - 1);
      ShardsPut(c, Range(i - 1, n), i - 1);
      RangeFirst(i - 1, n);
      PuttingBounded(c, after, i, i - 1, None);
      Go(c, Putting(c, before, i - 1, i - 1, None), OnUpload(c.key, UploadWrite), Putting(c, after, i, i - 1, None));
      PutLists(c, after, i - 1);
      PuttingBounded(c, after, i, i, None);
      Go(c, Putting(c, after, i, i - 1, None), OnUpload(c.key, UploadList), Putting(c, after, i, i, None));
    }
  }

  lemma NoShards(c: Scene)
    requires c.Ok()
    ensures Shards(c, Range(0, c.params.n)) == map[]
  {
    hide Encoded;
  }

  lemma PublishedReached(c: Scene)
    requires c.Ok()
    ensures Reaches(c, With(c, Shards(c, {}), map[], 0, 0))
  {
    hide *;
    var n, all := c.params.n, Shards(c, {});
    WrittenReached(c, n);
    RangeLast(n, n);
    PutEnds(c, all);
    PuttingBounded(c, all, n, n, Some(0));
    Go(c, Putting(c, all, n, n, None), OnUpload(c.key, UploadStamp), Putting(c, all, n, n, Some(0)));
    ParityBounds(c);
    WithBounded(c, all, map[], 0, 0);
    Go(c, Putting(c, all, n, n, Some(0)), OnUpload(c.key, UploadPublish), With(c, all, map[], 0, 0));
  }

  lemma ParityBounds(c: Scene)
    requires c.Ok()
    ensures c.HasParity() ==> 1 <= c.Parity()
    ensures c.Parity() < c.params.n && c.Parity() + c.params.k == c.params.n && c.params.WellFormed()
  {}
}
