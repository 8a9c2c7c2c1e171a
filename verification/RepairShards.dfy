/** Self-healing repair of one blob: classify the anchor's shards, borrow from peers up to k when too few
    survive, decode, re-encode, rewrite the bad shards, report.
  */
module RepairShards {
  import opened Prelude
  import opened Domain
  import opened Stores
  import opened ErasureCoder
  import opened Put = PutBackup
  import opened Get = GetBackup

  datatype RepairReport = RepairReport(
    blobId: BlobId, checked: nat, healthy: nat, repaired: nat, stillBad: nat, unrepairable: bool)

  // ---- What a repair may do and what it achieves ----

  /** The only changes are codeword shards of this blob written at their own index. */
  ghost predicate OnlyCodewordWrites(
    before: map<ShardRef, Bytes>, after: map<ShardRef, Bytes>, ns: NamespaceId, blob: BlobId, codeword: seq<Bytes>)
  {
    && before.Keys <= after.Keys
    && forall at :: at in after && !(at in before && before[at] == after[at]) ==>
         OwnShard(at, ns, blob, |codeword|) && after[at] == codeword[at.index]
  }

  /** One offer of the shard to each recorded peer, in order. */
  function Offers(accepts: (Peer, ShardRef) -> bool, at: ShardRef, bytes: Bytes, locations: seq<ShardLocation>)
    : seq<Delivery>
  {
    if locations == [] then []
    else
      var last := |locations| - 1;
      Offers(accepts, at, bytes, locations[..last])
      + (match locations[last]
         case Peer(p) => [Delivery(p, at, bytes, accepts(p, at))]
         case Anchor => [])
  }

  /** The offers go to the recorded peers and to nobody else. */
  lemma {:induction false} OffersOf(
    accepts: (Peer, ShardRef) -> bool, at: ShardRef, bytes: Bytes, locations: seq<ShardLocation>)
    ensures forall d :: d in Offers(accepts, at, bytes, locations) <==>
      Peer(d.peer) in locations && d == Delivery(d.peer, at, bytes, accepts(d.peer, at))
  {
    if locations != [] {
      var front, last := locations[..|locations| - 1], locations[|locations| - 1];
      OffersOf(accepts, at, bytes, front);
      assert locations == front + [last];
    }
  }

  /** A shard listed the way a put lists it is offered to those peers once each, in order. */
  lemma {:induction false} OffersInOrder(
    accepts: (Peer, ShardRef) -> bool, at: ShardRef, bytes: Bytes, peers: seq<Peer>)
    ensures Offers(accepts, at, bytes, [Anchor] + AsPeers(peers))
         == Push(peers, accepts, at, bytes)
  {
    var locations := [Anchor] + AsPeers(peers);
    if peers == [] {
      assert locations[..0] == [];
    } else {
      var front := peers[..|peers| - 1];
      OffersInOrder(accepts, at, bytes, front);
      assert locations[..|peers|] == [Anchor] + AsPeers(front);
    }
  }

  /** The offers of the bad shards below `count`, in index order. */
  function RepairPushes(
    accepts: (Peer, ShardRef) -> bool, ns: NamespaceId, blob: BlobId, m: Manifest, codeword: seq<Bytes>,
    bad: set<nat>, count: nat): seq<Delivery>
    requires count <= |m.shards| == |codeword|
  {
    if count == 0 then []
    else
      var i := count - 1;
      RepairPushes(accepts, ns, blob, m, codeword, bad, i)
      + if i in bad then Offers(accepts, ShardRef(ns, blob, i), codeword[i], m.shards[i].locations) else []
  }

  /** What is offered: each bad shard's own bytes, to exactly the peers recorded for it. */
  lemma {:induction false} RepairPushesOf(
    accepts: (Peer, ShardRef) -> bool, ns: NamespaceId, blob: BlobId, m: Manifest, codeword: seq<Bytes>,
    bad: set<nat>, count: nat)
    requires count <= |m.shards| == |codeword|
    ensures forall d :: d in RepairPushes(accepts, ns, blob, m, codeword, bad, count) <==>
      var at, i := d.at, d.at.index;
      && OwnShard(at, ns, blob, count) && i in bad
      && Peer(d.peer) in m.shards[i].locations && d == Delivery(d.peer, at, codeword[i], accepts(d.peer, at))
  {
    if count > 0 {
      var i := count - 1;
      RepairPushesOf(accepts, ns, blob, m, codeword, bad, i);
      OffersOf(accepts, ShardRef(ns, blob, i), codeword[i], m.shards[i].locations);
      hide Offers;
    }
  }

  lemma {:induction false} RepairPushesPrefix(
    accepts: (Peer, ShardRef) -> bool, ns: NamespaceId, blob: BlobId, m: Manifest, codeword: seq<Bytes>,
    bad: set<nat>, count: nat)
    requires count <= |m.shards| == |codeword|
    ensures RepairPushes(accepts, ns, blob, m, codeword, bad, count)
         <= RepairPushes(accepts, ns, blob, m, codeword, bad, |m.shards|)
    decreases |m.shards| - count
  {
    if count < |m.shards| {
      RepairPushesPrefix(accepts, ns, blob, m, codeword, bad, count + 1);
    }
  }

  lemma {:induction false} NothingBad(
    accepts: (Peer, ShardRef) -> bool, ns: NamespaceId, blob: BlobId, m: Manifest, codeword: seq<Bytes>, count: nat)
    requires count <= |m.shards| == |codeword|
    ensures RepairPushes(accepts, ns, blob, m, codeword, {}, count) == []
  {
    if count > 0 {
      NothingBad(accepts, ns, blob, m, codeword, count - 1);
    }
  }

  /** The bad shards below `count` have been offered, and nothing else was pushed. */
  ghost predicate Offered(
    meshed: bool, accepts: (Peer, ShardRef) -> bool, ns: NamespaceId, blob: BlobId, m: Manifest, codeword: seq<Bytes>,
    bad: set<nat>, count: nat, before: seq<Delivery>, after: seq<Delivery>)
    requires count <= |m.shards| == |codeword|
  {
    after == before + if meshed then RepairPushes(accepts, ns, blob, m, codeword, bad, count) else []
  }

  lemma OfferedStep(
    meshed: bool, accepts: (Peer, ShardRef) -> bool, ns: NamespaceId, blob: BlobId, m: Manifest, codeword: seq<Bytes>,
    bad: set<nat>, i: nat, before: seq<Delivery>, sent: seq<Delivery>)
    requires i < |m.shards| == |codeword| && Offered(meshed, accepts, ns, blob, m, codeword, bad, i, before, sent)
    ensures
      var offers := if meshed then Offers(accepts, ShardRef(ns, blob, i), codeword[i], m.shards[i].locations) else [];
      && (i in bad ==> Offered(meshed, accepts, ns, blob, m, codeword, bad, i + 1, before, sent + offers))
      && (i !in bad ==> Offered(meshed, accepts, ns, blob, m, codeword, bad, i + 1, before, sent))
  {
    hide Offers;
  }

  /** What a repair pushed: every shard found bad to every peer recorded for it, or a prefix of that when the anchor
      failed midway. */
  ghost predicate Spread(
    meshed: bool, accepts: (Peer, ShardRef) -> bool, h: Hash, objects: map<ShardRef, Bytes>, ns: NamespaceId,
    blob: BlobId, m: Manifest, codeword: seq<Bytes>, before: seq<Delivery>, after: seq<Delivery>, complete: bool)
    requires |m.shards| == |codeword|
  {
    var bad := Upto(|m.shards|) - Healthy(h, objects, ns, blob, m);
    var pushes := if meshed then RepairPushes(accepts, ns, blob, m, codeword, bad, |m.shards|) else [];
    before <= after <= before + pushes && (complete ==> after == before + pushes)
  }

  lemma OfferedSpread(
    meshed: bool, accepts: (Peer, ShardRef) -> bool, h: Hash, objects: map<ShardRef, Bytes>, ns: NamespaceId,
    blob: BlobId, m: Manifest, codeword: seq<Bytes>, slots: seq<Option<Bytes>>, bad: seq<nat>, count: nat,
    before: seq<Delivery>, after: seq<Delivery>)
    requires count <= |slots| == |m.shards| == |codeword|
    requires Positional(m) && Classified(h, objects, ns, blob, m, slots, bad)
    requires Offered(meshed, accepts, ns, blob, m, codeword, SetOf(bad), count, before, after)
    ensures Spread(meshed, accepts, h, objects, ns, blob, m, codeword, before, after, count == |m.shards|)
  {
    BadIsUnhealthy(h, objects, ns, blob, m, slots, bad);
    RepairPushesPrefix(accepts, ns, blob, m, codeword, SetOf(bad), count);
    hide Classified, Healthy, RepairPushes, SetOf, Positional;
  }

  lemma NothingSpread(
    meshed: bool, accepts: (Peer, ShardRef) -> bool, h: Hash, objects: map<ShardRef, Bytes>, ns: NamespaceId,
    blob: BlobId, m: Manifest, codeword: seq<Bytes>, sent: seq<Delivery>)
    requires |m.shards| == |codeword|
    ensures Spread(meshed, accepts, h, objects, ns, blob, m, codeword, sent, sent, false)
    ensures |Healthy(h, objects, ns, blob, m)| == |m.shards| ==>
      Spread(meshed, accepts, h, objects, ns, blob, m, codeword, sent, sent, true)
  {
    hide RepairPushes;
    var healthy, n := Healthy(h, objects, ns, blob, m), |m.shards|;
    if |healthy| == n {
      FullSubset(healthy, Upto(n));
      hide Healthy;
      assert Upto(n) - healthy == {};
      NothingBad(accepts, ns, blob, m, codeword, n);
    }
    assert sent + [] == sent;
  }

  function SetOf(bad: seq<nat>): set<nat> { set i | i in bad }

  lemma BadIsUnhealthy(
    h: Hash, objects: map<ShardRef, Bytes>, ns: NamespaceId, blob: BlobId, m: Manifest,
    slots: seq<Option<Bytes>>, bad: seq<nat>)
    requires Positional(m) && |slots| == |m.shards| && Classified(h, objects, ns, blob, m, slots, bad)
    ensures SetOf(bad) == Upto(|m.shards|) - Healthy(h, objects, ns, blob, m)
  {
    HealthyCount(h, objects, ns, blob, m, slots, bad);
    hide Classified, Healthy;
  }

  /** The outcome of a completed pass: nothing touched and `unrepairable` when fewer than k indices have
      a valid copy; otherwise every shard valid. */
  ghost predicate Outcome(
    h: Hash, replies: Replies, ns: NamespaceId, blob: BlobId, m: Manifest,
    before: map<ShardRef, Bytes>, after: map<ShardRef, Bytes>, sent: seq<Delivery>, sent': seq<Delivery>,
    report: RepairReport)
  {
    var n := |m.shards|;
    var healthy := |Healthy(h, before, ns, blob, m)|;
    if |Sources(h, before, replies, ns, blob, m)| < m.erasure.k then
      after == before && sent' == sent && report == RepairReport(blob, n, healthy, 0, n - healthy, true)
    else
      && Healthy(h, after, ns, blob, m) == Upto(n)
      && report == RepairReport(blob, n, n, n - healthy, 0, false)
  }

  /** `bad` names exactly the empty slots. */
  ghost predicate Holes(slots: seq<Option<Bytes>>, bad: seq<nat>) {
    forall i :: 0 <= i < |slots| ==> (slots[i].None? <==> i in bad)
  }

  /** The slots read so far and the indices found bad. */
  ghost predicate Classified(
    h: Hash, objects: map<ShardRef, Bytes>, ns: NamespaceId, blob: BlobId, m: Manifest,
    slots: seq<Option<Bytes>>, bad: seq<nat>)
  {
    && |slots| <= |m.shards|
    && |bad| + CountSome(slots) == |slots|
    && (forall i :: i in bad ==> i < |slots|)
    && Holes(slots, bad)
    && forall i :: 0 <= i < |slots| ==>
         && (slots[i].Some? <==> AnchorCopy(h, objects, ShardRef(ns, blob, i), m.shards[i]))
         && (slots[i].Some? ==> h(slots[i].value) == m.shards[i].sha256)
         && (slots[i].Some? ==> slots[i].value == objects[ShardRef(ns, blob, i)])
  }

  lemma ClassifiedSnoc(
    h: Hash, objects: map<ShardRef, Bytes>, ns: NamespaceId, blob: BlobId, m: Manifest,
    slots: seq<Option<Bytes>>, bad: seq<nat>)
    requires |slots| < |m.shards| && Classified(h, objects, ns, blob, m, slots, bad)
    ensures
      var at, shard := ShardRef(ns, blob, |slots|), m.shards[|slots|];
      if AnchorCopy(h, objects, at, shard)
      then Classified(h, objects, ns, blob, m, slots + [Some(objects[at])], bad)
      else Classified(h, objects, ns, blob, m, slots + [None], bad + [|slots|])
  {
    var at := ShardRef(ns, blob, |slots|);
    var next: Option<Bytes> := if AnchorCopy(h, objects, at, m.shards[|slots|]) then Some(objects[at]) else None;
    CountSomeSnoc(slots, next);
    hide CountSome;
    forall i | 0 <= i < |slots|
      ensures (slots + [next])[i] == slots[i]
    {}
  }

  ghost predicate Positional(m: Manifest) {
    forall i :: 0 <= i < |m.shards| ==> m.shards[i].index == i
  }

  class RepairShards {
    const metadata: MemoryMetadataStore
    const anchor: BlobAnchor
    const coder: Coder
    const h: Hash
    const meshed: bool
    const transport: ShardTransport

    constructor (metadata: MemoryMetadataStore, anchor: BlobAnchor, coder: Coder, h: Hash,
      meshed: bool, transport: ShardTransport)
      ensures this.metadata == metadata && this.anchor == anchor && this.coder == coder && this.h == h
      ensures this.meshed == meshed && this.transport == transport
    {
      this.metadata, this.anchor, this.coder, this.h := metadata, anchor, coder, h;
      this.meshed, this.transport := meshed, transport;
    }

    function Mesh(): Replies { if meshed then Some(transport.fetches) else None }

    method Classify(ns: NamespaceId, blobId: BlobId, m: Manifest)
      returns (r: PortResult<(seq<Option<Bytes>>, seq<nat>)>)
      requires Positional(m)
      ensures r.Ok? ==> |r.value.0| == |m.shards| && Classified(h, anchor.objects, ns, blobId, m, r.value.0, r.value.1)
      ensures r.Err? ==> r == Err(Backend) && !anchor.reliable
    {
      var collected: seq<Option<Bytes>> := [];
      var bad: seq<nat> := [];
      for i := 0 to |m.shards|
        invariant |collected| == i && Classified(h, anchor.objects, ns, blobId, m, collected, bad)
      {
        var shard := m.shards[i];
        var r := anchor.GetShard(ShardRef(ns, blobId, shard.index));
        ClassifiedSnoc(h, anchor.objects, ns, blobId, m, collected, bad);
        hide Classified;
        if r.Ok? && h(r.value) == shard.sha256 {
          collected := collected + [Some(r.value)];
        } else if r.Ok? || r.error == NotFound {
          collected := collected + [None];
          bad := bad + [shard.index];
        } else {
          return Err(r.error);
        }
      }
      return Ok((collected, bad));
    }

    /** The first recorded peer with a valid copy of one shard. */
    method Borrow(at: ShardRef, shard: Shard) returns (r: Option<Bytes>)
      ensures r.Some? ==> h(r.value) == shard.sha256 && CameFrom(map[], Mesh(), at, r.value)
      ensures r.Some? <==> PeerCopy(h, Mesh(), at, shard)
    {
      if meshed {
        for j := 0 to |shard.locations|
          invariant forall i :: 0 <= i < j ==> !ValidReply(h, Mesh(), at, shard, shard.locations[i])
        {
          if shard.locations[j].Peer? {
            var reply := transport.FetchShard(shard.locations[j].addr, at);
            if reply.Ok? && h(reply.value) == shard.sha256 {
              assert ValidReply(h, Mesh(), at, shard, shard.locations[j]);
              return Some(reply.value);
            }
          }
        }
      }
      return None;
    }

    /** Fill the bad slots from peers, stopping as soon as k are present. */
    method BackfillFromPeers(ns: NamespaceId, blobId: BlobId, m: Manifest, slots: seq<Option<Bytes>>, bad: seq<nat>)
      returns (collected: seq<Option<Bytes>>, filled: nat)
      requires Positional(m) && Gated(h, anchor.objects, Mesh(), ns, blobId, m, slots)
      requires Holes(slots, bad)
      ensures Gated(h, anchor.objects, Mesh(), ns, blobId, m, collected)
      ensures filled == CountSome(collected) - CountSome(slots)
      ensures forall i :: 0 <= i < |slots| ==>
        (slots[i].Some? ==> collected[i].Some?) &&
        (collected[i].Some? ==> slots[i].Some? || PeerCopy(h, Mesh(), ShardRef(ns, blobId, i), m.shards[i]))
      ensures CountSome(collected) < m.erasure.k ==> forall i :: 0 <= i < |slots| ==>
        (PeerCopy(h, Mesh(), ShardRef(ns, blobId, i), m.shards[i]) ==> collected[i].Some?)
    {
      var available := CountSome(slots);
      collected, filled := slots, 0;
      if !meshed {
        return;
      }
      var p := 0;
      while p < |m.shards| && available < m.erasure.k
        invariant 0 <= p <= |m.shards|
        invariant Gated(h, anchor.objects, Mesh(), ns, blobId, m, collected)
        invariant available == CountSome(collected) == CountSome(slots) + filled
        invariant forall i :: p <= i < |slots| ==> collected[i] == slots[i]
        invariant forall i :: 0 <= i < p ==>
          (slots[i].Some? ==> collected[i].Some?) &&
          (collected[i].Some? ==> slots[i].Some? || PeerCopy(h, Mesh(), ShardRef(ns, blobId, i), m.shards[i])) &&
          (PeerCopy(h, Mesh(), ShardRef(ns, blobId, i), m.shards[i]) ==> collected[i].Some?)
      {
        var shard := m.shards[p];
        if shard.index in bad {
          var borrowed := Borrow(ShardRef(ns, blobId, shard.index), shard);
          if borrowed.Some? {
            CountSomeFill(collected, shard.index, borrowed.value);
            collected := collected[shard.index := borrowed];
            available := available + 1;
            filled := filled + 1;
          }
        }
        p := p + 1;
      }
    }

    /** Offer a repaired shard to the peers recorded for it. */
    method ReReplicate(at: ShardRef, bytes: Bytes, shard: Shard)
      modifies transport`sent
      ensures transport.sent
           == old(transport.sent) + if meshed then Offers(transport.accepts, at, bytes, shard.locations) else []
    {
      if !meshed {
        return;
      }
      for j := 0 to |shard.locations|
        invariant transport.sent
               == old(transport.sent) + Offers(transport.accepts, at, bytes, shard.locations[..j])
      {
        assert shard.locations[..j + 1][..j] == shard.locations[..j];
        if shard.locations[j].Peer? {
          var _ := transport.SendShard(shard.locations[j].addr, at, bytes);
        }
      }
      assert shard.locations[..|shard.locations|] == shard.locations;
    }

    /** Rewrite the bad shards from the new encoding. */
    method Rewrite(ns: NamespaceId, blobId: BlobId, m: Manifest, bad: seq<nat>, renewed: seq<Bytes>,
      ghost slots: seq<Option<Bytes>>) returns (r: PortResult<nat>, ghost count: nat)
      requires Positional(m) && |renewed| == |m.shards| == |slots|
      requires Holes(slots, bad)
      modifies anchor`objects, transport`sent
      ensures OnlyCodewordWrites(old(anchor.objects), anchor.objects, ns, blobId, renewed)
      ensures count <= |m.shards| && (r.Ok? ==> count == |m.shards|)
      ensures Offered(meshed, transport.accepts, ns, blobId, m, renewed, SetOf(bad), count,
        old(transport.sent), transport.sent)
      ensures r.Ok? ==> Rewritten(old(anchor.objects), anchor.objects, ns, blobId, bad, renewed, |renewed|)
      ensures r.Ok? ==> r.value + CountSome(slots) == |slots|
      ensures r.Err? ==> r == Err(Backend) && !anchor.reliable
    {
      hide *;
      var repaired: nat := 0;
      RewriteStart(meshed, transport.accepts, anchor.objects, transport.sent, ns, blobId, m, bad, renewed, slots);
      for p := 0 to |m.shards|
        invariant Rewritten(old(anchor.objects), anchor.objects, ns, blobId, bad, renewed, p)
        invariant OnlyCodewordWrites(old(anchor.objects), anchor.objects, ns, blobId, renewed)
        invariant Offered(meshed, transport.accepts, ns, blobId, m, renewed, SetOf(bad), p,
          old(transport.sent), transport.sent)
        invariant repaired + CountSome(slots[..p]) == p
      {
        var shard := m.shards[p];
        RewriteAt(ns, blobId, m, bad, slots, p);
        RewrittenStep(old(anchor.objects), anchor.objects, ns, blobId, bad, renewed, p);
        OfferedStep(meshed, transport.accepts, ns, blobId, m, renewed, SetOf(bad), p, old(transport.sent),
          transport.sent);
        if shard.index in bad {
          var bytes := renewed[shard.index];
          var at := ShardRef(ns, blobId, shard.index);
          var put := anchor.PutShard(at, bytes);
          if put.Err? {
            return Err(put.error), p;
          }
          ReReplicate(at, bytes, shard);
          repaired := repaired + 1;
        }
      }
      assert slots[..|slots|] == slots;
      return Ok(repaired), |m.shards|;
    }

    /** Inspect and repair one blob. Whatever happens, even a failure midway, only codeword shards are
        written, each at its own index; a completed pass has exactly the stated outcome. */
    method Execute(ns: NamespaceId, blobId: BlobId, ghost data: Bytes, ghost codeword: seq<Bytes>)
      returns (r: PortResult<RepairReport>)
      requires (ns, blobId) in metadata.manifests ==>
        && Stored(h, coder, metadata.manifests[(ns, blobId)], data, codeword)
        && NoForgery(h, codeword, anchor.objects, Mesh(), ns, blobId)
      modifies anchor`objects, transport`sent
      ensures OnlyCodewordWrites(old(anchor.objects), anchor.objects, ns, blobId, codeword)
      ensures (ns, blobId) !in metadata.manifests ==>
        r == Err(NotFound) && anchor.objects == old(anchor.objects) && transport.sent == old(transport.sent)
      ensures (ns, blobId) in metadata.manifests ==>
        && (r.Ok? ==> Outcome(h, Mesh(), ns, blobId, metadata.manifests[(ns, blobId)],
                              old(anchor.objects), anchor.objects, old(transport.sent), transport.sent, r.value))
        && |metadata.manifests[(ns, blobId)].shards| == |codeword|
        && Spread(meshed, transport.accepts, h, old(anchor.objects), ns, blobId, metadata.manifests[(ns, blobId)],
             codeword, old(transport.sent), transport.sent, r.Ok? && !r.value.unrepairable)
        && (r.Err? ==> r == Err(Backend) && !anchor.reliable)
    {
      var found := metadata.GetManifest(ns, blobId);
      if found.None? {
        return Err(NotFound);
      }
      r := RepairManifest(ns, blobId, found.value, data, codeword);
    }

    method RepairManifest(ns: NamespaceId, blobId: BlobId, m: Manifest, ghost data: Bytes, ghost codeword: seq<Bytes>)
      returns (r: PortResult<RepairReport>)
      requires Stored(h, coder, m, data, codeword) && NoForgery(h, codeword, anchor.objects, Mesh(), ns, blobId)
      modifies anchor`objects, transport`sent
      ensures OnlyCodewordWrites(old(anchor.objects), anchor.objects, ns, blobId, codeword)
      ensures r.Ok? ==>
        Outcome(h, Mesh(), ns, blobId, m, old(anchor.objects), anchor.objects, old(transport.sent), transport.sent,
          r.value)
      ensures |m.shards| == |codeword|
      ensures Spread(meshed, transport.accepts, h, old(anchor.objects), ns, blobId, m, codeword,
        old(transport.sent), transport.sent, r.Ok? && !r.value.unrepairable)
      ensures r.Err? ==> r == Err(Backend) && !anchor.reliable
    {
      ghost var before, sent := anchor.objects, transport.sent;
      StoredShape(h, coder, m, data, codeword);
      CodewordUnchanged(before, ns, blobId, codeword);
      NothingSpread(meshed, transport.accepts, h, before, ns, blobId, m, codeword, sent);
      hide *;
      var gathered := Gather(ns, blobId, m);
      if gathered.Err? {
        return Err(gathered.error);
      }
      var (slots, bad, collected) := gathered.value;
      HealthyCount(h, before, ns, blobId, m, slots, bad);
      var checked := |m.shards|;
      var healthy := checked - |bad|;
      if bad == [] {
        var report := RepairReport(blobId, checked, healthy, 0, 0, false);
        OutcomeHealthy(h, Mesh(), ns, blobId, m, before, sent, report);
        return Ok(report);
      }
      var available := CountSome(collected);
      if !m.IsReconstructable(available) {
        var report := RepairReport(blobId, checked, healthy, 0, |bad|, true);
        OutcomeUnrepairable(h, Mesh(), ns, blobId, m, before, sent, available, report);
        return Ok(report);
      }
      r := Heal(ns, blobId, m, data, codeword, slots, bad, collected);
    }

    /** Decode the data, encode it again, rewrite what was bad. */
    method Heal(ns: NamespaceId, blobId: BlobId, m: Manifest, ghost data: Bytes, ghost codeword: seq<Bytes>,
      ghost slots: seq<Option<Bytes>>, bad: seq<nat>, collected: seq<Option<Bytes>>)
      returns (r: PortResult<RepairReport>)
      requires Stored(h, coder, m, data, codeword) && NoForgery(h, codeword, anchor.objects, Mesh(), ns, blobId)
      requires |slots| == |m.shards| && Classified(h, anchor.objects, ns, blobId, m, slots, bad)
      requires Gated(h, anchor.objects, Mesh(), ns, blobId, m, collected) && CountSome(collected) >= m.erasure.k
      requires |Sources(h, anchor.objects, Mesh(), ns, blobId, m)| >= m.erasure.k
      modifies anchor`objects, transport`sent
      ensures OnlyCodewordWrites(old(anchor.objects), anchor.objects, ns, blobId, codeword)
      ensures r.Ok? ==>
        Outcome(h, Mesh(), ns, blobId, m, old(anchor.objects), anchor.objects, old(transport.sent), transport.sent,
          r.value)
      ensures r.Ok? ==> !r.value.unrepairable
      ensures |m.shards| == |codeword|
      ensures Spread(meshed, transport.accepts, h, old(anchor.objects), ns, blobId, m, codeword,
        old(transport.sent), transport.sent, r.Ok?)
      ensures r.Err? ==> r == Err(Backend) && !anchor.reliable
    {
      StoredShape(h, coder, m, data, codeword);
      TalliedHoles(h, anchor.objects, ns, blobId, m, slots, bad);
      ghost var before, sent := anchor.objects, transport.sent;
      hide *;
      var renewed := Renew(ns, blobId, m, data, codeword, collected);
      var rewritten, count := Rewrite(ns, blobId, m, bad, renewed, slots);
      OfferedSpread(meshed, transport.accepts, h, before, ns, blobId, m, codeword, slots, bad, count, sent,
        transport.sent);
      match rewritten
      case Err(e) => return Err(e);
      case Ok(repaired) =>
        var healthy := |m.shards| - |bad|;
        HealedOutcome(h, coder, Mesh(), before, anchor.objects, sent, transport.sent, ns, blobId, m, data, codeword,
          slots, bad, repaired);
        return Ok(RepairReport(blobId, |m.shards|, healthy + repaired, repaired, 0, false));
    }

    /** Any k valid shards give the data, whose encoding is the stored one. */
    method Renew(ns: NamespaceId, blobId: BlobId, m: Manifest, ghost data: Bytes, ghost codeword: seq<Bytes>,
      collected: seq<Option<Bytes>>) returns (renewed: seq<Bytes>)
      requires Stored(h, coder, m, data, codeword) && NoForgery(h, codeword, anchor.objects, Mesh(), ns, blobId)
      requires Gated(h, anchor.objects, Mesh(), ns, blobId, m, collected) && CountSome(collected) >= m.erasure.k
      ensures renewed == codeword
    {
      StoredShape(h, coder, m, data, codeword);
      GatedSlots(h, coder, anchor.objects, Mesh(), ns, blobId, m, data, codeword, collected);
      hide *;
      var decoded := Decode(coder, collected, m.erasure, m.ciphertextLen);
      var encoded := Encode(coder, decoded.value, m.erasure);
      return encoded.value;
    }

    /** Classify, then borrow from peers when fewer than k survive on the anchor. */
    method Gather(ns: NamespaceId, blobId: BlobId, m: Manifest)
      returns (r: PortResult<(seq<Option<Bytes>>, seq<nat>, seq<Option<Bytes>>)>)
      requires Positional(m)
      ensures r.Err? ==> r == Err(Backend) && !anchor.reliable
      ensures r.Ok? ==>
        var (slots, bad, collected) := r.value;
        && |slots| == |m.shards| && Classified(h, anchor.objects, ns, blobId, m, slots, bad)
        && Gated(h, anchor.objects, Mesh(), ns, blobId, m, collected)
        && (CountSome(collected) >= m.erasure.k
            <==> |Sources(h, anchor.objects, Mesh(), ns, blobId, m)| >= m.erasure.k)
    {
      var classified := Classify(ns, blobId, m);
      if classified.Err? {
        return Err(classified.error);
      }
      var (slots, bad) := classified.value;
      HealthyCount(h, anchor.objects, ns, blobId, m, slots, bad);
      ClassifiedGated(h, anchor.objects, Mesh(), ns, blobId, m, slots, bad);
      var collected := slots;
      if !m.IsReconstructable(|m.shards| - |bad|) {
        var filled;
        collected, filled := BackfillFromPeers(ns, blobId, m, slots, bad);
      }
      EnoughIffSources(h, Mesh(), anchor.objects, ns, blobId, m, slots, bad, collected);
      return Ok((slots, bad, collected));
    }
  }

  /** The anchor with the bad shards below `count` replaced. */
  ghost predicate Rewritten(
    before: map<ShardRef, Bytes>, after: map<ShardRef, Bytes>, ns: NamespaceId, blob: BlobId,
    bad: seq<nat>, renewed: seq<Bytes>, count: nat)
    requires count <= |renewed|
  {
    && (forall at :: at in after <==> at in before || (OwnShard(at, ns, blob, count) && at.index in bad))
    && (forall at :: at in after ==>
          after[at] == if OwnShard(at, ns, blob, count) && at.index in bad then renewed[at.index] else before[at])
  }

  lemma RewriteStart(
    meshed: bool, accepts: (Peer, ShardRef) -> bool, objects: map<ShardRef, Bytes>, sent: seq<Delivery>,
    ns: NamespaceId, blob: BlobId, m: Manifest, bad: seq<nat>, renewed: seq<Bytes>, slots: seq<Option<Bytes>>)
    requires |m.shards| == |renewed|
    ensures Offered(meshed, accepts, ns, blob, m, renewed, SetOf(bad), 0, sent, sent)
    ensures Rewritten(objects, objects, ns, blob, bad, renewed, 0)
    ensures OnlyCodewordWrites(objects, objects, ns, blob, renewed)
    ensures CountSome(slots[..0]) == 0
  {}

  lemma RewriteAt(
    ns: NamespaceId, blob: BlobId, m: Manifest, bad: seq<nat>, slots: seq<Option<Bytes>>, p: nat)
    requires Positional(m) && Holes(slots, bad) && p < |m.shards| == |slots|
    ensures m.shards[p].index == p && OwnShard(ShardRef(ns, blob, p), ns, blob, |m.shards|)
    ensures p in SetOf(bad) <==> p in bad
    ensures CountSome(slots[..p + 1]) == CountSome(slots[..p]) + if p in bad then 0 else 1
  {
    assert slots[..p + 1] == slots[..p] + [slots[p]];
    CountSomeSnoc(slots[..p], slots[p]);
  }

  lemma RewrittenStep(
    before: map<ShardRef, Bytes>, mid: map<ShardRef, Bytes>, ns: NamespaceId, blob: BlobId,
    bad: seq<nat>, renewed: seq<Bytes>, p: nat)
    requires p < |renewed| && Rewritten(before, mid, ns, blob, bad, renewed, p)
    ensures p in bad ==> Rewritten(before, mid[ShardRef(ns, blob, p) := renewed[p]], ns, blob, bad, renewed, p + 1)
    ensures p !in bad ==> Rewritten(before, mid, ns, blob, bad, renewed, p + 1)
    ensures OnlyCodewordWrites(before, mid, ns, blob, renewed)
    ensures OnlyCodewordWrites(before, mid[ShardRef(ns, blob, p) := renewed[p]], ns, blob, renewed)
  {
    var at := ShardRef(ns, blob, p);
    forall a: ShardRef
      ensures OwnShard(a, ns, blob, p + 1) <==> OwnShard(a, ns, blob, p) || a == at
    {}
    assert !OwnShard(at, ns, blob, p);
    assert OwnShard(at, ns, blob, |renewed|);
    assert forall a :: OwnShard(a, ns, blob, p) ==> OwnShard(a, ns, blob, |renewed|);
    hide OwnShard;
  }

  // ---- Why the outcome holds ----

  lemma StoredShape(h: Hash, coder: Coder, m: Manifest, data: Bytes, codeword: seq<Bytes>)
    requires Stored(h, coder, m, data, codeword)
    ensures Positional(m) && |codeword| == |m.shards| && m.erasure.WellFormed() && m.erasure.k <= |m.shards|
    ensures Encoded(coder, data, m.erasure) == Ok(codeword)
    ensures forall a: nat :: m.IsReconstructable(a) <==> a >= m.erasure.k
  {}

  lemma HealthyCount(
    h: Hash, objects: map<ShardRef, Bytes>, ns: NamespaceId, blob: BlobId, m: Manifest,
    slots: seq<Option<Bytes>>, bad: seq<nat>)
    requires Positional(m) && |slots| == |m.shards| && Classified(h, objects, ns, blob, m, slots, bad)
    ensures SomeSet(slots) == Healthy(h, objects, ns, blob, m)
    ensures |m.shards| - |bad| == CountSome(slots) == |Healthy(h, objects, ns, blob, m)|
    ensures Holes(slots, bad)
  {
    CountSomeIsCardinality(slots);
  }

  lemma ClassifiedGated(
    h: Hash, objects: map<ShardRef, Bytes>, replies: Replies, ns: NamespaceId, blob: BlobId, m: Manifest,
    slots: seq<Option<Bytes>>, bad: seq<nat>)
    requires Positional(m) && |slots| == |m.shards| && Classified(h, objects, ns, blob, m, slots, bad)
    ensures Gated(h, objects, replies, ns, blob, m, slots)
  {}

  lemma EnoughIffSources(
    h: Hash, replies: Replies, objects: map<ShardRef, Bytes>, ns: NamespaceId, blob: BlobId, m: Manifest,
    slots: seq<Option<Bytes>>, bad: seq<nat>, collected: seq<Option<Bytes>>)
    requires Positional(m) && |slots| == |m.shards| && Classified(h, objects, ns, blob, m, slots, bad)
    requires |collected| == |slots|
    requires CountSome(slots) >= m.erasure.k ==> collected == slots
    requires forall i :: 0 <= i < |slots| ==>
      (slots[i].Some? ==> collected[i].Some?) &&
      (collected[i].Some? ==> slots[i].Some? || PeerCopy(h, replies, ShardRef(ns, blob, i), m.shards[i]))
    requires CountSome(slots) < m.erasure.k && CountSome(collected) < m.erasure.k ==> forall i :: 0 <= i < |slots| ==>
      (PeerCopy(h, replies, ShardRef(ns, blob, i), m.shards[i]) ==> collected[i].Some?)
    ensures CountSome(collected) >= m.erasure.k <==> |Sources(h, objects, replies, ns, blob, m)| >= m.erasure.k
  {
    var sources := Sources(h, objects, replies, ns, blob, m);
    CountSomeIsCardinality(collected);
    assert SomeSet(collected) <= sources;
    SubsetSize(SomeSet(collected), sources);
    if CountSome(collected) < m.erasure.k {
      assert sources <= SomeSet(collected);
      SubsetSize(sources, SomeSet(collected));
    }
  }

  /** Every slot present is a codeword shard by the gate, so a rewritten blob is entirely valid. */
  lemma RewrittenAllHealthy(
    h: Hash, coder: Coder, before: map<ShardRef, Bytes>, after: map<ShardRef, Bytes>, ns: NamespaceId, blob: BlobId,
    m: Manifest, data: Bytes, codeword: seq<Bytes>, slots: seq<Option<Bytes>>, bad: seq<nat>)
    requires Stored(h, coder, m, data, codeword) && |slots| == |m.shards|
    requires Classified(h, before, ns, blob, m, slots, bad)
    requires Rewritten(before, after, ns, blob, bad, codeword, |codeword|)
    ensures Healthy(h, after, ns, blob, m) == Upto(|m.shards|)
  {
    forall i: nat | i < |m.shards|
      ensures i in Healthy(h, after, ns, blob, m)
    {
      var at := ShardRef(ns, blob, i);
      assert m.shards[i].index == i;
      if i !in bad {
        assert slots[i].Some? && AnchorCopy(h, before, at, m.shards[i]);
      }
    }
  }

  lemma CodewordUnchanged(objects: map<ShardRef, Bytes>, ns: NamespaceId, blob: BlobId, codeword: seq<Bytes>)
    ensures OnlyCodewordWrites(objects, objects, ns, blob, codeword)
  {}

  lemma OutcomeHealthy(
    h: Hash, replies: Replies, ns: NamespaceId, blob: BlobId, m: Manifest,
    objects: map<ShardRef, Bytes>, sent: seq<Delivery>, report: RepairReport)
    requires |Healthy(h, objects, ns, blob, m)| == |m.shards| >= m.erasure.k
    requires report == RepairReport(blob, |m.shards|, |m.shards|, 0, 0, false)
    ensures Outcome(h, replies, ns, blob, m, objects, objects, sent, sent, report)
  {
    var healthy := Healthy(h, objects, ns, blob, m);
    SourcesCoverHealthy(h, replies, objects, ns, blob, m);
    FullSubset(healthy, Upto(|m.shards|));
  }

  lemma OutcomeUnrepairable(
    h: Hash, replies: Replies, ns: NamespaceId, blob: BlobId, m: Manifest,
    objects: map<ShardRef, Bytes>, sent: seq<Delivery>, available: nat, report: RepairReport)
    requires |Sources(h, objects, replies, ns, blob, m)| >= m.erasure.k <==> available >= m.erasure.k
    requires !m.IsReconstructable(available)
    requires var healthy := |Healthy(h, objects, ns, blob, m)|;
      report == RepairReport(blob, |m.shards|, healthy, 0, |m.shards| - healthy, true)
    ensures Outcome(h, replies, ns, blob, m, objects, objects, sent, sent, report)
  {}

  lemma TalliedHoles(
    h: Hash, objects: map<ShardRef, Bytes>, ns: NamespaceId, blob: BlobId, m: Manifest,
    slots: seq<Option<Bytes>>, bad: seq<nat>)
    requires |slots| == |m.shards| && Classified(h, objects, ns, blob, m, slots, bad)
    ensures Holes(slots, bad) && |bad| <= |m.shards|
  {}

  lemma HealedOutcome(
    h: Hash, coder: Coder, replies: Replies, before: map<ShardRef, Bytes>, after: map<ShardRef, Bytes>,
    sent: seq<Delivery>, sent': seq<Delivery>, ns: NamespaceId, blob: BlobId, m: Manifest,
    data: Bytes, codeword: seq<Bytes>, slots: seq<Option<Bytes>>, bad: seq<nat>, repaired: nat)
    requires Stored(h, coder, m, data, codeword) && |slots| == |m.shards|
    requires Classified(h, before, ns, blob, m, slots, bad)
    requires Rewritten(before, after, ns, blob, bad, codeword, |codeword|)
    requires |Sources(h, before, replies, ns, blob, m)| >= m.erasure.k
    requires repaired + CountSome(slots) == |slots| && |bad| <= |m.shards|
    ensures Outcome(h, replies, ns, blob, m, before, after, sent, sent',
      RepairReport(blob, |m.shards|, |m.shards| - |bad| + repaired, repaired, 0, false))
  {
    StoredShape(h, coder, m, data, codeword);
    RewrittenAllHealthy(h, coder, before, after, ns, blob, m, data, codeword, slots, bad);
    HealthyCount(h, before, ns, blob, m, slots, bad);
    hide Stored, Classified, Rewritten, Healthy, Sources, CountSome, Upto, SomeSet;
  }

  lemma SourcesCoverHealthy(
    h: Hash, replies: Replies, objects: map<ShardRef, Bytes>, ns: NamespaceId, blob: BlobId, m: Manifest)
    ensures Healthy(h, objects, ns, blob, m) <= Sources(h, objects, replies, ns, blob, m)
    ensures |Healthy(h, objects, ns, blob, m)| <= |Sources(h, objects, replies, ns, blob, m)|
  {
    SubsetSize(Healthy(h, objects, ns, blob, m), Sources(h, objects, replies, ns, blob, m));
  }
}
