/** Store one already-encrypted blob: quota, encode, the anchor writes, the manifest last. */
module PutBackup {
  import opened Prelude
  import opened Domain
  import opened Stores
  import opened Capability
  import opened ErasureCoder

  /** Everything a stored manifest means: it describes the encoding of `data`. */
  ghost predicate Stored(h: Hash, coder: Coder, m: Manifest, data: Bytes, codeword: seq<Bytes>) {
    && Supports(coder, m.erasure)
    && Encoded(coder, data, m.erasure) == Ok(codeword)
    && Describes(h, m, codeword)
    && m.ciphertextLen == |data|
  }

  /** The anchor with the first `count` shards of the blob written. */
  ghost predicate Wrote(
    before: map<ShardRef, Bytes>, after: map<ShardRef, Bytes>,
    ns: NamespaceId, blob: BlobId, codeword: seq<Bytes>, count: nat)
    requires count <= |codeword|
  {
    && (forall i: nat :: i < count ==> ShardRef(ns, blob, i) in after && after[ShardRef(ns, blob, i)] == codeword[i])
    && (forall at :: at in before && !OwnShard(at, ns, blob, count) ==> at in after && after[at] == before[at])
    && (forall at :: at in after && !OwnShard(at, ns, blob, count) ==> at in before)
  }

  predicate OwnShard(at: ShardRef, ns: NamespaceId, blob: BlobId, count: nat) {
    at.namespace == ns && at.blobId == blob && at.index < count
  }

  /** Every recorded location but the anchor is a peer that accepted exactly this shard. */
  ghost predicate LocationsDelivered(shard: Shard, at: ShardRef, bytes: Bytes, sent: seq<Delivery>) {
    forall j :: 0 <= j < |shard.locations| ==>
      match shard.locations[j]
      case Anchor => true
      case Peer(p) => Delivery(p, at, bytes, true) in sent
  }

  /** What the manifest lists for the shards handled so far. */
  ghost predicate Listed(
    h: Hash, metas: seq<Shard>, ns: NamespaceId, blob: BlobId, codeword: seq<Bytes>, sent: seq<Delivery>)
  {
    && |metas| <= |codeword|
    && forall i :: 0 <= i < |metas| ==>
         && metas[i].index == i
         && metas[i].sha256 == h(codeword[i])
         && metas[i].size == |codeword[i]| % U32_LIMIT
         && LocationsDelivered(metas[i], ShardRef(ns, blob, i), codeword[i], sent)
  }

  lemma ListedSnoc(
    h: Hash, metas: seq<Shard>, ns: NamespaceId, blob: BlobId, codeword: seq<Bytes>,
    sent: seq<Delivery>, later: seq<Delivery>, meta: Shard)
    requires Listed(h, metas, ns, blob, codeword, sent) && |metas| < |codeword| && sent <= later
    requires meta.index == |metas| && meta.sha256 == h(codeword[|metas|])
    requires meta.size == |codeword[|metas|]| % U32_LIMIT
    requires LocationsDelivered(meta, ShardRef(ns, blob, |metas|), codeword[|metas|], later)
    ensures Listed(h, metas + [meta], ns, blob, codeword, later)
  {}

  /** The peers that accept a shard, in order. */
  function Accepting(peers: seq<Peer>, accepts: (Peer, ShardRef) -> bool, at: ShardRef): seq<Peer> {
    if peers == [] then []
    else
      var last := peers[|peers| - 1];
      Accepting(peers[..|peers| - 1], accepts, at) + if accepts(last, at) then [last] else []
  }

  /** Each accepting peer as often as it is configured, and no other. */
  lemma {:induction false} AcceptingPeers(peers: seq<Peer>, accepts: (Peer, ShardRef) -> bool, at: ShardRef, p: Peer)
    ensures multiset(Accepting(peers, accepts, at))[p] == if accepts(p, at) then multiset(peers)[p] else 0
    ensures p in Accepting(peers, accepts, at) <==> p in peers && accepts(p, at)
  {
    if peers != [] {
      var front, last := peers[..|peers| - 1], peers[|peers| - 1];
      AcceptingPeers(front, accepts, at, p);
      assert peers == front + [last];
    }
  }

  /** Each shard is recorded on the anchor and then, when placement is on, on the peers that accepted it. */
  ghost predicate Replicated(
    on: bool, metas: seq<Shard>, peers: seq<Peer>, accepts: (Peer, ShardRef) -> bool, ns: NamespaceId, blob: BlobId)
  {
    forall i :: 0 <= i < |metas| ==>
      metas[i].locations == [Anchor] + AsPeers(if on then Accepting(peers, accepts, ShardRef(ns, blob, i)) else [])
  }

  lemma ReplicatedSnoc(
    on: bool, metas: seq<Shard>, peers: seq<Peer>, accepts: (Peer, ShardRef) -> bool, ns: NamespaceId, blob: BlobId,
    meta: Shard)
    requires Replicated(on, metas, peers, accepts, ns, blob)
    requires meta.locations
          == [Anchor] + AsPeers(if on then Accepting(peers, accepts, ShardRef(ns, blob, |metas|)) else [])
    ensures Replicated(on, metas + [meta], peers, accepts, ns, blob)
  {}

  /** One push of the shard to each peer, in order. */
  function Push(peers: seq<Peer>, accepts: (Peer, ShardRef) -> bool, at: ShardRef, bytes: Bytes): (d: seq<Delivery>)
    ensures |d| == |peers|
    ensures forall j :: 0 <= j < |peers| ==> d[j] == Delivery(peers[j], at, bytes, accepts(peers[j], at))
  {
    seq(|peers|, j requires 0 <= j < |peers| => Delivery(peers[j], at, bytes, accepts(peers[j], at)))
  }

  /** The pushes of the first `count` shards, shard by shard. */
  function Pushes(
    peers: seq<Peer>, accepts: (Peer, ShardRef) -> bool, ns: NamespaceId, blob: BlobId, shards: seq<Bytes>, count: nat)
    : seq<Delivery>
    requires count <= |shards|
  {
    if count == 0 then []
    else
      Pushes(peers, accepts, ns, blob, shards, count - 1)
      + Push(peers, accepts, ShardRef(ns, blob, count - 1), shards[count - 1])
  }

  /** Each shard goes once to each peer, and nothing else goes out. */
  lemma {:induction false} PushAt(
    peers: seq<Peer>, accepts: (Peer, ShardRef) -> bool, ns: NamespaceId, blob: BlobId, shards: seq<Bytes>, count: nat,
    i: nat, j: nat)
    requires i < count <= |shards| && j < |peers|
    ensures
      var pushes, at := Pushes(peers, accepts, ns, blob, shards, count), ShardRef(ns, blob, i);
      && |pushes| == count * |peers| && i * |peers| + j < |pushes|
      && pushes[i * |peers| + j] == Delivery(peers[j], at, shards[i], accepts(peers[j], at))
  {
    var last := count - 1;
    PushesLength(peers, accepts, ns, blob, shards, last);
    SizeStep(last, |peers|);
    if i < last {
      PushAt(peers, accepts, ns, blob, shards, last, i, j);
    }
  }

  lemma {:induction false} PushesLength(
    peers: seq<Peer>, accepts: (Peer, ShardRef) -> bool, ns: NamespaceId, blob: BlobId, shards: seq<Bytes>, count: nat)
    requires count <= |shards|
    ensures |Pushes(peers, accepts, ns, blob, shards, count)| == count * |peers|
  {
    if count > 0 {
      PushesLength(peers, accepts, ns, blob, shards, count - 1);
      SizeStep(count - 1, |peers|);
    }
  }

  lemma {:induction false} PushesPrefix(
    peers: seq<Peer>, accepts: (Peer, ShardRef) -> bool, ns: NamespaceId, blob: BlobId, shards: seq<Bytes>, count: nat)
    requires count <= |shards|
    ensures Pushes(peers, accepts, ns, blob, shards, count) <= Pushes(peers, accepts, ns, blob, shards, |shards|)
    decreases |shards| - count
  {
    if count < |shards| {
      PushesPrefix(peers, accepts, ns, blob, shards, count + 1);
    }
  }

  /** The pushes of the first `count` shards went out, when placement is on. */
  ghost predicate Pushed(
    on: bool, peers: seq<Peer>, accepts: (Peer, ShardRef) -> bool, ns: NamespaceId, blob: BlobId, shards: seq<Bytes>,
    count: nat, before: seq<Delivery>, after: seq<Delivery>)
    requires count <= |shards|
  {
    after == before + if on then Pushes(peers, accepts, ns, blob, shards, count) else []
  }

  /** All pushes of the encoding went out, or when the put did not complete the first of them; and none when
      placement is off or there is no encoding. */
  ghost predicate PushedFor(
    on: bool, peers: seq<Peer>, accepts: (Peer, ShardRef) -> bool, ns: NamespaceId, blob: BlobId,
    encoded: PortResult<seq<Bytes>>, before: seq<Delivery>, after: seq<Delivery>, complete: bool)
  {
    if on && encoded.Ok? then
      var pushes := Pushes(peers, accepts, ns, blob, encoded.value, |encoded.value|);
      before <= after <= before + pushes && (complete ==> after == before + pushes)
    else after == before
  }

  lemma PushedMore(
    on: bool, peers: seq<Peer>, accepts: (Peer, ShardRef) -> bool, ns: NamespaceId, blob: BlobId, shards: seq<Bytes>,
    index: nat, before: seq<Delivery>, mid: seq<Delivery>, after: seq<Delivery>)
    requires index < |shards| && Pushed(on, peers, accepts, ns, blob, shards, index, before, mid)
    requires after == mid + if on then Push(peers, accepts, ShardRef(ns, blob, index), shards[index]) else []
    ensures Pushed(on, peers, accepts, ns, blob, shards, index + 1, before, after) && mid <= after
  {
    hide Push;
  }

  lemma PushedSome(
    on: bool, peers: seq<Peer>, accepts: (Peer, ShardRef) -> bool, ns: NamespaceId, blob: BlobId, shards: seq<Bytes>,
    count: nat, before: seq<Delivery>, after: seq<Delivery>, complete: bool)
    requires count <= |shards| && Pushed(on, peers, accepts, ns, blob, shards, count, before, after)
    requires complete ==> count == |shards|
    ensures PushedFor(on, peers, accepts, ns, blob, Ok(shards), before, after, complete)
  {
    PushesPrefix(peers, accepts, ns, blob, shards, count);
    hide Pushes;
  }

  lemma NothingPushed(
    on: bool, peers: seq<Peer>, accepts: (Peer, ShardRef) -> bool, ns: NamespaceId, blob: BlobId, sent: seq<Delivery>)
    ensures forall encoded :: PushedFor(on, peers, accepts, ns, blob, encoded, sent, sent, false)
  {
    hide Pushes;
  }

  lemma EncodedAnswers(coder: Coder, data: Bytes, params: ErasureParams)
    requires params.WellFormed()
    ensures Encoded(coder, data, params).Ok? <==> Supports(coder, params)
    ensures !Supports(coder, params) ==> Encoded(coder, data, params) == Err(Backend)
  {
    hide RsEncoded;
  }

  ghost predicate OnlyBlobChanged(
    before: map<ShardRef, Bytes>, after: map<ShardRef, Bytes>, ns: NamespaceId, blob: BlobId)
  {
    WithoutBlob(after, ns, blob) == WithoutBlob(before, ns, blob)
  }

  lemma NothingWritten(
    h: Hash, objects: map<ShardRef, Bytes>, ns: NamespaceId, blob: BlobId, shards: seq<Bytes>, sent: seq<Delivery>,
    on: bool, peers: seq<Peer>, accepts: (Peer, ShardRef) -> bool)
    ensures Wrote(objects, objects, ns, blob, shards, 0) && OnlyBlobChanged(objects, objects, ns, blob)
    ensures Listed(h, [], ns, blob, shards, sent) && Replicated(on, [], peers, accepts, ns, blob)
    ensures Pushed(on, peers, accepts, ns, blob, shards, 0, sent, sent)
  {}

  /** The contract's quota admits one more object of this size, on the usage the store reports. */
  ghost predicate Admitted(manifests: map<BlobKey, Manifest>, contract: AppContract, ns: NamespaceId, len: nat) {
    var usage := UsageIn(manifests, ns);
    contract.quota.Admits(usage.bytes, usage.objects, len)
  }

  /** What a completed put leaves: every shard on the anchor and a manifest listing exactly those. */
  ghost predicate Published(
    h: Hash, coder: Coder, data: Bytes, params: ErasureParams, ns: NamespaceId, blob: BlobId, stamp: Timestamp,
    m: Manifest, before: map<ShardRef, Bytes>, after: map<ShardRef, Bytes>, sent: seq<Delivery>)
    requires params.WellFormed()
  {
    var e := Encoded(coder, data, params);
    && e.Ok?
    && Wrote(before, after, ns, blob, e.value, |e.value|)
    && m == Manifest(blob, ns, params, m.shards, |data|, stamp, None, None)
    && |m.shards| == |e.value|
    && Listed(h, m.shards, ns, blob, e.value, sent)
  }

  lemma WroteStep(
    before: map<ShardRef, Bytes>, mid: map<ShardRef, Bytes>, ns: NamespaceId, blob: BlobId,
    codeword: seq<Bytes>, count: nat)
    requires count < |codeword|
    requires Wrote(before, mid, ns, blob, codeword, count)
    ensures Wrote(before, mid[ShardRef(ns, blob, count) := codeword[count]], ns, blob, codeword, count + 1)
  {}

  lemma WroteOnlyBlob(
    before: map<ShardRef, Bytes>, mid: map<ShardRef, Bytes>, ns: NamespaceId, blob: BlobId, index: nat, bytes: Bytes)
    requires OnlyBlobChanged(before, mid, ns, blob)
    ensures OnlyBlobChanged(before, mid[ShardRef(ns, blob, index) := bytes], ns, blob)
  {}

  class PutBackup {
    const metadata: MemoryMetadataStore
    const anchor: BlobAnchor
    const coder: Coder
    const h: Hash
    const verify: Verifier
    const meshed: bool
    const transport: ShardTransport
    const peers: seq<Peer>
    const preferPeers: bool

    constructor (metadata: MemoryMetadataStore, anchor: BlobAnchor, coder: Coder, h: Hash, verify: Verifier,
      meshed: bool, transport: ShardTransport, peers: seq<Peer>, preferPeers: bool)
      ensures this.metadata == metadata && this.anchor == anchor && this.coder == coder && this.h == h
      ensures this.verify == verify && this.meshed == meshed && this.transport == transport
      ensures this.peers == peers && this.preferPeers == preferPeers
    {
      this.metadata, this.anchor, this.coder, this.h := metadata, anchor, coder, h;
      this.verify, this.meshed, this.transport := verify, meshed, transport;
      this.peers, this.preferPeers := peers, preferPeers;
    }

    /** Push the shard to every configured peer; returns the peers that accepted it. */
    method Replicate(at: ShardRef, bytes: Bytes) returns (placed: seq<Peer>)
      modifies transport`sent
      ensures transport.sent == old(transport.sent)
        + if meshed && preferPeers then Push(peers, transport.accepts, at, bytes) else []
      ensures placed == if meshed && preferPeers then Accepting(peers, transport.accepts, at) else []
      ensures forall p :: p in placed ==> Delivery(p, at, bytes, true) in transport.sent
    {
      placed := [];
      if !preferPeers || !meshed {
        return;
      }
      ghost var pushes := Push(peers, transport.accepts, at, bytes);
      for i := 0 to |peers|
        invariant transport.sent == old(transport.sent) + pushes[..i]
        invariant placed == Accepting(peers[..i], transport.accepts, at)
        invariant forall p :: p in placed ==> Delivery(p, at, bytes, true) in transport.sent
      {
        assert peers[..i + 1][..i] == peers[..i];
        var r := transport.SendShard(peers[i], at, bytes);
        if r.Ok? {
          placed := placed + [peers[i]];
        }
      }
      assert pushes[..|peers|] == pushes && peers[..|peers|] == peers;
    }

    /** Replicate one shard and list where it went; the size is cast to `u32`. */
    method Place(at: ShardRef, bytes: Bytes) returns (meta: Shard)
      modifies transport`sent
      ensures transport.sent == old(transport.sent)
        + if meshed && preferPeers then Push(peers, transport.accepts, at, bytes) else []
      ensures meta == Shard(at.index, h(bytes), |bytes| % U32_LIMIT,
        [Anchor] + AsPeers(if meshed && preferPeers then Accepting(peers, transport.accepts, at) else []))
      ensures LocationsDelivered(meta, at, bytes, transport.sent)
    {
      var placed := Replicate(at, bytes);
      meta := Shard(at.index, h(bytes), |bytes| % U32_LIMIT, [Anchor]);
      for j := 0 to |placed|
        invariant meta == Shard(at.index, h(bytes), |bytes| % U32_LIMIT, [Anchor] + AsPeers(placed[..j]))
        invariant LocationsDelivered(meta, at, bytes, transport.sent)
      {
        meta := meta.(locations := meta.locations + [Peer(placed[j])]);
      }
      assert placed[..|placed|] == placed;
    }

    /** Write each shard to the anchor, replicate it, and list it. */
    method WriteShards(ns: NamespaceId, blobId: BlobId, shards: seq<Bytes>)
      returns (r: PortResult<seq<Shard>>, ghost count: nat)
      modifies anchor`objects, transport`sent
      ensures OnlyBlobChanged(old(anchor.objects), anchor.objects, ns, blobId)
      ensures anchor.reliable ==> r.Ok?
      ensures r.Err? ==> r.error == Backend
      ensures count <= |shards| && (r.Ok? ==> count == |shards|)
      ensures Pushed(meshed && preferPeers, peers, transport.accepts, ns, blobId, shards, count,
        old(transport.sent), transport.sent)
      ensures r.Ok? ==>
        && |r.value| == |shards|
        && Wrote(old(anchor.objects), anchor.objects, ns, blobId, shards, |shards|)
        && Listed(h, r.value, ns, blobId, shards, transport.sent)
        && Replicated(meshed && preferPeers, r.value, peers, transport.accepts, ns, blobId)
    {
      var metas: seq<Shard> := [];
      NothingWritten(h, anchor.objects, ns, blobId, shards, transport.sent, meshed && preferPeers, peers,
        transport.accepts);
      count := 0;
      hide *;
      for index := 0 to |shards|
        invariant |metas| == index
        invariant Wrote(old(anchor.objects), anchor.objects, ns, blobId, shards, index)
        invariant OnlyBlobChanged(old(anchor.objects), anchor.objects, ns, blobId)
        invariant Listed(h, metas, ns, blobId, shards, transport.sent)
        invariant Replicated(meshed && preferPeers, metas, peers, transport.accepts, ns, blobId)
        invariant count == index
        invariant Pushed(meshed && preferPeers, peers, transport.accepts, ns, blobId, shards, index,
          old(transport.sent), transport.sent)
      {
        var at := ShardRef(ns, blobId, index);
        var bytes := shards[index];
        ghost var mid := anchor.objects;
        WroteStep(old(anchor.objects), mid, ns, blobId, shards, index);
        WroteOnlyBlob(old(anchor.objects), mid, ns, blobId, index, bytes);
        ghost var sent := transport.sent;
        var put := anchor.PutShard(at, bytes);
        if put.Err? {
          return Err(put.error), index;
        }
        var meta := Place(at, bytes);
        PushedMore(meshed && preferPeers, peers, transport.accepts, ns, blobId, shards, index,
          old(transport.sent), sent, transport.sent);
        ListedSnoc(h, metas, ns, blobId, shards, sent, transport.sent, meta);
        ReplicatedSnoc(meshed && preferPeers, metas, peers, transport.accepts, ns, blobId, meta);
        metas := metas + [meta];
        count := index + 1;
      }
      return Ok(metas), |shards|;
    }

    /** Encode, write the shards, publish the manifest. */
    method Publish(ns: NamespaceId, blobId: BlobId, params: ErasureParams, ciphertext: Bytes, stamp: Timestamp)
      returns (r: PortResult<BlobId>)
      requires params.WellFormed()
      modifies metadata`manifests, anchor`objects, transport`sent
      ensures OnlyBlobChanged(old(anchor.objects), anchor.objects, ns, blobId)
      ensures !Supports(coder, params) ==>
        r.Err? && anchor.objects == old(anchor.objects) && transport.sent == old(transport.sent)
      ensures Supports(coder, params) && anchor.reliable ==> r.Ok?
      ensures r.Err? ==> r.error == Backend && metadata.manifests == old(metadata.manifests)
      ensures
        PushedFor(meshed && preferPeers, peers, transport.accepts, ns, blobId, Encoded(coder, ciphertext, params),
          old(transport.sent), transport.sent, r.Ok?)
      ensures r.Ok? ==>
        && r.value == blobId && (ns, blobId) in metadata.manifests
        && metadata.manifests == old(metadata.manifests)[(ns, blobId) := metadata.manifests[(ns, blobId)]]
        && Published(h, coder, ciphertext, params, ns, blobId, stamp, metadata.manifests[(ns, blobId)],
             old(anchor.objects), anchor.objects, transport.sent)
        && Replicated(meshed && preferPeers, metadata.manifests[(ns, blobId)].shards, peers, transport.accepts,
             ns, blobId)
    {
      ghost var sent := transport.sent;
      EncodedAnswers(coder, ciphertext, params);
      assert OnlyBlobChanged(anchor.objects, anchor.objects, ns, blobId);
      var encoded := Encode(coder, ciphertext, params);
      if encoded.Err? {
        return Err(encoded.error);
      }
      hide Wrote, OnlyBlobChanged, Listed, Replicated, Pushed, PushedFor, Encoded, Supports;
      var metas, count := WriteShards(ns, blobId, encoded.value);
      PushedSome(meshed && preferPeers, peers, transport.accepts, ns, blobId, encoded.value, count,
        sent, transport.sent, metas.Ok?);
      if metas.Err? {
        return Err(metas.error);
      }
      metadata.PutManifest(Manifest(blobId, ns, params, metas.value, |ciphertext|, stamp, None, None));
      return Ok(blobId);
    }

    /** `now` is the clock at the guard, `stamp` the clock when the manifest is made, `blobId` fresh. */
    method Execute(ns: NamespaceId, token: CapabilityToken, ciphertext: Bytes,
      now: Timestamp, stamp: Timestamp, blobId: BlobId) returns (r: PortResult<BlobId>)
      requires forall app :: app in metadata.contracts ==> metadata.contracts[app].erasure.WellFormed()
      modifies metadata`manifests, anchor`objects, transport`sent
      // refused before anything is written
      ensures
        var auth := Authorize(verify, old(metadata.namespaces), now, ns, token, Put);
        auth.Err? ==>
          r == Err(auth.error) && anchor.objects == old(anchor.objects) && transport.sent == old(transport.sent)
      // the quota check, on the usage the store reports
      ensures
        (Authorize(verify, old(metadata.namespaces), now, ns, token, Put).Ok?
         && token.claims.appId in old(metadata.contracts)
        && !Admitted(old(metadata.manifests), old(metadata.contracts)[token.claims.appId], ns, |ciphertext|)) ==>
        && r == Err(Domain(QuotaExceeded))
        && anchor.objects == old(anchor.objects) && transport.sent == old(transport.sent)
      ensures
        (Authorize(verify, old(metadata.namespaces), now, ns, token, Put).Ok?
         && token.claims.appId in old(metadata.contracts)) ==>
        var quota, usage := old(metadata.contracts)[token.claims.appId].quota, UsageIn(old(metadata.manifests), ns);
        r == Err(Domain(QuotaExceeded)) <==>
          Min(usage.bytes + |ciphertext|, 0xFFFF_FFFF_FFFF_FFFF) > quota.maxBytes || usage.objects >= quota.maxObjects
      // an app without a contract, and parameters the coder does not support, are refused as well
      ensures
        (Authorize(verify, old(metadata.namespaces), now, ns, token, Put).Ok?
        && token.claims.appId !in old(metadata.contracts)) ==>
        r == Err(NotFound) && anchor.objects == old(anchor.objects) && transport.sent == old(transport.sent)
      ensures
        (token.claims.appId in old(metadata.contracts)
        && !Supports(coder, old(metadata.contracts)[token.claims.appId].erasure)) ==>
        r.Err? && anchor.objects == old(anchor.objects) && transport.sent == old(transport.sent)
      ensures
        (Authorize(verify, old(metadata.namespaces), now, ns, token, Put).Ok?
         && token.claims.appId in old(metadata.contracts)
        && Admitted(old(metadata.manifests), old(metadata.contracts)[token.claims.appId], ns, |ciphertext|)
        && r.Err?) ==>
        r == Err(Backend)
      // each shard goes once to each configured peer when placement is on, and nothing otherwise
      ensures token.claims.appId in old(metadata.contracts) ==>
        PushedFor(meshed && preferPeers, peers, transport.accepts, ns, blobId,
          Encoded(coder, ciphertext, old(metadata.contracts)[token.claims.appId].erasure),
          old(transport.sent), transport.sent, r.Ok?)
      // a failure publishes nothing and touches only shards of the fresh blob
      ensures r.Err? ==> metadata.manifests == old(metadata.manifests)
      ensures OnlyBlobChanged(old(anchor.objects), anchor.objects, ns, blobId)
      // and with everything granted and a reliable anchor it succeeds
      ensures
        (Authorize(verify, old(metadata.namespaces), now, ns, token, Put).Ok?
         && token.claims.appId in old(metadata.contracts)
        && Admitted(old(metadata.manifests), old(metadata.contracts)[token.claims.appId], ns, |ciphertext|)
        && Supports(coder, old(metadata.contracts)[token.claims.appId].erasure) && anchor.reliable) ==>
        r.Ok?
      // success: all shards on the anchor, then one manifest describing them
      ensures r.Ok? ==>
        && r.value == blobId
        && token.claims.appId in old(metadata.contracts)
        && (ns, blobId) in metadata.manifests
        && metadata.manifests == old(metadata.manifests)[(ns, blobId) := metadata.manifests[(ns, blobId)]]
        && Published(h, coder, ciphertext, old(metadata.contracts)[token.claims.appId].erasure, ns, blobId, stamp,
             metadata.manifests[(ns, blobId)], old(anchor.objects), anchor.objects,
             transport.sent)
        && Replicated(meshed && preferPeers, metadata.manifests[(ns, blobId)].shards, peers, transport.accepts,
             ns, blobId)
    {
      NothingPushed(meshed && preferPeers, peers, transport.accepts, ns, blobId, transport.sent);
      assert OnlyBlobChanged(anchor.objects, anchor.objects, ns, blobId);
      AuthorizeAnswers(verify, metadata.namespaces, now, ns, token, Put);
      hide Authorize, Published, Replicated, PushedFor, OnlyBlobChanged, UsageIn, Encoded, CanonicalBytes;
      var auth := Authorize(verify, metadata.namespaces, now, ns, token, Put);
      if auth.Err? {
        return Err(auth.error);
      }
      var app := auth.value;
      if app !in metadata.contracts {
        return Err(NotFound);
      }
      var contract := metadata.contracts[app];
      var usage := metadata.UsageOf(ns);
      if !contract.quota.Admits(usage.bytes, usage.objects, |ciphertext|) {
        return Err(Domain(QuotaExceeded));
      }
      r := Publish(ns, blobId, contract.erasure, ciphertext, stamp);
    }
  }

  /** What a completed put leaves is what restore and repair rely on. */
  lemma PublishedIsStored(
    h: Hash, coder: Coder, data: Bytes, params: ErasureParams, ns: NamespaceId, blob: BlobId, stamp: Timestamp,
    m: Manifest, before: map<ShardRef, Bytes>, after: map<ShardRef, Bytes>, sent: seq<Delivery>)
    requires params.WellFormed() && Published(h, coder, data, params, ns, blob, stamp, m, before, after, sent)
    ensures Stored(h, coder, m, data, Encoded(coder, data, params).value)
    ensures m.namespace == ns && m.blobId == blob && m.erasure == params
    ensures m.ciphertextLen == |data| && m.createdAt == stamp && m.nameEnc.None? && m.objectId.None?
    ensures |m.shards| == params.n
    ensures forall i: nat :: i < params.n ==>
      var at := ShardRef(ns, blob, i);
      at in after && m.shards[i] == Shard(i, h(after[at]), |after[at]| % 0x1_0000_0000, m.shards[i].locations)
  {
    hide RsEncoded;
  }
}
