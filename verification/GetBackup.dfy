/** Reconstruct one blob: peers first, the anchor as fallback, every copy checked against its hash. */
module GetBackup {
  import opened Prelude
  import opened Domain
  import opened Stores
  import opened Capability
  import opened ErasureCoder
  import opened Put = PutBackup
  import RS = ReedSolomon

  /** What the peers answer, when there is a mesh. */
  type Replies = Option<(Peer, ShardRef) -> PortResult<Bytes>>

  predicate AnchorCopy(h: Hash, objects: map<ShardRef, Bytes>, at: ShardRef, shard: Shard) {
    at in objects && h(objects[at]) == shard.sha256
  }

  /** One recorded location that is a peer holding a valid copy. */
  predicate ValidReply(h: Hash, replies: Replies, at: ShardRef, shard: Shard, location: ShardLocation) {
    replies.Some? && location.Peer? &&
    var r := replies.value(location.addr, at);
    r.Ok? && h(r.value) == shard.sha256
  }

  predicate PeerCopy(h: Hash, replies: Replies, at: ShardRef, shard: Shard) {
    exists j :: 0 <= j < |shard.locations| && ValidReply(h, replies, at, shard, shard.locations[j])
  }

  predicate HasSource(h: Hash, objects: map<ShardRef, Bytes>, replies: Replies, at: ShardRef, shard: Shard) {
    AnchorCopy(h, objects, at, shard) || PeerCopy(h, replies, at, shard)
  }

  /** The indices of a manifest with a valid copy somewhere. */
  ghost function Sources(
    h: Hash, objects: map<ShardRef, Bytes>, replies: Replies, ns: NamespaceId, blob: BlobId, m: Manifest): (s: set<nat>)
    ensures |s| <= |m.shards|
  {
    var s := set i: nat | i < |m.shards|
      && HasSource(h, objects, replies, ShardRef(ns, blob, m.shards[i].index), m.shards[i]);
    SubsetSize(s, Upto(|m.shards|));
    s
  }

  /** The indices with a valid copy at a recorded peer. */
  ghost function PeerSources(h: Hash, replies: Replies, ns: NamespaceId, blob: BlobId, m: Manifest): (s: set<nat>)
    ensures |s| <= |m.shards|
  {
    var s := set i: nat | i < |m.shards| && PeerCopy(h, replies, ShardRef(ns, blob, m.shards[i].index), m.shards[i]);
    SubsetSize(s, Upto(|m.shards|));
    s
  }

  /** The indices whose copy on the anchor is valid. */
  ghost function Healthy(
    h: Hash, objects: map<ShardRef, Bytes>, ns: NamespaceId, blob: BlobId, m: Manifest): (s: set<nat>)
    ensures |s| <= |m.shards|
  {
    var s := set i: nat | i < |m.shards| && AnchorCopy(h, objects, ShardRef(ns, blob, m.shards[i].index), m.shards[i]);
    SubsetSize(s, Upto(|m.shards|));
    s
  }

  /** The anchor or some peer gave these bytes for the shard. */
  ghost predicate CameFrom(objects: map<ShardRef, Bytes>, replies: Replies, at: ShardRef, bytes: Bytes) {
    || (at in objects && objects[at] == bytes)
    || (replies.Some? && exists p :: replies.value(p, at) == Ok(bytes))
  }

  /** The only assumption about the digest: among what the anchor and the peers have for a shard of the
      blob, nothing but that shard carries its hash. */
  ghost predicate NoForgery(
    h: Hash, codeword: seq<Bytes>, objects: map<ShardRef, Bytes>, replies: Replies, ns: NamespaceId, blob: BlobId)
  {
    forall i: nat, b ::
      i < |codeword| && CameFrom(objects, replies, ShardRef(ns, blob, i), b) && h(b) == h(codeword[i]) ==>
      b == codeword[i]
  }

  /** Slots whose bytes were given for their shard and carry the hash listed at their position. */
  ghost predicate Gated(
    h: Hash, objects: map<ShardRef, Bytes>, replies: Replies, ns: NamespaceId, blob: BlobId, m: Manifest,
    slots: seq<Option<Bytes>>)
  {
    && |slots| == |m.shards|
    && forall i :: 0 <= i < |slots| && slots[i].Some? ==>
         && h(slots[i].value) == m.shards[i].sha256
         && CameFrom(objects, replies, ShardRef(ns, blob, m.shards[i].index), slots[i].value)
  }

  /** What one load gives: bytes with the listed hash from a source, and nothing only without a peer copy, or with
      a reliable anchor without any source. */
  ghost predicate Loaded(
    h: Hash, objects: map<ShardRef, Bytes>, replies: Replies, at: ShardRef, shard: Shard, reliable: bool,
    slot: Option<Bytes>)
  {
    match slot
    case Some(bytes) =>
      && h(bytes) == shard.sha256 && HasSource(h, objects, replies, at, shard) && CameFrom(objects, replies, at, bytes)
    case None => !PeerCopy(h, replies, at, shard) && (reliable ==> !HasSource(h, objects, replies, at, shard))
  }

  lemma LoadedOne(
    h: Hash, objects: map<ShardRef, Bytes>, replies: Replies, at: ShardRef, shard: Shard, reliable: bool,
    slot: Option<Bytes>)
    requires slot.Some? ==>
      && h(slot.value) == shard.sha256 && HasSource(h, objects, replies, at, shard)
      && CameFrom(objects, replies, at, slot.value)
    requires PeerCopy(h, replies, at, shard) ==> slot.Some?
    requires HasSource(h, objects, replies, at, shard) && reliable ==> slot.Some?
    ensures Loaded(h, objects, replies, at, shard, reliable, slot)
  {}

  lemma AllLoaded(
    h: Hash, objects: map<ShardRef, Bytes>, replies: Replies, ns: NamespaceId, blob: BlobId, m: Manifest,
    reliable: bool, slots: seq<Option<Bytes>>)
    requires |slots| == |m.shards|
    requires forall j :: 0 <= j < |slots| ==>
      Loaded(h, objects, replies, ShardRef(ns, blob, m.shards[j].index), m.shards[j], reliable, slots[j])
    ensures Gated(h, objects, replies, ns, blob, m, slots)
    ensures PeerSources(h, replies, ns, blob, m) <= SomeSet(slots) <= Sources(h, objects, replies, ns, blob, m)
    ensures reliable ==> SomeSet(slots) == Sources(h, objects, replies, ns, blob, m)
  {
    hide HasSource, PeerCopy, CameFrom;
  }

  datatype RestoreOutcome = RestoreOutcome(ciphertext: Bytes, shardsTotal: nat, shardsMissing: nat)

  class GetBackup {
    const metadata: MemoryMetadataStore
    const anchor: BlobAnchor
    const coder: Coder
    const h: Hash
    const verify: Verifier
    const meshed: bool
    const transport: ShardTransport

    constructor (metadata: MemoryMetadataStore, anchor: BlobAnchor, coder: Coder, h: Hash, verify: Verifier,
      meshed: bool, transport: ShardTransport)
      ensures this.metadata == metadata && this.anchor == anchor && this.coder == coder && this.h == h
      ensures this.verify == verify && this.meshed == meshed && this.transport == transport
    {
      this.metadata, this.anchor, this.coder, this.h := metadata, anchor, coder, h;
      this.verify, this.meshed, this.transport := verify, meshed, transport;
    }

    function Mesh(): Replies { if meshed then Some(transport.fetches) else None }

    /** Peers in the recorded order, then the anchor; whatever is returned carries the shard's hash. The first
        recorded peer with a valid copy is taken, whatever the anchor would do. */
    method LoadShard(at: ShardRef, shard: Shard) returns (r: Option<Bytes>)
      ensures forall j ::
        0 <= j < |shard.locations| && ValidReply(h, Mesh(), at, shard, shard.locations[j])
        && (forall i :: 0 <= i < j ==> !ValidReply(h, Mesh(), at, shard, shard.locations[i])) ==>
          r == Some(transport.fetches(shard.locations[j].addr, at).value)
      ensures PeerCopy(h, Mesh(), at, shard) ==> r.Some?
      ensures r.Some? ==> h(r.value) == shard.sha256
      ensures r.Some? ==> HasSource(h, anchor.objects, Mesh(), at, shard)
      ensures r.Some? ==> CameFrom(anchor.objects, Mesh(), at, r.value)
      ensures HasSource(h, anchor.objects, Mesh(), at, shard) && anchor.reliable ==> r.Some?
    {
      if meshed {
        for j := 0 to |shard.locations|
          invariant forall i :: 0 <= i < j ==> !ValidReply(h, Mesh(), at, shard, shard.locations[i])
        {
          if shard.locations[j].Peer? {
            var reply := transport.FetchShard(shard.locations[j].addr, at);
            if reply.Ok? && h(reply.value) == shard.sha256 {
              assert ValidReply(h, Mesh(), at, shard, shard.locations[j]);
              return Some(reply.value);
            }
          }
        }
      }
      var stored := anchor.GetShard(at);
      if stored.Ok? && h(stored.value) == shard.sha256 {
        return Some(stored.value);
      }
      return None;
    }

    /** The slots of a manifest, from whatever sources answer. */
    method Collect(ns: NamespaceId, blobId: BlobId, m: Manifest) returns (collected: seq<Option<Bytes>>, available: nat)
      ensures Gated(h, anchor.objects, Mesh(), ns, blobId, m, collected) && available == CountSome(collected)
      ensures PeerSources(h, Mesh(), ns, blobId, m) <= SomeSet(collected)
      ensures SomeSet(collected) <= Sources(h, anchor.objects, Mesh(), ns, blobId, m)
      ensures anchor.reliable ==> SomeSet(collected) == Sources(h, anchor.objects, Mesh(), ns, blobId, m)
    {
      hide *;
      collected, available := [], 0;
      CountSomeNone<Bytes>();
      for i := 0 to |m.shards|
        invariant |collected| == i && available == CountSome(collected)
        invariant forall j :: 0 <= j < i ==>
          var at := ShardRef(ns, blobId, m.shards[j].index);
          Loaded(h, anchor.objects, Mesh(), at, m.shards[j], anchor.reliable, collected[j])
      {
        var shard := m.shards[i];
        var loaded := LoadShard(ShardRef(ns, blobId, shard.index), shard);
        LoadedOne(h, anchor.objects, Mesh(), ShardRef(ns, blobId, shard.index), shard, anchor.reliable, loaded);
        CountSomeSnoc(collected, loaded);
        if loaded.Some? {
          available := available + 1;
        }
        collected := collected + [loaded];
      }
      AllLoaded(h, anchor.objects, Mesh(), ns, blobId, m, anchor.reliable, collected);
    }

    /** Decode what was collected, when at least k slots are filled. */
    method RestoreManifest(ns: NamespaceId, blobId: BlobId, m: Manifest, ghost data: Bytes, ghost codeword: seq<Bytes>)
      returns (r: PortResult<RestoreOutcome>)
      requires Stored(h, coder, m, data, codeword) && NoForgery(h, codeword, anchor.objects, Mesh(), ns, blobId)
      ensures Restored(h, anchor.objects, Mesh(), ns, blobId, m, data, anchor.reliable, r)
    {
      hide *;
      var collected, available := Collect(ns, blobId, m);
      RestoredFrom(h, coder, anchor.objects, Mesh(), ns, blobId, m, data, codeword, anchor.reliable, collected);
      if !m.IsReconstructable(available) {
        return Err(Unavailable);
      }
      var decoded := Decode(coder, collected, m.erasure, m.ciphertextLen);
      return Ok(RestoreOutcome(decoded.value, |m.shards|, |m.shards| - available));
    }

    /** Never wrong: whatever the anchor holds and the peers answer, the result is an error or the exact
        ciphertext of the put. With a reliable anchor it succeeds exactly when k indices have a source. */
    method Restore(ns: NamespaceId, token: CapabilityToken, blobId: BlobId, now: Timestamp,
      ghost data: Bytes, ghost codeword: seq<Bytes>) returns (r: PortResult<RestoreOutcome>)
      requires (ns, blobId) in metadata.manifests ==>
        && Stored(h, coder, metadata.manifests[(ns, blobId)], data, codeword)
        && NoForgery(h, codeword, anchor.objects, Mesh(), ns, blobId)
      ensures
        var auth := Authorize(verify, metadata.namespaces, now, ns, token, Get);
        && (auth.Err? ==> r == Err(auth.error))
        && (auth.Ok? && (ns, blobId) !in metadata.manifests ==> r == Err(NotFound))
        && (auth.Ok? && (ns, blobId) in metadata.manifests ==>
              Restored(h, anchor.objects, Mesh(), ns, blobId,
                metadata.manifests[(ns, blobId)], data, anchor.reliable, r))
    {
      hide Stored, Restored, NoForgery;
      var auth := Authorize(verify, metadata.namespaces, now, ns, token, Get);
      if auth.Err? {
        return Err(auth.error);
      }
      var found := metadata.GetManifest(ns, blobId);
      if found.None? {
        return Err(NotFound);
      }
      r := RestoreManifest(ns, blobId, found.value, data, codeword);
    }
  }

  /** A successful restore returns the data, and only with k sources; with k valid peer copies it succeeds
      whatever the anchor does. With a reliable anchor it succeeds exactly when there are k sources, reporting
      how many indices have none. */
  ghost predicate Restored(
    h: Hash, objects: map<ShardRef, Bytes>, replies: Replies, ns: NamespaceId, blob: BlobId, m: Manifest,
    data: Bytes, reliable: bool, r: PortResult<RestoreOutcome>)
  {
    var sources, peers := Sources(h, objects, replies, ns, blob, m), PeerSources(h, replies, ns, blob, m);
    && (r.Ok? ==>
          && r.value.ciphertext == data && r.value.shardsTotal == |m.shards| && |sources| >= m.erasure.k
          && |m.shards| - |sources| <= r.value.shardsMissing <= |m.shards| - |peers|)
    && (r.Err? ==> r.error == Unavailable)
    && (|peers| >= m.erasure.k ==> r.Ok?)
    && (reliable ==>
          r == if |sources| >= m.erasure.k then Ok(RestoreOutcome(data, |m.shards|, |m.shards| - |sources|))
               else Err(Unavailable))
  }

  /** Slots gated by the manifest's hashes are codeword shards, so k of them decode to the data. */
  lemma GatedSlots(
    h: Hash, coder: Coder, objects: map<ShardRef, Bytes>, replies: Replies, ns: NamespaceId, blob: BlobId, m: Manifest,
    data: Bytes, codeword: seq<Bytes>, slots: seq<Option<Bytes>>)
    requires Stored(h, coder, m, data, codeword) && NoForgery(h, codeword, objects, replies, ns, blob)
    requires Gated(h, objects, replies, ns, blob, m, slots)
    ensures RS.AgreesWith(slots, codeword) && m.erasure.WellFormed()
    ensures Decoded(coder, slots, m.erasure, m.ciphertextLen)
         == if CountSome(slots) >= m.erasure.k then Ok(data) else Err(Unavailable)
  {
    hide Encoded, Decoded, CountSome, CameFrom;
    forall i | 0 <= i < |slots| && slots[i].Some?
      ensures slots[i].value == codeword[i]
    {
      assert m.shards[i].index == i && m.shards[i].sha256 == h(codeword[i]);
    }
    AnyKOfN(coder, data, m.erasure, codeword, slots);
  }

  /** What was collected decides the restore. */
  lemma RestoredFrom(
    h: Hash, coder: Coder, objects: map<ShardRef, Bytes>, replies: Replies, ns: NamespaceId, blob: BlobId, m: Manifest,
    data: Bytes, codeword: seq<Bytes>, reliable: bool, collected: seq<Option<Bytes>>)
    requires Stored(h, coder, m, data, codeword) && NoForgery(h, codeword, objects, replies, ns, blob)
    requires Gated(h, objects, replies, ns, blob, m, collected)
    requires PeerSources(h, replies, ns, blob, m) <= SomeSet(collected)
    requires SomeSet(collected) <= Sources(h, objects, replies, ns, blob, m)
    requires reliable ==> SomeSet(collected) == Sources(h, objects, replies, ns, blob, m)
    ensures m.erasure.WellFormed() && CountSome(collected) <= |m.shards|
    ensures
      if m.IsReconstructable(CountSome(collected)) then
        && Decoded(coder, collected, m.erasure, m.ciphertextLen) == Ok(data)
        && Restored(h, objects, replies, ns, blob, m, data, reliable,
             Ok(RestoreOutcome(data, |m.shards|, |m.shards| - CountSome(collected))))
      else Restored(h, objects, replies, ns, blob, m, data, reliable, Err(Unavailable))
  {
    hide Stored, Sources, PeerSources, NoForgery, Gated, RS.AgreesWith, SomeSet, Decoded;
    GatedSlots(h, coder, objects, replies, ns, blob, m, data, codeword, collected);
    assert |collected| == |m.shards| by {
      GatedLength(h, objects, replies, ns, blob, m, collected);
    }
    CountSomeIsCardinality(collected);
    SubsetSize(SomeSet(collected), Sources(h, objects, replies, ns, blob, m));
    SubsetSize(PeerSources(h, replies, ns, blob, m), SomeSet(collected));
  }

  lemma GatedLength(
    h: Hash, objects: map<ShardRef, Bytes>, replies: Replies, ns: NamespaceId, blob: BlobId, m: Manifest,
    slots: seq<Option<Bytes>>)
    requires Gated(h, objects, replies, ns, blob, m, slots)
    ensures |slots| == |m.shards|
  {}
}
