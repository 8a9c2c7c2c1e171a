/** The ports the use cases work against: the metadata store, the anchor, and the peer transport. */
module Stores {
  import opened Prelude
  import opened Domain

  type BlobKey = (NamespaceId, BlobId)

  // ---- The anchor ----

  /** The anchor without any shard of the blob. */
  function WithoutBlob(objects: map<ShardRef, Bytes>, namespace: NamespaceId, blobId: BlobId): map<ShardRef, Bytes> {
    map at | at in objects && !(at.namespace == namespace && at.blobId == blobId) :: objects[at]
  }

  /** The authoritative object store. A reliable one answers with bytes or NotFound and its writes
      succeed; an unreliable one may fail any call, and a failed write or delete may have happened. */
  class BlobAnchor {
    var objects: map<ShardRef, Bytes>
    const reliable: bool

    constructor (reliable: bool)
      ensures objects == map[] && this.reliable == reliable
    {
      this.reliable := reliable;
      objects := map[];
    }

    method GetShard(at: ShardRef) returns (r: PortResult<Bytes>)
      ensures r == (if at in objects then Ok(objects[at]) else Err(NotFound)) || (!reliable && r == Err(Backend))
    {
      var fails: bool := *;
      if fails && !reliable {
        return Err(Backend);
      }
      return if at in objects then Ok(objects[at]) else Err(NotFound);
    }

    method PutShard(at: ShardRef, bytes: Bytes) returns (r: PortResult<()>)
      modifies this`objects
      ensures r.Ok? ==> objects == old(objects)[at := bytes]
      ensures r.Err? ==> !reliable && (objects == old(objects) || objects == old(objects)[at := bytes])
      ensures r.Err? ==> r.error == Backend
    {
      var failsBefore: bool, failsAfter: bool := *, *;
      if failsBefore && !reliable {
        return Err(Backend);
      }
      objects := objects[at := bytes];
      if failsAfter && !reliable {
        return Err(Backend);
      }
      return Ok(());
    }

    method DeleteBlob(namespace: NamespaceId, blobId: BlobId) returns (r: PortResult<()>)
      modifies this`objects
      ensures r.Ok? ==> objects == WithoutBlob(old(objects), namespace, blobId)
      ensures r.Err? ==> !reliable && r.error == Backend
      ensures WithoutBlob(objects, namespace, blobId) == WithoutBlob(old(objects), namespace, blobId)
      ensures forall at :: at in objects ==> at in old(objects) && objects[at] == old(objects)[at]
    {
      var fails: bool := *;
      if fails && !reliable {
        // a failed delete leaves some of the shards behind
        var left: set<ShardRef> := *;
        objects := map at | at in objects && (at in left || at in WithoutBlob(objects, namespace, blobId))
          :: objects[at];
        return Err(Backend);
      }
      objects := WithoutBlob(objects, namespace, blobId);
      return Ok(());
    }
  }

  // ---- The peer transport ----

  datatype Delivery = Delivery(peer: Peer, at: ShardRef, bytes: Bytes, accepted: bool)

  /** Peers may answer a fetch with anything and accept or refuse a push at will. */
  class ShardTransport {
    const fetches: (Peer, ShardRef) -> PortResult<Bytes>
    const accepts: (Peer, ShardRef) -> bool
    var sent: seq<Delivery>

    constructor (fetches: (Peer, ShardRef) -> PortResult<Bytes>, accepts: (Peer, ShardRef) -> bool)
      ensures this.fetches == fetches && this.accepts == accepts && sent == []
    {
      this.fetches := fetches;
      this.accepts := accepts;
      sent := [];
    }

    method FetchShard(peer: Peer, at: ShardRef) returns (r: PortResult<Bytes>)
      ensures r == fetches(peer, at)
    {
      return fetches(peer, at);
    }

    method SendShard(peer: Peer, at: ShardRef, bytes: Bytes) returns (r: PortResult<()>)
      modifies this`sent
      ensures r.Ok? <==> accepts(peer, at)
      ensures sent == old(sent) + [Delivery(peer, at, bytes, r.Ok?)]
    {
      sent := sent + [Delivery(peer, at, bytes, accepts(peer, at))];
      return if accepts(peer, at) then Ok(()) else Err(Unavailable);
    }
  }

  // ---- The metadata store ----

  datatype NamespaceUsage = NamespaceUsage(bytes: nat, objects: nat)

  /** Every manifest sits under its own namespace and id. */
  ghost predicate Keyed(manifests: map<BlobKey, Manifest>) {
    forall key :: key in manifests ==> key == (manifests[key].namespace, manifests[key].blobId)
  }

  /** The manifests of one namespace. */
  function InNamespace(manifests: map<BlobKey, Manifest>, ns: NamespaceId): map<BlobKey, Manifest> {
    map key | key in manifests && key.0 == ns :: manifests[key]
  }

  /** The sum of the ciphertext lengths, in whatever order. */
  ghost function TotalBytes(manifests: map<BlobKey, Manifest>): nat {
    if manifests == map[] then 0
    else
      var key :| key in manifests;
      manifests[key].ciphertextLen + TotalBytes(manifests - {key})
  }

  lemma {:induction false} TotalBytesTake(manifests: map<BlobKey, Manifest>, key: BlobKey)
    requires key in manifests
    ensures TotalBytes(manifests) == manifests[key].ciphertextLen + TotalBytes(manifests - {key})
    decreases |manifests|
  {
    var first :| first in manifests
      && TotalBytes(manifests) == manifests[first].ciphertextLen + TotalBytes(manifests - {first});
    if first != key {
      TotalBytesTake(manifests - {first}, key);
      TotalBytesTake(manifests - {key}, first);
      assert manifests - {first} - {key} == manifests - {key} - {first};
    }
  }

  lemma TotalBytesAdd(manifests: map<BlobKey, Manifest>, key: BlobKey, m: Manifest)
    requires key !in manifests
    ensures TotalBytes(manifests[key := m]) == TotalBytes(manifests) + m.ciphertextLen
    ensures |manifests[key := m]| == |manifests| + 1
  {
    TotalBytesTake(manifests[key := m], key);
    assert manifests[key := m] - {key} == manifests;
  }

  /** The total after one manifest is taken out, or put in place of what its key held. */
  lemma TotalBytesRemove(manifests: map<BlobKey, Manifest>, key: BlobKey)
    requires key in manifests
    ensures TotalBytes(manifests - {key}) == TotalBytes(manifests) - manifests[key].ciphertextLen
    ensures |manifests - {key}| == |manifests| - 1
  {
    TotalBytesTake(manifests, key);
  }

  lemma RemoveAbsent(manifests: map<BlobKey, Manifest>, key: BlobKey)
    requires key !in manifests
    ensures manifests - {key} == manifests
  {}

  /** The sequence holds each blob of the namespace exactly once. */
  ghost predicate Lists(blobs: seq<BlobId>, manifests: map<BlobKey, Manifest>, namespace: NamespaceId) {
    && (forall blob :: blob in blobs <==> (namespace, blob) in manifests)
    && (forall i, j :: 0 <= i < j < |blobs| ==> blobs[i] != blobs[j])
  }

  lemma SeenStep(manifests: map<BlobKey, Manifest>, todo: set<BlobKey>, key: BlobKey, id: NamespaceId)
    requires key in todo && todo <= manifests.Keys
    ensures
      var before, after := InNamespace(manifests - todo, id), InNamespace(manifests - (todo - {key}), id);
      if key.0 == id then
        |after| == |before| + 1 && TotalBytes(after) == TotalBytes(before) + manifests[key].ciphertextLen
      else after == before
  {
    hide *;
    SeenMore(manifests, todo, key, id);
    var after := InNamespace(manifests - (todo - {key}), id);
    if key.0 == id {
      TotalBytesTake(after, key);
    }
  }

  lemma SeenMore(manifests: map<BlobKey, Manifest>, todo: set<BlobKey>, key: BlobKey, id: NamespaceId)
    requires key in todo && todo <= manifests.Keys
    ensures
      var before, after := InNamespace(manifests - todo, id), InNamespace(manifests - (todo - {key}), id);
      if key.0 == id then
        key in after && after[key] == manifests[key] && after - {key} == before && |after| == |before| + 1
      else after == before
  {
    var before, after := InNamespace(manifests - todo, id), InNamespace(manifests - (todo - {key}), id);
    if key.0 == id {
      assert after == before[key := manifests[key]];
    } else {
      assert after == before;
    }
  }

  lemma ListsStep(blobs: seq<BlobId>, manifests: map<BlobKey, Manifest>, todo: set<BlobKey>,
    key: BlobKey, ns: NamespaceId)
    requires key in todo && todo <= manifests.Keys && Lists(blobs, manifests - todo, ns)
    ensures Lists(if key.0 == ns then blobs + [key.1] else blobs, manifests - (todo - {key}), ns)
  {
    var after := if key.0 == ns then blobs + [key.1] else blobs;
    forall blob
      ensures blob in after <==> (ns, blob) in manifests - (todo - {key})
    {
      assert (ns, blob) in manifests - (todo - {key}) <==> (ns, blob) in manifests - todo || (ns, blob) == key;
    }
    assert key.0 == ns ==> key.1 !in blobs;
  }

  /** The namespace's own sum and count, in u64. */
  ghost function UsageIn(manifests: map<BlobKey, Manifest>, id: NamespaceId): NamespaceUsage {
    NamespaceUsage(Wrap(TotalBytes(InNamespace(manifests, id))), Wrap(|InNamespace(manifests, id)|))
  }

  lemma UsageNone(manifests: map<BlobKey, Manifest>, id: NamespaceId)
    ensures UsageIn(manifests - manifests.Keys, id) == NamespaceUsage(0, 0)
  {
    assert InNamespace(manifests - manifests.Keys, id) == map[];
  }

  lemma UsageStep(manifests: map<BlobKey, Manifest>, todo: set<BlobKey>, key: BlobKey, id: NamespaceId)
    requires key in todo && todo <= manifests.Keys
    ensures
      var usage := UsageIn(manifests - todo, id);
      UsageIn(manifests - (todo - {key}), id)
      == if key.0 == id
         then NamespaceUsage(Wrap(usage.bytes + manifests[key].ciphertextLen), Wrap(usage.objects + 1)) else usage
  {
    hide TotalBytes, InNamespace, Wrap;
    SeenStep(manifests, todo, key, id);
    if key.0 == id {
      WrapAdd(TotalBytes(InNamespace(manifests - todo, id)), manifests[key].ciphertextLen);
      WrapAdd(|InNamespace(manifests - todo, id)|, 1);
    }
  }

  class MemoryMetadataStore {
    var contracts: map<AppId, AppContract>
    var namespaces: map<NamespaceId, Namespace>
    var manifests: map<BlobKey, Manifest>

    constructor ()
      ensures contracts == map[] && namespaces == map[] && manifests == map[]
    {
      contracts, namespaces, manifests := map[], map[], map[];
    }

    /** Every namespace once, in the hash map's order, which is arbitrary. */
    method ListNamespaces() returns (ids: seq<NamespaceId>)
      ensures forall id :: id in ids <==> id in namespaces
      ensures forall i, j :: 0 <= i < j < |ids| ==> ids[i] != ids[j]
    {
      ids := [];
      var todo := namespaces.Keys;
      while todo != {}
        invariant todo <= namespaces.Keys
        invariant forall id :: id in ids <==> id in namespaces && id !in todo
        invariant forall i, j :: 0 <= i < j < |ids| ==> ids[i] != ids[j]
        decreases todo
      {
        var id :| id in todo;
        ids := ids + [id];
        todo := todo - {id};
      }
    }

    /** The accumulation is in u64, which wraps. */
    method UsageOf(id: NamespaceId) returns (usage: NamespaceUsage)
      ensures usage == UsageIn(manifests, id)
    {
      hide *;
      usage := NamespaceUsage(0, 0);
      var todo := manifests.Keys;
      UsageNone(manifests, id);
      while todo != {}
        invariant todo <= manifests.Keys
        invariant usage == UsageIn(manifests - todo, id)
        decreases todo
      {
        var key :| key in todo;
        UsageStep(manifests, todo, key, id);
        if key.0 == id {
          usage := NamespaceUsage(Wrap(usage.bytes + manifests[key].ciphertextLen), Wrap(usage.objects + 1));
        }
        todo := todo - {key};
      }
      assert manifests - {} == manifests;
    }

    method PutManifest(m: Manifest)
      modifies this`manifests
      ensures manifests == old(manifests)[(m.namespace, m.blobId) := m]
      ensures old(Keyed(manifests)) ==> Keyed(manifests)
    {
      manifests := manifests[(m.namespace, m.blobId) := m];
    }

    method GetManifest(namespace: NamespaceId, blobId: BlobId) returns (r: Option<Manifest>)
      ensures r == if (namespace, blobId) in manifests then Some(manifests[(namespace, blobId)]) else None
    {
      return if (namespace, blobId) in manifests then Some(manifests[(namespace, blobId)]) else None;
    }

    /** Every blob of the namespace once, in the hash map's order, which is arbitrary. */
    method ListBlobs(namespace: NamespaceId) returns (blobs: seq<BlobId>)
      ensures Lists(blobs, manifests, namespace)
      ensures |blobs| == |InNamespace(manifests, namespace)|
    {
      blobs := [];
      var todo := manifests.Keys;
      assert InNamespace(manifests - todo, namespace) == map[];
      while todo != {}
        invariant todo <= manifests.Keys
        invariant Lists(blobs, manifests - todo, namespace)
        invariant |blobs| == |InNamespace(manifests - todo, namespace)|
        decreases todo
      {
        var key :| key in todo;
        SeenStep(manifests, todo, key, namespace);
        ListsStep(blobs, manifests, todo, key, namespace);
        if key.0 == namespace {
          blobs := blobs + [key.1];
        }
        todo := todo - {key};
      }
      assert manifests - {} == manifests;
    }

    method DeleteManifest(namespace: NamespaceId, blobId: BlobId)
      modifies this`manifests
      ensures manifests == old(manifests) - {(namespace, blobId)}
      ensures old(Keyed(manifests)) ==> Keyed(manifests)
    {
      manifests := manifests - {(namespace, blobId)};
    }
  }
}
