/** Metering: what each manifest operation does to a namespace's usage, and the per-app statement. */
module UsageReport {
  import opened Prelude
  import opened Domain
  import opened Stores

  const MICROS_PER_GIB := 20_000
  const BYTES_PER_GIB := 0x4000_0000

  datatype NamespaceLine = NamespaceLine(namespace: NamespaceId, bytes: nat, objects: nat)

  datatype UsageStatement = UsageStatement(
    appId: AppId, lines: seq<NamespaceLine>, totalBytes: nat, totalObjects: nat, quotaMaxBytes: nat,
    estimatedCostMicros: nat)

  /** The saturating product, divided down. */
  function Cost(totalBytes: nat): nat { SaturatingMul(totalBytes, MICROS_PER_GIB) / BYTES_PER_GIB }

  // ---- What one operation does to a namespace's usage ----

  lemma InNamespacePut(manifests: map<BlobKey, Manifest>, m: Manifest, id: NamespaceId)
    ensures
      var key := (m.namespace, m.blobId);
      InNamespace(manifests[key := m], id)
      == if id == m.namespace then (InNamespace(manifests, id) - {key})[key := m] else InNamespace(manifests, id)
  {}

  lemma InNamespaceDelete(manifests: map<BlobKey, Manifest>, key: BlobKey, id: NamespaceId)
    ensures InNamespace(manifests - {key}, id)
         == if id == key.0 then InNamespace(manifests, id) - {key} else InNamespace(manifests, id)
  {}

  lemma InNamespaceAt(manifests: map<BlobKey, Manifest>, key: BlobKey)
    ensures key in InNamespace(manifests, key.0) <==> key in manifests
    ensures key in manifests ==> InNamespace(manifests, key.0)[key] == manifests[key]
  {}

  /** A put adds one object of its length, in place of the one it overwrites; other namespaces keep theirs. */
  lemma PutMetered(manifests: map<BlobKey, Manifest>, m: Manifest, id: NamespaceId)
    ensures
      var key := (m.namespace, m.blobId);
      var before, after := InNamespace(manifests, id), InNamespace(manifests[key := m], id);
      if id != m.namespace then after == before
      else if key in manifests then
        && |after| == |before|
        && TotalBytes(after) == TotalBytes(before) - manifests[key].ciphertextLen + m.ciphertextLen
      else |after| == |before| + 1 && TotalBytes(after) == TotalBytes(before) + m.ciphertextLen
  {
    hide TotalBytes, InNamespace;
    var key := (m.namespace, m.blobId);
    InNamespacePut(manifests, m, id);
    if id == m.namespace {
      InNamespaceAt(manifests, key);
      var before := InNamespace(manifests, id);
      TotalBytesAdd(before - {key}, key, m);
      if key in manifests {
        TotalBytesRemove(before, key);
      } else {
        RemoveAbsent(before, key);
      }
    }
  }

  /** A delete takes exactly its object away, and deleting again changes nothing. */
  lemma DeleteMetered(manifests: map<BlobKey, Manifest>, key: BlobKey, id: NamespaceId)
    ensures
      var before, after := InNamespace(manifests, id), InNamespace(manifests - {key}, id);
      if id == key.0 && key in manifests then
        |after| == |before| - 1 && TotalBytes(after) == TotalBytes(before) - manifests[key].ciphertextLen
      else after == before
  {
    hide TotalBytes, InNamespace;
    InNamespaceDelete(manifests, key, id);
    InNamespaceAt(manifests, key);
    if key in manifests {
      TotalBytesRemove(InNamespace(manifests, key.0), key);
    } else {
      RemoveAbsent(InNamespace(manifests, key.0), key);
    }
  }

  // ---- The statement of one app ----

  function Within(manifests: map<BlobKey, Manifest>, spaces: set<NamespaceId>): map<BlobKey, Manifest> {
    map key | key in manifests && key.0 in spaces :: manifests[key]
  }

  function SpacesOf(namespaces: map<NamespaceId, Namespace>, app: AppId): set<NamespaceId> {
    set id | id in namespaces && namespaces[id].appId == app
  }

  lemma {:induction false} TotalBytesUnion(a: map<BlobKey, Manifest>, b: map<BlobKey, Manifest>)
    requires a.Keys !! b.Keys
    ensures TotalBytes(a + b) == TotalBytes(a) + TotalBytes(b)
    decreases |b|
  {
    hide TotalBytes;
    if b == map[] {
      assert a + b == a;
      NoBytes();
    } else {
      var key :| key in b;
      UnionWithout(a, b, key);
      TotalBytesRemove(b, key);
      TotalBytesUnion(a, b - {key});
      TotalBytesRemove(a + b, key);
    }
  }

  lemma UnionSize(a: map<BlobKey, Manifest>, b: map<BlobKey, Manifest>)
    requires a.Keys !! b.Keys
    ensures |a + b| == |a| + |b|
  {
    assert (a + b).Keys == a.Keys + b.Keys;
  }

  lemma NoBytes()
    ensures TotalBytes(map[]) == 0
  {}

  lemma UnionWithout(a: map<BlobKey, Manifest>, b: map<BlobKey, Manifest>, key: BlobKey)
    requires a.Keys !! b.Keys && key in b
    ensures a + b - {key} == a + (b - {key}) && a.Keys !! (b - {key}).Keys
    ensures key in a + b && (a + b)[key] == b[key]
  {}

  lemma WithinSplits(manifests: map<BlobKey, Manifest>, spaces: set<NamespaceId>, id: NamespaceId)
    requires id !in spaces
    ensures Within(manifests, spaces + {id}) == Within(manifests, spaces) + InNamespace(manifests, id)
    ensures Within(manifests, spaces).Keys !! InNamespace(manifests, id).Keys
  {}

  lemma WithinStep(manifests: map<BlobKey, Manifest>, spaces: set<NamespaceId>, id: NamespaceId)
    requires id !in spaces
    ensures
      var before, after, own := Within(manifests, spaces), Within(manifests, spaces + {id}), InNamespace(manifests, id);
      TotalBytes(after) == TotalBytes(before) + TotalBytes(own) && |after| == |before| + |own|
  {
    hide *;
    WithinSplits(manifests, spaces, id);
    TotalBytesUnion(Within(manifests, spaces), InNamespace(manifests, id));
    UnionSize(Within(manifests, spaces), InNamespace(manifests, id));
  }

  lemma WrapSum(a: nat, b: nat)
    ensures Wrap(Wrap(a) + Wrap(b)) == Wrap(a + b)
  {
    WrapAdd(a, Wrap(b));
    WrapAdd(b, a);
  }

  /** The lines list each of these namespaces once, with what the store meters for it. */
  ghost predicate LinesFor(
    lines: seq<NamespaceLine>, manifests: map<BlobKey, Manifest>, spaces: set<NamespaceId>)
  {
    && (forall i, j :: 0 <= i < j < |lines| ==> lines[i].namespace != lines[j].namespace)
    && (forall id :: id in spaces <==> exists i :: 0 <= i < |lines| && lines[i].namespace == id)
    && forall i :: 0 <= i < |lines| ==>
         NamespaceUsage(lines[i].bytes, lines[i].objects) == UsageIn(manifests, lines[i].namespace)
  }

  lemma LinesForSnoc(
    lines: seq<NamespaceLine>, manifests: map<BlobKey, Manifest>, spaces: set<NamespaceId>, id: NamespaceId)
    requires LinesFor(lines, manifests, spaces) && id !in spaces
    ensures
      var usage := UsageIn(manifests, id);
      LinesFor(lines + [NamespaceLine(id, usage.bytes, usage.objects)], manifests, spaces + {id})
  {
    hide UsageIn;
    var usage := UsageIn(manifests, id);
    var lines' := lines + [NamespaceLine(id, usage.bytes, usage.objects)];
    forall x
      ensures x in spaces + {id} <==> exists i :: 0 <= i < |lines'| && lines'[i].namespace == x
    {
      if x == id {
        assert lines'[|lines|].namespace == x;
      } else if x in spaces {
        var i :| 0 <= i < |lines| && lines[i].namespace == x;
        assert lines'[i].namespace == x;
      }
    }
  }

  /** The totals over a set of namespaces, in `u64`. */
  ghost predicate TotalsFor(bytes: nat, objects: nat, manifests: map<BlobKey, Manifest>, spaces: set<NamespaceId>) {
    bytes == Wrap(TotalBytes(Within(manifests, spaces))) && objects == Wrap(|Within(manifests, spaces)|)
  }

  lemma TotalsStep(bytes: nat, objects: nat, manifests: map<BlobKey, Manifest>,
    spaces: set<NamespaceId>, id: NamespaceId)
    requires TotalsFor(bytes, objects, manifests, spaces) && id !in spaces
    ensures
      var usage := UsageIn(manifests, id);
      TotalsFor(Wrap(bytes + usage.bytes), Wrap(objects + usage.objects), manifests, spaces + {id})
  {
    hide Wrap, TotalBytes, InNamespace, Within;
    WithinStep(manifests, spaces, id);
    WrapSum(TotalBytes(Within(manifests, spaces)), TotalBytes(InNamespace(manifests, id)));
    WrapSum(|Within(manifests, spaces)|, |InNamespace(manifests, id)|);
  }

  lemma NoTotals(manifests: map<BlobKey, Manifest>)
    ensures TotalsFor(0, 0, manifests, {}) && LinesFor([], manifests, {})
  {
    assert Within(manifests, {}) == map[];
  }

  /** The app's namespaces among the first i ids. */
  ghost predicate Covers(
    spaces: set<NamespaceId>, ids: seq<NamespaceId>, i: nat, namespaces: map<NamespaceId, Namespace>, app: AppId)
    requires i <= |ids|
  {
    forall id :: id in spaces <==> id in ids[..i] && id in namespaces && namespaces[id].appId == app
  }

  lemma CoversNone(ids: seq<NamespaceId>, namespaces: map<NamespaceId, Namespace>, app: AppId)
    ensures Covers({}, ids, 0, namespaces, app)
  {}

  lemma CoversStep(
    spaces: set<NamespaceId>, ids: seq<NamespaceId>, i: nat, namespaces: map<NamespaceId, Namespace>, app: AppId)
    requires i < |ids| && Covers(spaces, ids, i, namespaces, app)
    requires forall id :: id in ids <==> id in namespaces
    requires forall j, k :: 0 <= j < k < |ids| ==> ids[j] != ids[k]
    ensures ids[i] in namespaces && ids[i] !in spaces
    ensures Covers(if namespaces[ids[i]].appId == app then spaces + {ids[i]} else spaces, ids, i + 1, namespaces, app)
  {
    assert ids[i] in ids && ids[..i + 1] == ids[..i] + [ids[i]];
  }

  lemma CoversAll(
    spaces: set<NamespaceId>, ids: seq<NamespaceId>, namespaces: map<NamespaceId, Namespace>, app: AppId)
    requires Covers(spaces, ids, |ids|, namespaces, app)
    requires forall id :: id in ids <==> id in namespaces
    ensures spaces == SpacesOf(namespaces, app)
  {
    assert ids[..|ids|] == ids;
  }

  /** One line for each namespace of the app, and the running totals. */
  method Tally(metadata: MemoryMetadataStore, app: AppId)
    returns (lines: seq<NamespaceLine>, totalBytes: nat, totalObjects: nat)
    ensures LinesFor(lines, metadata.manifests, SpacesOf(metadata.namespaces, app))
    ensures TotalsFor(totalBytes, totalObjects, metadata.manifests, SpacesOf(metadata.namespaces, app))
  {
    hide *;
    lines, totalBytes, totalObjects := [], 0, 0;
    var ids := metadata.ListNamespaces();
    ghost var spaces: set<NamespaceId> := {};
    NoTotals(metadata.manifests);
    CoversNone(ids, metadata.namespaces, app);
    for i := 0 to |ids|
      invariant Covers(spaces, ids, i, metadata.namespaces, app)
      invariant LinesFor(lines, metadata.manifests, spaces)
      invariant TotalsFor(totalBytes, totalObjects, metadata.manifests, spaces)
    {
      var ns := ids[i];
      CoversStep(spaces, ids, i, metadata.namespaces, app);
      if metadata.namespaces[ns].appId != app {
        continue;
      }
      var usage := metadata.UsageOf(ns);
      LinesForSnoc(lines, metadata.manifests, spaces, ns);
      TotalsStep(totalBytes, totalObjects, metadata.manifests, spaces, ns);
      totalBytes := Wrap(totalBytes + usage.bytes);
      totalObjects := Wrap(totalObjects + usage.objects);
      lines := lines + [NamespaceLine(ns, usage.bytes, usage.objects)];
      spaces := spaces + {ns};
    }
    CoversAll(spaces, ids, metadata.namespaces, app);
  }

  lemma SpacesOwned(manifests: map<BlobKey, Manifest>, namespaces: map<NamespaceId, Namespace>, app: AppId)
    ensures forall id :: id in SpacesOf(namespaces, app) <==> id in namespaces && namespaces[id].appId == app
    ensures Within(manifests, SpacesOf(namespaces, app))
         == map key | key in manifests && key.0 in namespaces && namespaces[key.0].appId == app :: manifests[key]
  {}

  lemma LinesOwned(lines: seq<NamespaceLine>, manifests: map<BlobKey, Manifest>, spaces: set<NamespaceId>)
    requires LinesFor(lines, manifests, spaces)
    ensures forall id :: id in spaces <==> exists i :: 0 <= i < |lines| && lines[i].namespace == id
  {}

  /** The statement's totals are the sums over all manifests of the app's namespaces, line by line what the
      store meters. */
  method Execute(metadata: MemoryMetadataStore, app: AppId) returns (r: PortResult<UsageStatement>)
    ensures app !in metadata.contracts ==> r == Err(NotFound)
    ensures app in metadata.contracts ==>
      && r.Ok?
      && r.value.appId == app && r.value.quotaMaxBytes == metadata.contracts[app].quota.maxBytes
      && LinesFor(r.value.lines, metadata.manifests, SpacesOf(metadata.namespaces, app))
      && (forall id :: (exists i :: 0 <= i < |r.value.lines| && r.value.lines[i].namespace == id)
                       <==> id in metadata.namespaces && metadata.namespaces[id].appId == app)
      && TotalsFor(r.value.totalBytes, r.value.totalObjects, metadata.manifests, SpacesOf(metadata.namespaces, app))
      && Within(metadata.manifests, SpacesOf(metadata.namespaces, app))
           == (map key | key in metadata.manifests && key.0 in metadata.namespaces
                         && metadata.namespaces[key.0].appId == app :: metadata.manifests[key])
      && r.value.estimatedCostMicros == Cost(r.value.totalBytes)
  {
    SpacesOwned(metadata.manifests, metadata.namespaces, app);
    hide *;
    if app !in metadata.contracts {
      return Err(NotFound);
    }
    var lines, totalBytes, totalObjects := Tally(metadata, app);
    LinesOwned(lines, metadata.manifests, SpacesOf(metadata.namespaces, app));
    return Ok(UsageStatement(
      app, lines, totalBytes, totalObjects, metadata.contracts[app].quota.maxBytes, Cost(totalBytes)));
  }

  /** The estimate is the exact price of 20_000 micros for each GiB, rounded down, for exactly the totals whose
      product fits in 64 bits; beyond them it is stuck at the largest such price. */
  lemma CostExact(totalBytes: nat)
    ensures totalBytes * 20_000 < 0x1_0000_0000_0000_0000 ==>
      Cost(totalBytes) * 0x4000_0000 <= totalBytes * 20_000 < (Cost(totalBytes) + 1) * 0x4000_0000
    ensures totalBytes * 20_000 >= 0x1_0000_0000_0000_0000 ==> Cost(totalBytes) == 0xFFFF_FFFF_FFFF_FFFF / 0x4000_0000
  {}

  /** Together: while the true total stays in range, the bill is for exactly the bytes the app stores. */
  lemma BillIsExact(
    manifests: map<BlobKey, Manifest>, namespaces: map<NamespaceId, Namespace>, app: AppId, bytes: nat, objects: nat)
    requires TotalsFor(bytes, objects, manifests, SpacesOf(namespaces, app))
    requires TotalBytes(Within(manifests, SpacesOf(namespaces, app))) * 20_000 < 0x1_0000_0000_0000_0000
    ensures
      var stored := TotalBytes(Within(manifests, SpacesOf(namespaces, app)));
      && bytes == stored
      && Cost(bytes) * 0x4000_0000 <= stored * 20_000 < (Cost(bytes) + 1) * 0x4000_0000
  {
    WrapSmall(TotalBytes(Within(manifests, SpacesOf(namespaces, app))));
    CostExact(bytes);
  }
}
