/** Version pruning of one object group: newest `keepVersions` kept, older ones deleted once past their hold. */
module PruneVersions {
  import opened Prelude
  import opened Domain
  import opened Stores

  datatype PruneReport = PruneReport(objectId: Str, versions: nat, kept: nat, pruned: nat, held: nat)

  // ---- What pruning a group means, for any order the store lists it in ----

  /** The versions of one object: the manifests of the namespace tagged with its id. */
  ghost function Group(manifests: map<BlobKey, Manifest>, ns: NamespaceId, objectId: Str): set<Manifest> {
    set key | key in manifests && key.0 == ns && manifests[key].objectId == Some(objectId) :: manifests[key]
  }

  /** The versions still under their hold. */
  ghost function Held(group: set<Manifest>, p: RetentionPolicy, now: Timestamp): set<Manifest> {
    set m | m in group && !p.HoldElapsed(m.createdAt, now)
  }

  /** Everything in `top` is at least as new as everything else in the group. */
  ghost predicate Newest(top: set<Manifest>, group: set<Manifest>) {
    top <= group && forall a, b :: a in top && b in group - top ==> a.createdAt >= b.createdAt
  }

  /** How many versions survive. */
  ghost function SurvivorCount(group: set<Manifest>, p: RetentionPolicy, now: Timestamp): nat {
    if p.keepVersions == 0 then |group| else Min(|group|, Max(p.keepVersions, |Held(group, p, now)|))
  }

  ghost predicate Pruned(group: set<Manifest>, survivors: set<Manifest>, p: RetentionPolicy, now: Timestamp) {
    Newest(survivors, group) && |survivors| == SurvivorCount(group, p, now)
  }

  ghost function KeysOf(ns: NamespaceId, versions: set<Manifest>): set<BlobKey> {
    set m | m in versions :: (ns, m.blobId)
  }

  /** The anchor without the shards of these blobs. */
  ghost function WithoutBlobs(objects: map<ShardRef, Bytes>, gone: set<BlobKey>): map<ShardRef, Bytes> {
    map at | at in objects && (at.namespace, at.blobId) !in gone :: objects[at]
  }

  // ---- The sort ----

  ghost predicate Descending(versions: seq<Manifest>) {
    forall i, j :: 0 <= i < j < |versions| ==> versions[i].createdAt >= versions[j].createdAt
  }

  ghost predicate NoRepeats(versions: seq<Manifest>) {
    forall i, j :: 0 <= i < j < |versions| ==> versions[i] != versions[j]
  }

  ghost function Elements(versions: seq<Manifest>): set<Manifest> { set m | m in versions }

  lemma {:induction false} ElementCount(versions: seq<Manifest>)
    requires NoRepeats(versions)
    ensures |Elements(versions)| == |versions|
  {
    if versions != [] {
      var front, last := versions[..|versions| - 1], versions[|versions| - 1];
      ElementCount(front);
      assert last !in front;
      assert Elements(versions) == Elements(front) + {last};
    } else {
      assert Elements(versions) == {};
    }
  }

  lemma InsertedSorted(sorted: seq<Manifest>, m: Manifest, p: nat)
    requires Descending(sorted) && NoRepeats(sorted) && m !in sorted && p <= |sorted|
    requires p > 0 ==> sorted[p - 1].createdAt >= m.createdAt
    requires p < |sorted| ==> sorted[p].createdAt < m.createdAt
    ensures
      var s := sorted[..p] + [m] + sorted[p..];
      Descending(s) && NoRepeats(s) && Elements(s) == Elements(sorted) + {m}
  {
    var s := sorted[..p] + [m] + sorted[p..];
    forall i, j | 0 <= i < j < |s|
      ensures s[i].createdAt >= s[j].createdAt && s[i] != s[j]
    {
      var a, b := if i < p then i else i - 1, if j < p then j else j - 1;
    }
    forall x
      ensures x in Elements(s) <==> x in Elements(sorted) + {m}
    {
      if x in sorted {
        var i :| 0 <= i < |sorted| && sorted[i] == x;
        assert s[if i < p then i else i + 1] == x;
      }
      assert s[p] == m;
    }
  }

  /** Newest first. */
  method SortNewestFirst(versions: seq<Manifest>) returns (sorted: seq<Manifest>)
    requires NoRepeats(versions)
    ensures Descending(sorted) && NoRepeats(sorted) && Elements(sorted) == Elements(versions)
    ensures |sorted| == |versions|
  {
    sorted := [];
    for i := 0 to |versions|
      invariant Descending(sorted) && NoRepeats(sorted) && Elements(sorted) == Elements(versions[..i])
      invariant |sorted| == i
    {
      var p := |sorted|;
      while p > 0 && sorted[p - 1].createdAt < versions[i].createdAt
        invariant 0 <= p <= |sorted|
        invariant p < |sorted| ==> sorted[p].createdAt < versions[i].createdAt
      {
        p := p - 1;
      }
      assert versions[i] !in versions[..i];
      assert versions[i] !in Elements(sorted);
      InsertedSorted(sorted, versions[i], p);
      assert Elements(versions[..i + 1]) == Elements(versions[..i]) + {versions[i]};
      sorted := sorted[..p] + [versions[i]] + sorted[p..];
    }
    assert versions[..|versions|] == versions;
  }

  // ---- The sweep over a sorted group ----

  /** The length of the prefix still under hold. */
  function HoldLine(versions: seq<Manifest>, p: RetentionPolicy, now: Timestamp): (n: nat)
    ensures n <= |versions|
  {
    if versions == [] || p.HoldElapsed(versions[0].createdAt, now) then 0
    else 1 + HoldLine(versions[1..], p, now)
  }

  /** Newest first, the versions under hold are exactly the first ones. */
  lemma {:induction false} HoldLineSplits(versions: seq<Manifest>, p: RetentionPolicy, now: Timestamp, i: nat)
    requires Descending(versions) && i < |versions|
    ensures p.HoldElapsed(versions[i].createdAt, now) <==> i >= HoldLine(versions, p, now)
  {
    if p.HoldElapsed(versions[0].createdAt, now) {
      HoldMonotone(p, versions[0].createdAt, versions[i].createdAt, now, now);
    } else if i > 0 {
      HoldLineSplits(versions[1..], p, now, i - 1);
    }
  }

  /** Where the survivors of a sorted group end. */
  function Cut(versions: seq<Manifest>, p: RetentionPolicy, now: Timestamp): (n: nat)
    ensures n <= |versions|
  {
    Min(|versions|, Max(p.keepVersions, HoldLine(versions, p, now)))
  }

  /** The survivors before the cut are what pruning the group means. */
  lemma CutPrunes(versions: seq<Manifest>, group: set<Manifest>, p: RetentionPolicy, now: Timestamp)
    requires p.keepVersions > 0
    requires Descending(versions) && NoRepeats(versions) && Elements(versions) == group
    ensures Pruned(group, Elements(versions[..Cut(versions, p, now)]), p, now)
    ensures |group| == |versions| && |Elements(versions[..Cut(versions, p, now)])| == Cut(versions, p, now)
  {
    var cut, line := Cut(versions, p, now), HoldLine(versions, p, now);
    ElementCount(versions);
    ElementCount(versions[..cut]);
    ElementCount(versions[..line]);
    forall m
      ensures m in Held(group, p, now) <==> m in Elements(versions[..line])
    {
      if m in group {
        var i :| 0 <= i < |versions| && versions[i] == m;
        HoldLineSplits(versions, p, now, i);
      }
    }
    assert Held(group, p, now) == Elements(versions[..line]);
    var top := Elements(versions[..cut]);
    forall a, b | a in top && b in group - top
      ensures a.createdAt >= b.createdAt
    {
      var i :| 0 <= i < cut && versions[i] == a;
      var j :| 0 <= j < |versions| && versions[j] == b;
      assert j >= cut;
    }
  }

  /** A sweep may stop anywhere: only removable blobs were touched, and no manifest went before its shards. */
  ghost predicate PartlyDone(
    gone: set<BlobKey>, objects: map<ShardRef, Bytes>, manifests: map<BlobKey, Manifest>,
    objects': map<ShardRef, Bytes>, manifests': map<BlobKey, Manifest>)
  {
    && WithoutBlobs(objects', gone) == WithoutBlobs(objects, gone)
    && (forall at :: at in objects' ==> at in objects && objects'[at] == objects[at])
    && manifests' - gone == manifests - gone
    && (forall key :: key in manifests' ==> key in manifests && manifests'[key] == manifests[key])
    && forall at :: at in objects' && (at.namespace, at.blobId) in manifests ==> (at.namespace, at.blobId) in manifests'
  }

  /** The keys of the versions from the cut up to `to`. */
  ghost function DroppedKeys(ns: NamespaceId, versions: seq<Manifest>, cut: nat, to: nat): set<BlobKey>
    requires to <= |versions|
  {
    if cut <= to then KeysOf(ns, Elements(versions[cut..to])) else {}
  }

  lemma DropStep(
    ns: NamespaceId, versions: seq<Manifest>, cut: nat, i: nat,
    objects: map<ShardRef, Bytes>, manifests: map<BlobKey, Manifest>)
    requires cut <= i < |versions|
    ensures
      var gone, next := DroppedKeys(ns, versions, cut, i), DroppedKeys(ns, versions, cut, i + 1);
      && next == gone + {(ns, versions[i].blobId)}
      && WithoutBlobs(objects, next) == WithoutBlob(WithoutBlobs(objects, gone), ns, versions[i].blobId)
      && manifests - next == manifests - gone - {(ns, versions[i].blobId)}
  {
    var gone, next := DroppedKeys(ns, versions, cut, i), DroppedKeys(ns, versions, cut, i + 1);
    var a, b := Elements(versions[cut..i]), Elements(versions[cut..i + 1]);
    assert versions[cut..i + 1] == versions[cut..i] + [versions[i]];
    assert b == a + {versions[i]};
    assert next == gone + {(ns, versions[i].blobId)} by {
      forall key
        ensures key in next <==> key in gone || key == (ns, versions[i].blobId)
      {
        assert versions[i] in b;
        if key in next {
          var m :| m in b && key == (ns, m.blobId);
        }
        if key in gone {
          var m :| m in a && key == (ns, m.blobId);
          assert m in b;
        }
      }
    }
    hide DroppedKeys, KeysOf, Elements;
  }

  lemma KeepStep(ns: NamespaceId, versions: seq<Manifest>, cut: nat, i: nat)
    requires i <= cut <= |versions|
    ensures DroppedKeys(ns, versions, cut, i) == {}
  {
    if i == cut {
      assert versions[cut..cut] == [] && Elements([]) == {};
    }
  }

  lemma DroppedGrow(ns: NamespaceId, versions: seq<Manifest>, cut: nat, i: nat)
    requires cut <= i < |versions|
    ensures DroppedKeys(ns, versions, cut, i) <= DroppedKeys(ns, versions, cut, |versions|)
    ensures (ns, versions[i].blobId) in DroppedKeys(ns, versions, cut, |versions|)
  {
    var part, all := Elements(versions[cut..i]), Elements(versions[cut..]);
    assert versions[cut..] == versions[cut..i] + versions[i..];
    assert part <= all && versions[i] in all by {
      assert versions[cut..][i - cut] == versions[i];
    }
  }

  /** A delete that failed at a removable blob stopped somewhere allowed. */
  lemma StoppedPartly(
    removable: set<BlobKey>, gone: set<BlobKey>, key: BlobKey,
    objects: map<ShardRef, Bytes>, manifests: map<BlobKey, Manifest>, objects': map<ShardRef, Bytes>)
    requires gone <= removable && key in removable
    requires WithoutBlob(objects', key.0, key.1) == WithoutBlob(WithoutBlobs(objects, gone), key.0, key.1)
    requires forall at :: at in objects' ==>
      at in WithoutBlobs(objects, gone) && objects'[at] == WithoutBlobs(objects, gone)[at]
    ensures PartlyDone(removable, objects, manifests, objects', manifests - gone)
  {
    assert WithoutBlobs(objects', removable) == WithoutBlobs(objects, removable) by {
      forall at | at in objects && (at.namespace, at.blobId) !in removable
        ensures at in objects'
      {
        assert at in WithoutBlob(WithoutBlobs(objects, gone), key.0, key.1);
      }
    }
  }

  lemma MinStep(i: nat, limit: nat)
    ensures i < limit ==> Min(i, limit) == i && Min(i + 1, limit) == i + 1
    ensures i >= limit ==> Min(i, limit) == limit && Min(i + 1, limit) == limit
  {}

  lemma CutBounds(versions: seq<Manifest>, p: RetentionPolicy, now: Timestamp)
    ensures Cut(versions, p, now) <= |versions| && Min(0, p.keepVersions) == Min(0, Cut(versions, p, now)) == 0
    ensures Min(|versions|, p.keepVersions) <= Cut(versions, p, now) == Min(|versions|, Cut(versions, p, now))
  {}

  lemma CutSplits(versions: seq<Manifest>, p: RetentionPolicy, now: Timestamp, i: nat)
    requires Descending(versions) && i < |versions|
    ensures i >= Cut(versions, p, now) <==> i >= p.keepVersions && p.HoldElapsed(versions[i].createdAt, now)
  {
    HoldLineSplits(versions, p, now, i);
  }

  /** What a sweep that ran to the end leaves of the group, and what its report counts. */
  ghost predicate GroupPruned(
    manifests: map<BlobKey, Manifest>, manifests': map<BlobKey, Manifest>, objects: map<ShardRef, Bytes>,
    objects': map<ShardRef, Bytes>, ns: NamespaceId, objectId: Str, p: RetentionPolicy, now: Timestamp,
    report: PruneReport)
  {
    var group, survivors := Group(manifests, ns, objectId), Group(manifests', ns, objectId);
    var gone := KeysOf(ns, group - survivors);
    && Pruned(group, survivors, p, now)
    && manifests' == manifests - gone
    && objects' == WithoutBlobs(objects, gone)
    && report.objectId == objectId && report.versions == |group|
    && report.kept == (if p.keepVersions == 0 then |group| else Min(|group|, p.keepVersions))
    && report.kept + report.held == |survivors| && report.kept + report.held + report.pruned == |group|
  }

  /** Removing the keys of some versions of the group leaves the others. */
  lemma GroupWithout(manifests: map<BlobKey, Manifest>, ns: NamespaceId, objectId: Str, survivors: set<Manifest>)
    requires Keyed(manifests) && survivors <= Group(manifests, ns, objectId)
    ensures Group(manifests - KeysOf(ns, Group(manifests, ns, objectId) - survivors), ns, objectId) == survivors
  {
    var group := Group(manifests, ns, objectId);
    var gone := KeysOf(ns, group - survivors);
    forall m | m in group
      ensures (ns, m.blobId) in manifests && manifests[(ns, m.blobId)] == m
      ensures m in survivors <==> (ns, m.blobId) !in gone
    {
      var key :| key in manifests && key.0 == ns && manifests[key] == m;
      assert key == (ns, m.blobId);
      if (ns, m.blobId) in gone {
        var other :| other in group - survivors && other.blobId == m.blobId;
        var key2 :| key2 in manifests && key2.0 == ns && manifests[key2] == other;
        assert key2 == key;
      }
    }
    var after := Group(manifests - gone, ns, objectId);
    assert after <= group;
    forall m | m in survivors
      ensures m in after
    {
      assert (ns, m.blobId) in manifests - gone;
    }
  }

  /** The versions among some blobs of the namespace. */
  ghost function Tagged(manifests: map<BlobKey, Manifest>, ns: NamespaceId, objectId: Str, blobs: seq<BlobId>)
    : set<Manifest>
  {
    set key | key in manifests && key.0 == ns && key.1 in blobs && manifests[key].objectId == Some(objectId)
      :: manifests[key]
  }

  lemma TaggedStep(
    manifests: map<BlobKey, Manifest>, ns: NamespaceId, objectId: Str, blobs: seq<BlobId>, i: nat,
    versions: seq<Manifest>)
    requires Keyed(manifests) && Lists(blobs, manifests, ns) && i < |blobs|
    requires NoRepeats(versions) && Elements(versions) == Tagged(manifests, ns, objectId, blobs[..i])
    ensures
      var key := (ns, blobs[i]);
      && key in manifests
      && var versions' := if manifests[key].objectId == Some(objectId) then versions + [manifests[key]] else versions;
         NoRepeats(versions') && Elements(versions') == Tagged(manifests, ns, objectId, blobs[..i + 1])
  {
    var key := (ns, blobs[i]);
    assert blobs[i] in blobs;
    assert blobs[..i + 1] == blobs[..i] + [blobs[i]];
    var m := manifests[key];
    var before, after := Tagged(manifests, ns, objectId, blobs[..i]), Tagged(manifests, ns, objectId, blobs[..i + 1]);
    if m.objectId == Some(objectId) {
      assert after == before + {m};
      assert m !in before;
    } else {
      assert after == before;
    }
  }

  class PruneVersions {
    const metadata: MemoryMetadataStore
    const anchor: BlobAnchor

    constructor (metadata: MemoryMetadataStore, anchor: BlobAnchor)
      ensures this.metadata == metadata && this.anchor == anchor
    {
      this.metadata, this.anchor := metadata, anchor;
    }

    /** Every version of the object, in the order the store lists its blobs. */
    method Collect(ns: NamespaceId, objectId: Str) returns (versions: seq<Manifest>)
      requires Keyed(metadata.manifests)
      ensures NoRepeats(versions) && Elements(versions) == Group(metadata.manifests, ns, objectId)
    {
      versions := [];
      var blobs := metadata.ListBlobs(ns);
      for i := 0 to |blobs|
        invariant NoRepeats(versions)
        invariant Elements(versions) == Tagged(metadata.manifests, ns, objectId, blobs[..i])
      {
        TaggedStep(metadata.manifests, ns, objectId, blobs, i, versions);
        hide NoRepeats, Elements, Tagged;
        var found := metadata.GetManifest(ns, blobs[i]);
        if found.Some? && found.value.objectId == Some(objectId) {
          versions := versions + [found.value];
        }
      }
      assert blobs[..|blobs|] == blobs;
    }

    /** Delete one version: its shards, then its manifest. */
    method Drop(ns: NamespaceId, versions: seq<Manifest>, ghost cut: nat, i: nat,
      ghost objects: map<ShardRef, Bytes>, ghost manifests: map<BlobKey, Manifest>) returns (r: PortResult<()>)
      requires cut <= i < |versions|
      requires metadata.manifests == manifests - DroppedKeys(ns, versions, cut, i)
      requires anchor.objects == WithoutBlobs(objects, DroppedKeys(ns, versions, cut, i))
      modifies metadata`manifests, anchor`objects
      ensures r.Ok? ==>
        && metadata.manifests == manifests - DroppedKeys(ns, versions, cut, i + 1)
        && anchor.objects == WithoutBlobs(objects, DroppedKeys(ns, versions, cut, i + 1))
      ensures r.Err? ==>
        PartlyDone(DroppedKeys(ns, versions, cut, |versions|), objects, manifests, anchor.objects, metadata.manifests)
      ensures anchor.reliable ==> r.Ok?
    {
      hide *;
      DropStep(ns, versions, cut, i, objects, manifests);
      DroppedGrow(ns, versions, cut, i);
      var deleted := anchor.DeleteBlob(ns, versions[i].blobId);
      if deleted.Err? {
        StoppedPartly(DroppedKeys(ns, versions, cut, |versions|), DroppedKeys(ns, versions, cut, i),
          (ns, versions[i].blobId), objects, manifests, anchor.objects);
        return Err(deleted.error);
      }
      metadata.DeleteManifest(ns, versions[i].blobId);
      return Ok(());
    }

    /** Keep, hold or delete each version in turn; counts the versions kept, pruned and held. */
    method Sweep(ns: NamespaceId, versions: seq<Manifest>, p: RetentionPolicy, now: Timestamp)
      returns (r: PortResult<(nat, nat, nat)>)
      requires Descending(versions)
      modifies metadata`manifests, anchor`objects
      ensures
        var cut := Cut(versions, p, now);
        var gone := DroppedKeys(ns, versions, cut, |versions|);
        match r
        case Ok((kept, pruned, held)) =>
          && metadata.manifests == old(metadata.manifests) - gone
          && anchor.objects == WithoutBlobs(old(anchor.objects), gone)
          && kept == Min(|versions|, p.keepVersions) && kept + held == cut && cut + pruned == |versions|
        case Err(_) =>
          PartlyDone(gone, old(anchor.objects), old(metadata.manifests), anchor.objects, metadata.manifests)
      ensures anchor.reliable ==> r.Ok?
    {
      var kept, pruned, held := 0, 0, 0;
      ghost var cut := Cut(versions, p, now);
      ghost var objects, manifests := anchor.objects, metadata.manifests;
      KeepStep(ns, versions, cut, 0);
      assert WithoutBlobs(objects, {}) == objects && manifests - {} == manifests;
      CutBounds(versions, p, now);
      hide *;
      for i := 0 to |versions|
        invariant kept <= i && kept == Min(i, p.keepVersions)
        invariant kept + held == Min(i, cut) && kept + held + pruned == i
        invariant metadata.manifests == manifests - DroppedKeys(ns, versions, cut, i)
        invariant anchor.objects == WithoutBlobs(objects, DroppedKeys(ns, versions, cut, i))
      {
        CutSplits(versions, p, now, i);
        MinStep(i, p.keepVersions);
        MinStep(i, cut);
        if i < cut {
          KeepStep(ns, versions, cut, i);
          KeepStep(ns, versions, cut, i + 1);
        }
        if i < p.keepVersions {
          kept := kept + 1;
          continue;
        }
        if p.HoldElapsed(versions[i].createdAt, now) {
          var dropped := Drop(ns, versions, cut, i, objects, manifests);
          if dropped.Err? {
            return Err(dropped.error);
          }
          pruned := pruned + 1;
        } else {
          held := held + 1;
        }
      }
      return Ok((kept, pruned, held));
    }

    method Execute(ns: NamespaceId, objectId: Str, now: Timestamp) returns (r: PortResult<PruneReport>)
      requires Keyed(metadata.manifests)
      modifies metadata`manifests, anchor`objects
      ensures
        if ns !in metadata.namespaces || metadata.namespaces[ns].appId !in metadata.contracts then
          r == Err(NotFound) && metadata.manifests == old(metadata.manifests) && anchor.objects == old(anchor.objects)
        else
          var p := metadata.contracts[metadata.namespaces[ns].appId].retention;
          match r
          case Ok(report) =>
            GroupPruned(old(metadata.manifests), metadata.manifests, old(anchor.objects), anchor.objects,
              ns, objectId, p, now, report)
          case Err(_) =>
            && !anchor.reliable
            && exists survivors :: Pruned(Group(old(metadata.manifests), ns, objectId), survivors, p, now)
                 && PartlyDone(KeysOf(ns, Group(old(metadata.manifests), ns, objectId) - survivors),
                      old(anchor.objects), old(metadata.manifests), anchor.objects, metadata.manifests)
    {
      if ns !in metadata.namespaces {
        return Err(NotFound);
      }
      var app := metadata.namespaces[ns].appId;
      if app !in metadata.contracts {
        return Err(NotFound);
      }
      var p := metadata.contracts[app].retention;
      var versions := Collect(ns, objectId);
      var total := |versions|;
      ghost var objects, manifests := anchor.objects, metadata.manifests;
      if p.keepVersions == 0 {
        NothingPruned(versions, objects, manifests, ns, objectId, p, now);
        return Ok(PruneReport(objectId, total, total, 0, 0));
      }
      versions := SortNewestFirst(versions);
      CutPrunes(versions, Group(manifests, ns, objectId), p, now);
      CutDrops(versions, manifests, ns, objectId, Cut(versions, p, now));
      hide *;
      var swept := Sweep(ns, versions, p, now);
      match swept
      case Err(e) => return Err(e);
      case Ok((kept, pruned, held)) => return Ok(PruneReport(objectId, total, kept, pruned, held));
    }
  }

  lemma NothingPruned(
    versions: seq<Manifest>, objects: map<ShardRef, Bytes>, manifests: map<BlobKey, Manifest>,
    ns: NamespaceId, objectId: Str, p: RetentionPolicy, now: Timestamp)
    requires p.keepVersions == 0
    requires NoRepeats(versions) && Elements(versions) == Group(manifests, ns, objectId)
    ensures GroupPruned(manifests, manifests, objects, objects, ns, objectId, p, now,
      PruneReport(objectId, |versions|, |versions|, 0, 0))
  {
    ElementCount(versions);
    var group := Group(manifests, ns, objectId);
    assert KeysOf(ns, group - group) == {};
    assert manifests - {} == manifests && WithoutBlobs(objects, {}) == objects;
  }

  /** The keys dropped from the cut on are those of the group without the versions before it. */
  lemma CutDrops(versions: seq<Manifest>, manifests: map<BlobKey, Manifest>, ns: NamespaceId, objectId: Str, cut: nat)
    requires Keyed(manifests) && cut <= |versions|
    requires NoRepeats(versions) && Elements(versions) == Group(manifests, ns, objectId)
    ensures
      var group, survivors := Group(manifests, ns, objectId), Elements(versions[..cut]);
      var gone := DroppedKeys(ns, versions, cut, |versions|);
      && gone == KeysOf(ns, group - survivors)
      && Group(manifests - gone, ns, objectId) == survivors
  {
    var group, survivors := Group(manifests, ns, objectId), Elements(versions[..cut]);
    assert versions == versions[..cut] + versions[cut..];
    assert group - survivors == Elements(versions[cut..]);
    GroupWithout(manifests, ns, objectId, survivors);
  }
}
