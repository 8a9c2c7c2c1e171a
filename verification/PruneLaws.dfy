/** Laws of pruning: holds are respected, a second prune is idle, and an earlier prune never matters. */
module PruneLaws {
  import opened Prelude
  import opened Domain
  import opened Stores
  import opened PruneVersions

  /** A removed version is past its hold, and `keepVersions` versions at least as new survive it. */
  lemma HoldRespected(group: set<Manifest>, survivors: set<Manifest>, p: RetentionPolicy, now: Timestamp, m: Manifest)
    requires Pruned(group, survivors, p, now) && m in group - survivors
    ensures p.HoldElapsed(m.createdAt, now)
    ensures p.keepVersions > 0 && |survivors| >= p.keepVersions
    ensures forall a :: a in survivors ==> a.createdAt >= m.createdAt
  {
    SubsetSize(survivors, group - {m});
    if !p.HoldElapsed(m.createdAt, now) {
      var held := Held(group, p, now);
      forall a | a in survivors
        ensures a in held
      {
        if p.HoldElapsed(a.createdAt, now) {
          HoldMonotone(p, a.createdAt, m.createdAt, now, now);
        }
      }
      SubsetSize(survivors + {m}, held);
    }
  }

  /** Every version under hold survives. */
  lemma HeldSurvive(group: set<Manifest>, survivors: set<Manifest>, p: RetentionPolicy, now: Timestamp)
    requires Pruned(group, survivors, p, now)
    ensures Held(group, p, now) <= survivors && Held(survivors, p, now) == Held(group, p, now)
  {
    forall m | m in Held(group, p, now)
      ensures m in survivors
    {
      if m !in survivors {
        HoldRespected(group, survivors, p, now, m);
      }
    }
  }

  /** Survivors beyond `keepVersions` are all under hold, and without a limit everything survives. */
  lemma SurplusHeld(group: set<Manifest>, survivors: set<Manifest>, p: RetentionPolicy, now: Timestamp, m: Manifest)
    requires Pruned(group, survivors, p, now) && m in survivors
    requires p.keepVersions > 0 && |survivors| > p.keepVersions
    ensures !p.HoldElapsed(m.createdAt, now)
  {
    HeldSurvive(group, survivors, p, now);
    FullSubset(Held(group, p, now), survivors);
  }

  /** The versions of the object created at `from` or later. */
  ghost function Since(manifests: map<BlobKey, Manifest>, ns: NamespaceId, objectId: Str, from: Timestamp)
    : set<Manifest>
  {
    set key | key in manifests && key.0 == ns && manifests[key].objectId == Some(objectId)
              && manifests[key].createdAt >= from :: manifests[key]
  }

  /** A manifest the policy lets go: a version of this object, past its hold, with `keepVersions` others at
      least as new. */
  ghost predicate Removable(
    manifests: map<BlobKey, Manifest>, ns: NamespaceId, objectId: Str, p: RetentionPolicy, now: Timestamp,
    key: BlobKey)
    requires key in manifests
  {
    var m := manifests[key];
    && key.0 == ns && m.objectId == Some(objectId) && p.keepVersions > 0
    && (p.minDays == 0 || m.createdAt + p.minDays * 86_400_000 <= now)
    && |Since(manifests, ns, objectId, m.createdAt)| > p.keepVersions
  }

  lemma OnlyRemovable(
    manifests: map<BlobKey, Manifest>, survivors: set<Manifest>, ns: NamespaceId, objectId: Str,
    p: RetentionPolicy, now: Timestamp, key: BlobKey)
    requires Keyed(manifests) && Pruned(Group(manifests, ns, objectId), survivors, p, now)
    requires key in KeysOf(ns, Group(manifests, ns, objectId) - survivors)
    ensures key in manifests && Removable(manifests, ns, objectId, p, now, key)
  {
    var group := Group(manifests, ns, objectId);
    var m :| m in group - survivors && key == (ns, m.blobId);
    HoldRespected(group, survivors, p, now, m);
    SubsetSize(survivors + {m}, Since(manifests, ns, objectId, m.createdAt));
  }

  /** A finished prune, manifest by manifest: what went was removable, and a removable version that stays has fewer
      than `keepVersions` strictly newer ones. Without ties that settles who survives. */
  lemma PrunedByPolicy(
    manifests: map<BlobKey, Manifest>, manifests': map<BlobKey, Manifest>, objects: map<ShardRef, Bytes>,
    objects': map<ShardRef, Bytes>, ns: NamespaceId, objectId: Str, p: RetentionPolicy, now: Timestamp,
    report: PruneReport, key: BlobKey)
    requires Keyed(manifests) && key in manifests
    requires GroupPruned(manifests, manifests', objects, objects', ns, objectId, p, now, report)
    ensures key !in manifests' ==> Removable(manifests, ns, objectId, p, now, key)
    ensures key in manifests' && Removable(manifests, ns, objectId, p, now, key) ==>
      |Since(manifests, ns, objectId, manifests[key].createdAt + 1)| < p.keepVersions
  {
    var survivors := Group(manifests', ns, objectId);
    if key !in manifests' {
      OnlyRemovable(manifests, survivors, ns, objectId, p, now, key);
    } else if Removable(manifests, ns, objectId, p, now, key) {
      NewerAreFew(manifests, survivors, ns, objectId, p, now, manifests[key]);
    }
  }

  /** A prune the anchor stopped midway left every blob that was not removable as it was. */
  lemma StoppedByPolicy(
    manifests: map<BlobKey, Manifest>, manifests': map<BlobKey, Manifest>, objects: map<ShardRef, Bytes>,
    objects': map<ShardRef, Bytes>, ns: NamespaceId, objectId: Str, p: RetentionPolicy, now: Timestamp,
    survivors: set<Manifest>, key: BlobKey)
    requires Keyed(manifests) && Pruned(Group(manifests, ns, objectId), survivors, p, now)
    requires PartlyDone(
      KeysOf(ns, Group(manifests, ns, objectId) - survivors), objects, manifests, objects', manifests')
    requires key in manifests && !Removable(manifests, ns, objectId, p, now, key)
    ensures key in manifests' && manifests'[key] == manifests[key]
    ensures forall at: ShardRef :: (at.namespace, at.blobId) == key ==>
      (at in objects' <==> at in objects) && (at in objects ==> objects'[at] == objects[at])
  {
    hide Removable, Pruned, Keyed, Group, KeysOf;
    var gone := KeysOf(ns, Group(manifests, ns, objectId) - survivors);
    if key in gone {
      OnlyRemovable(manifests, survivors, ns, objectId, p, now, key);
    }
    assert key in manifests - gone && key in manifests' - gone;
    forall at: ShardRef | (at.namespace, at.blobId) == key
      ensures (at in objects' <==> at in objects) && (at in objects ==> objects'[at] == objects[at])
    {
      assert at in objects <==> at in WithoutBlobs(objects, gone);
      assert at in objects' <==> at in WithoutBlobs(objects', gone);
    }
  }

  /** The stores after a finished prune differ only by the manifests that went and their shards, and the report
      counts them. */
  lemma PruneAccounts(
    manifests: map<BlobKey, Manifest>, manifests': map<BlobKey, Manifest>, objects: map<ShardRef, Bytes>,
    objects': map<ShardRef, Bytes>, ns: NamespaceId, objectId: Str, p: RetentionPolicy, now: Timestamp,
    report: PruneReport)
    requires Keyed(manifests)
    requires GroupPruned(manifests, manifests', objects, objects', ns, objectId, p, now, report)
    ensures forall key :: key in manifests' ==> key in manifests && manifests'[key] == manifests[key]
    ensures forall at :: at in objects' <==>
      at in objects && ((at.namespace, at.blobId) in manifests ==> (at.namespace, at.blobId) in manifests')
    ensures forall at :: at in objects' ==> objects'[at] == objects[at]
    ensures report.objectId == objectId && report.versions == |Since(manifests, ns, objectId, 0)|
    ensures report.kept == (if p.keepVersions == 0 then report.versions else Min(report.versions, p.keepVersions))
    ensures report.pruned == |manifests.Keys - manifests'.Keys|
    ensures report.kept + report.held + report.pruned == report.versions
  {
    hide Pruned, KeysOf, Since, Keyed, Group;
    var group, survivors := Group(manifests, ns, objectId), Group(manifests', ns, objectId);
    PrunedSizes(group, survivors, p, now);
    AllSince(manifests, ns, objectId);
    GroupFacts(manifests, ns, objectId, group - survivors);
    WithoutKeys(manifests, objects, KeysOf(ns, group - survivors));
  }

  lemma WithoutKeys(manifests: map<BlobKey, Manifest>, objects: map<ShardRef, Bytes>, gone: set<BlobKey>)
    requires gone <= manifests.Keys
    ensures manifests.Keys - (manifests - gone).Keys == gone
    ensures forall at :: at in WithoutBlobs(objects, gone) <==>
      at in objects && ((at.namespace, at.blobId) in manifests ==> (at.namespace, at.blobId) in manifests - gone)
  {}

  lemma AllSince(manifests: map<BlobKey, Manifest>, ns: NamespaceId, objectId: Str)
    ensures Group(manifests, ns, objectId) == Since(manifests, ns, objectId, 0)
  {}

  lemma PrunedSizes(group: set<Manifest>, survivors: set<Manifest>, p: RetentionPolicy, now: Timestamp)
    requires Pruned(group, survivors, p, now)
    ensures survivors <= group && |survivors| + |group - survivors| == |group|
  {
    assert group == survivors + (group - survivors);
  }

  lemma GroupFacts(manifests: map<BlobKey, Manifest>, ns: NamespaceId, objectId: Str, part: set<Manifest>)
    requires Keyed(manifests) && part <= Group(manifests, ns, objectId)
    ensures KeysOf(ns, part) <= manifests.Keys && |KeysOf(ns, part)| == |part|
  {
    forall m | m in part
      ensures (ns, m.blobId) in manifests && manifests[(ns, m.blobId)] == m
    {}
    KeysSize(ns, part);
  }

  lemma {:induction false} KeysSize(ns: NamespaceId, versions: set<Manifest>)
    requires forall m, m' :: m in versions && m' in versions && m.blobId == m'.blobId ==> m == m'
    ensures |KeysOf(ns, versions)| == |versions|
    decreases |versions|
  {
    if versions != {} {
      var m :| m in versions;
      KeysSize(ns, versions - {m});
      assert KeysOf(ns, versions) == KeysOf(ns, versions - {m}) + {(ns, m.blobId)};
    }
  }

  /** A version past its hold that survives has fewer than `keepVersions` strictly newer ones. */
  lemma NewerAreFew(
    manifests: map<BlobKey, Manifest>, survivors: set<Manifest>, ns: NamespaceId, objectId: Str,
    p: RetentionPolicy, now: Timestamp, m: Manifest)
    requires Pruned(Group(manifests, ns, objectId), survivors, p, now) && m in survivors
    requires p.keepVersions > 0 && p.HoldElapsed(m.createdAt, now)
    ensures |Since(manifests, ns, objectId, m.createdAt + 1)| < p.keepVersions
  {
    var newer := Since(manifests, ns, objectId, m.createdAt + 1);
    SubsetSize(newer + {m}, survivors);
    if |newer| >= p.keepVersions {
      SurplusHeld(Group(manifests, ns, objectId), survivors, p, now, m);
    }
  }

  lemma HeldShrinks(group: set<Manifest>, p: RetentionPolicy, now: Timestamp, later: Timestamp)
    requires now <= later
    ensures Held(group, p, later) <= Held(group, p, now)
  {
    forall m | m in Held(group, p, later)
      ensures m in Held(group, p, now)
    {
      if p.HoldElapsed(m.createdAt, now) {
        HoldMonotone(p, m.createdAt, m.createdAt, now, later);
      }
    }
  }

  /** Pruning again at the same time removes nothing. */
  lemma SecondPruneIdle(
    group: set<Manifest>, first: set<Manifest>, second: set<Manifest>, p: RetentionPolicy, now: Timestamp)
    requires Pruned(group, first, p, now) && Pruned(first, second, p, now)
    ensures second == first
  {
    HeldSurvive(group, first, p, now);
    if x :| x in first - second {
      SubsetSize(second, first - {x});
    }
  }

  // ---- Survivors are the same up to ties ----

  ghost function At(versions: set<Manifest>, t: Timestamp): set<Manifest> { set m | m in versions && m.createdAt == t }

  lemma DifferenceSizes(a: set<Manifest>, b: set<Manifest>)
    requires |a| == |b|
    ensures |a - b| == |b - a|
    ensures a - b == {} ==> a == b
  {
    assert a == a * b + (a - b) && b == a * b + (b - a);
    assert |a| == |a * b| + |a - b| && |b| == |a * b| + |b - a|;
  }

  /** Everything in one choice but not the other is as old as everything in the other but not the one. */
  lemma DifferencesTie(group: set<Manifest>, a: set<Manifest>, b: set<Manifest>, x: Manifest, y: Manifest)
    requires Newest(a, group) && Newest(b, group) && x in a - b && y in b - a
    ensures x.createdAt == y.createdAt
  {
    assert x in group - b && y in group - a;
  }

  lemma AtParts(a: set<Manifest>, b: set<Manifest>, tie: Timestamp, t: Timestamp)
    requires forall m :: m in a - b ==> m.createdAt == tie
    ensures |At(a, t)| == |At(a * b, t)| + if t == tie then |a - b| else 0
  {
    if t == tie {
      assert At(a, t) == At(a * b, t) + (a - b);
    } else {
      assert At(a, t) == At(a * b, t);
    }
  }

  /** Two choices of the newest ones of the same number hold as many versions of every timestamp. */
  lemma NewestUpToTies(group: set<Manifest>, a: set<Manifest>, b: set<Manifest>, t: Timestamp)
    requires Newest(a, group) && Newest(b, group) && |a| == |b|
    ensures |At(a, t)| == |At(b, t)|
  {
    DifferenceSizes(a, b);
    if x :| x in a - b {
      assert |b - a| > 0;
      var y :| y in b - a;
      forall m | m in a - b
        ensures m.createdAt == y.createdAt
      {
        DifferencesTie(group, a, b, m, y);
      }
      forall m | m in b - a
        ensures m.createdAt == y.createdAt
      {
        DifferencesTie(group, a, b, x, m);
        DifferencesTie(group, a, b, x, y);
      }
      hide *;
      AtParts(a, b, y.createdAt, t);
      AtParts(b, a, y.createdAt, t);
      assert a * b == b * a;
    }
  }

  lemma NewestTrans(group: set<Manifest>, mid: set<Manifest>, top: set<Manifest>)
    requires Newest(mid, group) && Newest(top, mid)
    ensures Newest(top, group)
  {
    forall a, b | a in top && b in group - top
      ensures a.createdAt >= b.createdAt
    {
      if b in mid {
        assert b in mid - top;
      } else {
        assert b in group - mid;
      }
    }
  }

  /** Pruning at one time and again later leaves the versions a single later prune leaves, timestamp by
      timestamp. */
  lemma EarlierPruneAbsorbed(
    group: set<Manifest>, first: set<Manifest>, second: set<Manifest>, direct: set<Manifest>, p: RetentionPolicy,
    now: Timestamp, later: Timestamp, t: Timestamp)
    requires now <= later
    requires Pruned(group, first, p, now) && Pruned(first, second, p, later) && Pruned(group, direct, p, later)
    ensures |At(second, t)| == |At(direct, t)|
  {
    HeldSurvive(group, first, p, now);
    HeldShrinks(group, p, now, later);
    SubsetSize(Held(group, p, later), Held(group, p, now));
    assert Held(first, p, later) == Held(group, p, later);
    NewestTrans(group, first, second);
    NewestUpToTies(group, second, direct, t);
  }
}
