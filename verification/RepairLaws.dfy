/** What repairing and restoring mean together: nothing good is lost, a second pass is idle, and a blob can
    be restored exactly when it can be repaired. */
module RepairLaws {
  import opened Prelude
  import opened Domain
  import opened Stores
  import opened ErasureCoder
  import opened Put = PutBackup
  import opened Get = GetBackup
  import opened RepairShards

  /** Every report accounts for the shards it checked, and lists as bad only what it could not repair. */
  lemma ReportAccounts(
    h: Hash, replies: Replies, ns: NamespaceId, blob: BlobId, m: Manifest,
    before: map<ShardRef, Bytes>, after: map<ShardRef, Bytes>, sent: seq<Delivery>, sent': seq<Delivery>,
    report: RepairReport)
    requires Outcome(h, replies, ns, blob, m, before, after, sent, sent', report)
    ensures report.checked == report.healthy + report.stillBad == |m.shards|
    ensures report.healthy == |Healthy(h, after, ns, blob, m)|
    ensures report.healthy == |Healthy(h, before, ns, blob, m)| + report.repaired
  {}

  /** Codeword writes add no forgery to what the anchor has, of this blob or of another. */
  lemma NoForgeryKept(
    h: Hash, replies: Replies, ns: NamespaceId, blob: BlobId, codeword: seq<Bytes>,
    before: map<ShardRef, Bytes>, after: map<ShardRef, Bytes>, ns2: NamespaceId, blob2: BlobId, codeword2: seq<Bytes>)
    requires NoForgery(h, codeword, before, replies, ns, blob)
    requires OnlyCodewordWrites(before, after, ns2, blob2, codeword2)
    requires (ns, blob) == (ns2, blob2) ==> codeword == codeword2
    ensures NoForgery(h, codeword, after, replies, ns, blob)
  {}

  /** The gate at one index: the anchor's copy is valid exactly when it is the codeword shard. */
  lemma ValidIsCodeword(
    h: Hash, coder: Coder, objects: map<ShardRef, Bytes>, replies: Replies, ns: NamespaceId, blob: BlobId, m: Manifest,
    data: Bytes, codeword: seq<Bytes>, i: nat)
    requires Stored(h, coder, m, data, codeword) && NoForgery(h, codeword, objects, replies, ns, blob) && i < |m.shards|
    ensures |codeword| == |m.shards|
    ensures i in Healthy(h, objects, ns, blob, m) <==>
      ShardRef(ns, blob, i) in objects && objects[ShardRef(ns, blob, i)] == codeword[i]
  {
    hide Encoded, Supports;
    assert m.shards[i].index == i;
    var at := ShardRef(ns, blob, i);
    assert at in objects ==> CameFrom(objects, replies, at, objects[at]);
  }

  /** No step of a repair, even one that fails midway, loses a good shard. */
  lemma NoGoodShardLost(
    h: Hash, coder: Coder, m: Manifest, data: Bytes, codeword: seq<Bytes>, ns: NamespaceId, blob: BlobId,
    before: map<ShardRef, Bytes>, after: map<ShardRef, Bytes>)
    requires Stored(h, coder, m, data, codeword) && OnlyCodewordWrites(before, after, ns, blob, codeword)
    ensures Healthy(h, before, ns, blob, m) <= Healthy(h, after, ns, blob, m)
  {
    forall i | i in Healthy(h, before, ns, blob, m)
      ensures i in Healthy(h, after, ns, blob, m)
    {
      hide Encoded, Supports;
      assert m.shards[i].index == i && m.shards[i].sha256 == h(codeword[i]);
      assert ShardRef(ns, blob, i) in after;
    }
  }

  /** Nor does it touch any other blob. */
  lemma OtherBlobsUntouched(
    before: map<ShardRef, Bytes>, after: map<ShardRef, Bytes>, ns: NamespaceId, blob: BlobId, codeword: seq<Bytes>)
    requires OnlyCodewordWrites(before, after, ns, blob, codeword)
    ensures WithoutBlob(after, ns, blob) == WithoutBlob(before, ns, blob)
  {}

  /** Codeword writes over an entirely healthy blob change nothing. */
  lemma HealthyUnchanged(
    h: Hash, coder: Coder, replies: Replies, m: Manifest, data: Bytes, codeword: seq<Bytes>, ns: NamespaceId,
    blob: BlobId, before: map<ShardRef, Bytes>, after: map<ShardRef, Bytes>)
    requires Stored(h, coder, m, data, codeword) && OnlyCodewordWrites(before, after, ns, blob, codeword)
    requires NoForgery(h, codeword, before, replies, ns, blob)
    requires Healthy(h, before, ns, blob, m) == Upto(|m.shards|)
    ensures after == before
  {
    forall at | at in after
      ensures at in before && before[at] == after[at]
    {
      if OwnShard(at, ns, blob, |codeword|) {
        assert |codeword| == |m.shards| && at == ShardRef(ns, blob, at.index);
        ValidIsCodeword(h, coder, before, replies, ns, blob, m, data, codeword, at.index);
        hide Stored, Healthy, NoForgery;
      }
    }
    hide Stored, Healthy, NoForgery;
  }

  /** After a completed repair a second pass finds every shard healthy, repairs nothing and changes nothing. */
  lemma SecondPassIdle(
    h: Hash, coder: Coder, replies: Replies, replies2: Replies, m: Manifest, data: Bytes, codeword: seq<Bytes>,
    ns: NamespaceId, blob: BlobId, before: map<ShardRef, Bytes>, after: map<ShardRef, Bytes>,
    last: map<ShardRef, Bytes>,
    s0: seq<Delivery>, s1: seq<Delivery>, s2: seq<Delivery>, s3: seq<Delivery>,
    first: RepairReport, second: RepairReport)
    requires Stored(h, coder, m, data, codeword) && NoForgery(h, codeword, before, replies, ns, blob)
    requires Outcome(h, replies, ns, blob, m, before, after, s0, s1, first) && !first.unrepairable
    requires OnlyCodewordWrites(before, after, ns, blob, codeword)
    requires Outcome(h, replies2, ns, blob, m, after, last, s2, s3, second)
    requires OnlyCodewordWrites(after, last, ns, blob, codeword)
    ensures second == RepairReport(blob, |m.shards|, |m.shards|, 0, 0, false)
    ensures last == after
  {
    StoredShape(h, coder, m, data, codeword);
    SourcesCoverHealthy(h, replies2, after, ns, blob, m);
    NoForgeryKept(h, replies, ns, blob, codeword, before, after, ns, blob, codeword);
    hide Stored, Healthy, Sources, OnlyCodewordWrites, NoForgery;
    HealthyUnchanged(h, coder, replies, m, data, codeword, ns, blob, after, last);
  }

  lemma RestoredReliably(
    h: Hash, objects: map<ShardRef, Bytes>, replies: Replies, ns: NamespaceId, blob: BlobId, m: Manifest,
    data: Bytes, r: PortResult<RestoreOutcome>)
    requires Restored(h, objects, replies, ns, blob, m, data, true, r)
    ensures
      var found := |Sources(h, objects, replies, ns, blob, m)|;
      r == if found >= m.erasure.k then Ok(RestoreOutcome(data, |m.shards|, |m.shards| - found)) else Err(Unavailable)
  {
    hide Sources;
  }

  lemma OutcomeSources(
    h: Hash, replies: Replies, ns: NamespaceId, blob: BlobId, m: Manifest,
    before: map<ShardRef, Bytes>, after: map<ShardRef, Bytes>, sent: seq<Delivery>, sent': seq<Delivery>,
    report: RepairReport)
    requires Outcome(h, replies, ns, blob, m, before, after, sent, sent', report)
    ensures report.unrepairable <==> |Sources(h, before, replies, ns, blob, m)| < m.erasure.k
    ensures report.unrepairable ==> after == before
    ensures !report.unrepairable ==> |Sources(h, after, replies, ns, blob, m)| == |m.shards|
  {
    if !report.unrepairable {
      SourcesCoverHealthy(h, replies, after, ns, blob, m);
    }
    hide Healthy, Sources;
  }

  /** With the same anchor and the same peers, a restore succeeds exactly when a repair is possible, and
      after the repair a restore finds no shard missing. */
  lemma RestoreIffRepairable(
    h: Hash, coder: Coder, replies: Replies, m: Manifest, data: Bytes, codeword: seq<Bytes>,
    ns: NamespaceId, blob: BlobId, before: map<ShardRef, Bytes>, after: map<ShardRef, Bytes>,
    sent: seq<Delivery>, sent': seq<Delivery>, report: RepairReport,
    r: PortResult<RestoreOutcome>, again: PortResult<RestoreOutcome>)
    requires Stored(h, coder, m, data, codeword)
    requires Outcome(h, replies, ns, blob, m, before, after, sent, sent', report)
    requires Restored(h, before, replies, ns, blob, m, data, true, r)
    requires Restored(h, after, replies, ns, blob, m, data, true, again)
    ensures r.Ok? <==> !report.unrepairable
    ensures r.Ok? ==> again == Ok(RestoreOutcome(data, |m.shards|, 0))
    ensures r.Err? ==> again == r
  {
    StoredShape(h, coder, m, data, codeword);
    hide *;
    RestoredReliably(h, before, replies, ns, blob, m, data, r);
    RestoredReliably(h, after, replies, ns, blob, m, data, again);
    OutcomeSources(h, replies, ns, blob, m, before, after, sent, sent', report);
  }
}
