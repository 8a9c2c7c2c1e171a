/** Delete one blob: the retention hold, then the shards, then the manifest. */
module DeleteBackup {
  import opened Prelude
  import opened Domain
  import opened Stores
  import opened Capability

  /** Why the app's contract refuses the delete now, if it does. */
  function Refusal(
    contracts: map<AppId, AppContract>, manifests: map<BlobKey, Manifest>, app: AppId,
    ns: NamespaceId, blob: BlobId, now: Timestamp): Option<PortError>
  {
    if app !in contracts then Some(NotFound)
    else
      var retention := contracts[app].retention;
      if retention.minDays == 0 then None
      else if (ns, blob) !in manifests then Some(NotFound)
      else if retention.HoldElapsed(manifests[(ns, blob)].createdAt, now) then None
      else Some(Domain(RetentionHold(retention.minDays)))
  }

  ghost predicate Gone(
    objects: map<ShardRef, Bytes>, manifests: map<BlobKey, Manifest>, ns: NamespaceId, blob: BlobId)
  {
    && (ns, blob) !in manifests
    && forall at :: at in objects ==> !(at.namespace == ns && at.blobId == blob)
  }

  /** Where a delete may have stopped: some shards gone and the manifest still there, or everything gone.
      The manifest never goes first. */
  ghost predicate Stopped(
    objects: map<ShardRef, Bytes>, manifests: map<BlobKey, Manifest>,
    objects': map<ShardRef, Bytes>, manifests': map<BlobKey, Manifest>, ns: NamespaceId, blob: BlobId)
  {
    && WithoutBlob(objects', ns, blob) == WithoutBlob(objects, ns, blob)
    && (forall at :: at in objects' ==> at in objects && objects'[at] == objects[at])
    && (manifests' == manifests || (manifests' == manifests - {(ns, blob)} && Gone(objects', manifests', ns, blob)))
  }

  /** What one authorized delete does. */
  ghost predicate Ran(
    refusal: Option<PortError>, reliable: bool, objects: map<ShardRef, Bytes>, manifests: map<BlobKey, Manifest>,
    objects': map<ShardRef, Bytes>, manifests': map<BlobKey, Manifest>, ns: NamespaceId, blob: BlobId,
    r: PortResult<()>)
  {
    match refusal
    case Some(e) => r == Err(e) && objects' == objects && manifests' == manifests
    case None =>
      && Stopped(objects, manifests, objects', manifests', ns, blob)
      && (r.Ok? ==> Gone(objects', manifests', ns, blob))
      && (r.Err? ==> manifests' == manifests)
      && (reliable ==> r.Ok?)
  }

  lemma WithoutBlobGone(objects: map<ShardRef, Bytes>, ns: NamespaceId, blob: BlobId)
    ensures WithoutBlob(WithoutBlob(objects, ns, blob), ns, blob) == WithoutBlob(objects, ns, blob)
  {}

  class DeleteBackup {
    const metadata: MemoryMetadataStore
    const anchor: BlobAnchor
    const verify: Verifier

    constructor (metadata: MemoryMetadataStore, anchor: BlobAnchor, verify: Verifier)
      ensures this.metadata == metadata && this.anchor == anchor && this.verify == verify
    {
      this.metadata, this.anchor, this.verify := metadata, anchor, verify;
    }

    /** `now` is the clock at the guard, `later` the clock at the hold check. */
    method Execute(ns: NamespaceId, token: CapabilityToken, blobId: BlobId, now: Timestamp, later: Timestamp)
      returns (r: PortResult<()>)
      modifies metadata`manifests, anchor`objects
      ensures
        var auth := Authorize(verify, metadata.namespaces, now, ns, token, Delete);
        if auth.Err? then
          r == Err(auth.error) && anchor.objects == old(anchor.objects) && metadata.manifests == old(metadata.manifests)
        else
          Ran(Refusal(metadata.contracts, old(metadata.manifests), auth.value, ns, blobId, later), anchor.reliable,
            old(anchor.objects), old(metadata.manifests), anchor.objects, metadata.manifests, ns, blobId, r)
      // refused without a contract, without a manifest to hold, and while the hold runs
      ensures
        var auth := Authorize(verify, metadata.namespaces, now, ns, token, Delete);
        auth.Ok? && auth.value !in metadata.contracts ==>
          r == Err(NotFound) && anchor.objects == old(anchor.objects) && metadata.manifests == old(metadata.manifests)
      ensures
        var auth := Authorize(verify, metadata.namespaces, now, ns, token, Delete);
        auth.Ok? && auth.value in metadata.contracts && metadata.contracts[auth.value].retention.minDays > 0 ==>
          && ((ns, blobId) !in old(metadata.manifests) ==>
                && r == Err(NotFound)
                && anchor.objects == old(anchor.objects) && metadata.manifests == old(metadata.manifests))
          && ((ns, blobId) in old(metadata.manifests)
              && later < old(metadata.manifests)[(ns, blobId)].createdAt
                         + metadata.contracts[auth.value].retention.minDays * 86_400_000 ==>
                && r == Err(Domain(RetentionHold(metadata.contracts[auth.value].retention.minDays)))
                && anchor.objects == old(anchor.objects) && metadata.manifests == old(metadata.manifests))
      // and otherwise done: nothing but the anchor can keep it from it
      ensures
        var auth := Authorize(verify, metadata.namespaces, now, ns, token, Delete);
        auth.Ok? && auth.value in metadata.contracts
        && (metadata.contracts[auth.value].retention.minDays == 0
            || ((ns, blobId) in old(metadata.manifests)
                && old(metadata.manifests)[(ns, blobId)].createdAt
                   + metadata.contracts[auth.value].retention.minDays * 86_400_000 <= later)) ==>
          && (anchor.reliable ==> r.Ok?)
          && (r.Ok? ==> metadata.manifests == old(metadata.manifests) - {(ns, blobId)}
                        && anchor.objects == WithoutBlob(old(anchor.objects), ns, blobId))
          && (r.Err? ==> r == Err(Backend) && metadata.manifests == old(metadata.manifests))
    {
      var auth := Authorize(verify, metadata.namespaces, now, ns, token, Delete);
      if auth.Err? {
        return Err(auth.error);
      }
      hide Authorize;
      if auth.value !in metadata.contracts {
        return Err(NotFound);
      }
      var contract := metadata.contracts[auth.value];
      if contract.retention.minDays > 0 {
        var found := metadata.GetManifest(ns, blobId);
        if found.None? {
          return Err(NotFound);
        }
        if !contract.retention.HoldElapsed(found.value.createdAt, later) {
          return Err(Domain(RetentionHold(contract.retention.minDays)));
        }
      }
      WithoutBlobGone(anchor.objects, ns, blobId);
      var removed := anchor.DeleteBlob(ns, blobId);
      if removed.Err? {
        return Err(removed.error);
      }
      metadata.DeleteManifest(ns, blobId);
      return Ok(());
    }
  }

  /** A delete that was granted and stopped anywhere, retried at any later time, leaves neither shards nor
      manifest: either the retry is granted and finishes, or there was nothing left. */
  lemma RetryFinishes(
    contracts: map<AppId, AppContract>, app: AppId, ns: NamespaceId, blob: BlobId, t: Timestamp, later: Timestamp,
    o0: map<ShardRef, Bytes>, m0: map<BlobKey, Manifest>, o1: map<ShardRef, Bytes>, m1: map<BlobKey, Manifest>,
    o2: map<ShardRef, Bytes>, m2: map<BlobKey, Manifest>, r: PortResult<()>)
    requires Refusal(contracts, m0, app, ns, blob, t).None? && t <= later
    requires Stopped(o0, m0, o1, m1, ns, blob)
    requires Ran(Refusal(contracts, m1, app, ns, blob, later), true, o1, m1, o2, m2, ns, blob, r)
    ensures Gone(o2, m2, ns, blob)
    ensures WithoutBlob(o2, ns, blob) == WithoutBlob(o0, ns, blob) && m2 == m0 - {(ns, blob)}
  {
    var retention := contracts[app].retention;
    if retention.minDays > 0 {
      var createdAt := m0[(ns, blob)].createdAt;
      HoldMonotone(retention, createdAt, createdAt, t, later);
    }
  }
}
