/** Naming a manifest: a read, an edit and a write, with nothing in between here. */
module Naming {
  import opened Prelude
  import opened Domain
  import opened Stores
  import opened UsageReport

  /** Attach the encrypted name, and the object id when one is given. */
  method SetManifestName(metadata: MemoryMetadataStore, ns: NamespaceId, blob: BlobId, nameEnc: Str,
    objectId: Option<Str>) returns (r: PortResult<()>)
    requires Keyed(metadata.manifests)
    modifies metadata`manifests
    ensures Keyed(metadata.manifests)
    ensures (ns, blob) !in old(metadata.manifests) ==>
      r == Err(NotFound) && metadata.manifests == old(metadata.manifests)
    ensures (ns, blob) in old(metadata.manifests) ==>
      var m := old(metadata.manifests)[(ns, blob)];
      && r == Ok(())
      && metadata.manifests == old(metadata.manifests)[(ns, blob) :=
           m.(nameEnc := Some(nameEnc), objectId := if objectId.Some? then objectId else m.objectId)]
    ensures forall id :: UsageIn(metadata.manifests, id) == UsageIn(old(metadata.manifests), id)
  {
    var found := metadata.GetManifest(ns, blob);
    if found.None? {
      return Err(NotFound);
    }
    var m := found.value;
    ghost var before := metadata.manifests;
    m := m.(nameEnc := Some(nameEnc));
    if objectId.Some? {
      m := m.(objectId := objectId);
    }
    metadata.PutManifest(m);
    forall id
      ensures UsageIn(metadata.manifests, id) == UsageIn(before, id)
    {
      hide TotalBytes, InNamespace;
      PutMetered(before, m, id);
    }
    return Ok(());
  }
}
