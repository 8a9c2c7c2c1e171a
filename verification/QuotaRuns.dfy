/** The quota under concurrency: the check reads the usage, the manifest that uses it up comes later; and a
    name edit that read its manifest before a delete stores it back after.
  */
module QuotaRuns {
  import opened Prelude
  import opened Domain
  import opened Stores
  import opened UsageReport

  /** `pending` holds the puts past their quota check and not yet published, under their fresh keys, and
      `edits` the manifests read by name edits that have not stored theirs yet. `last` is history: what was
      checked under every key ever given out. */
  datatype QuotaState = QuotaState(
    manifests: map<BlobKey, Manifest>, pending: map<BlobKey, Manifest>, edits: map<nat, Manifest>,
    last: map<BlobKey, Manifest>)

  const UNUSED := QuotaState(map[], map[], map[], map[])

  datatype QuotaEvent =
    | Check(m: Manifest)
    | Publish(m: Manifest)
    | Abandon(key: BlobKey)
    | Remove(key: BlobKey)
    | EditRead(id: nat, key: BlobKey)
    | EditWrite(id: nat, nameEnc: Option<Str>, objectId: Option<Str>)
    | EditDrop(id: nat)

  type Quotas = NamespaceId -> Quota

  function KeyOf(m: Manifest): BlobKey { (m.namespace, m.blobId) }

  ghost function QuotaStep(quotas: Quotas, s: QuotaState, e: QuotaEvent): QuotaState {
    match e
    case Check(m) =>
      var key := KeyOf(m);
      var usage := UsageIn(s.manifests, m.namespace);
      if key !in s.last && quotas(m.namespace).Admits(usage.bytes, usage.objects, m.ciphertextLen)
      then s.(pending := s.pending[key := m], last := s.last[key := m])
      else s
    case Publish(m) =>
      var key := KeyOf(m);
      if key in s.pending && s.pending[key].ciphertextLen == m.ciphertextLen
      then s.(manifests := s.manifests[key := m], pending := s.pending - {key})
      else s
    case Abandon(key) => s.(pending := s.pending - {key})
    case Remove(key) => s.(manifests := s.manifests - {key})
    case EditRead(id, key) =>
      if key in s.manifests && id !in s.edits then s.(edits := s.edits[id := s.manifests[key]]) else s
    case EditWrite(id, nameEnc, objectId) =>
      if id in s.edits then
        var m := s.edits[id];
        s.(manifests := s.manifests[KeyOf(m) := m.(nameEnc := nameEnc, objectId := objectId)], edits := s.edits - {id})
      else s
    case EditDrop(id) => s.(edits := s.edits - {id})
  }

  ghost function QuotaAfter(quotas: Quotas, events: seq<QuotaEvent>): QuotaState {
    if events == [] then UNUSED
    else QuotaStep(quotas, QuotaAfter(quotas, events[..|events| - 1]), events[|events| - 1])
  }

  ghost function BytesIn(manifests: map<BlobKey, Manifest>, id: NamespaceId): nat {
    TotalBytes(InNamespace(manifests, id))
  }

  ghost function ObjectsIn(manifests: map<BlobKey, Manifest>, id: NamespaceId): nat { |InNamespace(manifests, id)| }

  /** A name edit of this blob is between its read and its write. */
  ghost predicate Edited(s: QuotaState, key: BlobKey) { exists id :: id in s.edits && KeyOf(s.edits[id]) == key }

  /** The blobs of the namespace with a write on its way: a put past its check, or a name edit. */
  ghost function Busy(s: QuotaState, id: NamespaceId): set<BlobKey> {
    set key | key in s.last && key.0 == id && (key in s.pending || Edited(s, key))
  }

  /** At most `p` writes of the namespace on their way, none longer than `largest`. */
  ghost predicate InFlight(s: QuotaState, id: NamespaceId, p: nat, largest: nat) {
    && |Busy(s, id)| <= p
    && forall key :: key in Busy(s, id) ==> s.last[key].ciphertextLen <= largest
  }

  /** Not listed, but a put or a name edit may list it. */
  ghost predicate IsLoose(s: QuotaState, key: BlobKey) {
    key !in s.manifests && (key in s.pending || Edited(s, key))
  }

  /** Unpublished puts, and deleted blobs that a name edit may store back. */
  ghost function Loose(s: QuotaState): map<BlobKey, Manifest> {
    map key | key in s.last && IsLoose(s, key) :: s.last[key]
  }

  /** The bound, over what is listed and what may be. */
  ghost predicate WithinQuota(s: QuotaState, q: Quota, id: NamespaceId, p: nat, largest: nat)
    requires p >= 1
  {
    && ObjectsIn(s.manifests, id) + ObjectsIn(Loose(s), id) <= q.maxObjects + (p - 1)
    && BytesIn(s.manifests, id) + BytesIn(Loose(s), id) <= q.maxBytes + (p - 1) * largest
  }

  /** A manifest under its own key, of the length checked under it. */
  ghost predicate Known(s: QuotaState, key: BlobKey, m: Manifest) {
    key in s.last && KeyOf(m) == key && m.ciphertextLen == s.last[key].ciphertextLen
  }

  ghost predicate ListedOk(s: QuotaState) { forall key :: key in s.manifests ==> Known(s, key, s.manifests[key]) }

  ghost predicate EditsOk(s: QuotaState) {
    forall id :: id in s.edits ==> Known(s, KeyOf(s.edits[id]), s.edits[id])
  }

  /** A put in flight is neither listed nor edited. */
  ghost predicate PendingOk(s: QuotaState) {
    forall key :: key in s.pending ==>
      key in s.last && s.pending[key] == s.last[key] && key !in s.manifests && !Edited(s, key)
  }

  ghost predicate QuotaInv(s: QuotaState) { Keyed(s.last) && ListedOk(s) && EditsOk(s) && PendingOk(s) }

  lemma {:induction false} BytesBound(manifests: map<BlobKey, Manifest>, largest: nat)
    requires forall key :: key in manifests ==> manifests[key].ciphertextLen <= largest
    ensures TotalBytes(manifests) <= |manifests| * largest
    decreases |manifests|
  {
    hide TotalBytes;
    if manifests == map[] {
      NoBytes();
    } else {
      var key :| key in manifests;
      TotalBytesRemove(manifests, key);
      BytesBound(manifests - {key}, largest);
      assert |manifests| * largest == (|manifests| - 1) * largest + largest;
    }
  }

  /** What may be listed is among the writes on their way. */
  lemma LooseBound(s: QuotaState, id: NamespaceId, p: nat, largest: nat)
    requires InFlight(s, id, p, largest)
    ensures ObjectsIn(Loose(s), id) <= p
    ensures BytesIn(Loose(s), id) <= ObjectsIn(Loose(s), id) * largest
  {
    hide TotalBytes, Edited;
    var loose := InNamespace(Loose(s), id);
    assert loose.Keys <= Busy(s, id);
    SubsetSize(loose.Keys, Busy(s, id));
    BytesBound(loose, largest);
  }

  lemma UsageExact(manifests: map<BlobKey, Manifest>, id: NamespaceId)
    requires BytesIn(manifests, id) < U64_LIMIT && ObjectsIn(manifests, id) < U64_LIMIT
    ensures UsageIn(manifests, id) == NamespaceUsage(BytesIn(manifests, id), ObjectsIn(manifests, id))
  {
    hide TotalBytes, InNamespace;
    WrapSmall(BytesIn(manifests, id));
    WrapSmall(ObjectsIn(manifests, id));
  }

  lemma PutCounted(manifests: map<BlobKey, Manifest>, m: Manifest, id: NamespaceId)
    ensures
      var key := (m.namespace, m.blobId);
      var isNew := id == m.namespace && key !in manifests;
      && ObjectsIn(manifests[key := m], id) == ObjectsIn(manifests, id) + (if isNew then 1 else 0)
      && (isNew ==> BytesIn(manifests[key := m], id) == BytesIn(manifests, id) + m.ciphertextLen)
      && (id != m.namespace || (key in manifests && manifests[key].ciphertextLen == m.ciphertextLen) ==>
            BytesIn(manifests[key := m], id) == BytesIn(manifests, id))
  {
    hide TotalBytes, InNamespace;
    PutMetered(manifests, m, id);
  }

  lemma RemoveCounted(manifests: map<BlobKey, Manifest>, key: BlobKey, id: NamespaceId)
    ensures
      var gone := id == key.0 && key in manifests;
      && ObjectsIn(manifests - {key}, id) == ObjectsIn(manifests, id) - (if gone then 1 else 0)
      && BytesIn(manifests - {key}, id) == BytesIn(manifests, id) - (if gone then manifests[key].ciphertextLen else 0)
  {
    hide TotalBytes, InNamespace;
    DeleteMetered(manifests, key, id);
  }

  /** The saturating sum bounds the true one exactly when the limit is below the largest `u64`: at that
      limit the byte quota admits anything. */
  lemma AdmitsBoundsBytes(q: Quota)
    requires q.maxBytes <= U64_MAX && q.maxObjects > 0
    ensures (forall bytes: nat, objects: nat, add: nat :: q.Admits(bytes, objects, add) ==> bytes + add <= q.maxBytes)
       <==> q.maxBytes < U64_MAX
  {
    if q.maxBytes == U64_MAX {
      assert q.Admits(U64_MAX, 0, 1);
    }
  }

  lemma EditedKnown(s: QuotaState, key: BlobKey)
    requires EditsOk(s) && Edited(s, key)
    ensures key in s.last
  {}

  /** Ending an edit touches the editing of its own blob only. */
  lemma EditEnds(s: QuotaState, s': QuotaState, edit: nat, key: BlobKey)
    requires edit in s.edits && s'.edits == s.edits - {edit}
    ensures Edited(s', key) ==> Edited(s, key)
    ensures Edited(s, key) && key != KeyOf(s.edits[edit]) ==> Edited(s', key)
    ensures Edited(s, KeyOf(s.edits[edit]))
  {
    if Edited(s, key) && key != KeyOf(s.edits[edit]) {
      var i :| i in s.edits && KeyOf(s.edits[i]) == key;
      assert i in s'.edits;
    }
  }

  /** Beginning an edit adds its own blob only. */
  lemma EditBegins(s: QuotaState, s': QuotaState, edit: nat, m: Manifest, key: BlobKey)
    requires edit !in s.edits && s'.edits == s.edits[edit := m]
    ensures Edited(s', key) <==> Edited(s, key) || key == KeyOf(m)
  {
    if Edited(s, key) {
      var i :| i in s.edits && KeyOf(s.edits[i]) == key;
      assert i in s'.edits && s'.edits[i] == s.edits[i];
    }
    if key == KeyOf(m) {
      assert edit in s'.edits && s'.edits[edit] == m;
    }
  }

  lemma SameEdits(s: QuotaState, s': QuotaState, key: BlobKey)
    requires s'.edits == s.edits
    ensures Edited(s', key) <==> Edited(s, key)
  {}

  lemma InvAfterCheck(quotas: Quotas, s: QuotaState, m: Manifest)
    requires QuotaInv(s)
    ensures QuotaInv(QuotaStep(quotas, s, Check(m)))
  {
    hide QuotaInv, Edited, UsageIn;
    var s' := QuotaStep(quotas, s, Check(m));
    if s' != s {
      InvAfterFresh(s, s', m);
    }
  }

  lemma InvAfterFresh(s: QuotaState, s': QuotaState, m: Manifest)
    requires QuotaInv(s) && KeyOf(m) !in s.last
    requires s' == s.(pending := s.pending[KeyOf(m) := m], last := s.last[KeyOf(m) := m])
    ensures QuotaInv(s')
  {
    hide Edited;
    assert Keyed(s'.last) && ListedOk(s') && EditsOk(s');
    forall key | key in s'.pending
      ensures key in s'.last && s'.pending[key] == s'.last[key] && key !in s'.manifests && !Edited(s', key)
    {
      SameEdits(s, s', key);
      if Edited(s, key) {
        EditedKnown(s, key);
      }
    }
    hide ListedOk, EditsOk;
  }

  lemma InvAfterWrite(s: QuotaState, s': QuotaState, m: Manifest)
    requires QuotaInv(s) && Known(s, KeyOf(m), m)
    requires s'.last == s.last && s'.manifests == s.manifests[KeyOf(m) := m] && KeyOf(m) !in s'.pending
    requires forall key :: key in s'.pending ==> key in s.pending && s'.pending[key] == s.pending[key]
    requires forall key :: Edited(s', key) ==> Edited(s, key)
    requires forall id :: id in s'.edits ==> id in s.edits && s'.edits[id] == s.edits[id]
    ensures QuotaInv(s')
  {
    hide Edited;
  }

  lemma InvAfterLess(s: QuotaState, s': QuotaState)
    requires QuotaInv(s) && s'.last == s.last
    requires forall key :: key in s'.manifests ==> key in s.manifests && s'.manifests[key] == s.manifests[key]
    requires forall key :: key in s'.pending ==> key in s.pending && s'.pending[key] == s.pending[key]
    requires forall key :: key in s'.pending && Edited(s', key) ==> Edited(s, key)
    requires forall id :: id in s'.edits ==>
      (id in s.edits && s'.edits[id] == s.edits[id]) || Known(s, KeyOf(s'.edits[id]), s'.edits[id])
    ensures QuotaInv(s')
  {
    hide Edited;
  }

  lemma InvAfterPublish(quotas: Quotas, s: QuotaState, m: Manifest)
    requires QuotaInv(s)
    ensures QuotaInv(QuotaStep(quotas, s, Publish(m)))
  {
    hide Edited, QuotaInv;
    var s' := QuotaStep(quotas, s, Publish(m));
    if s' != s {
      PendingKnown(s, KeyOf(m));
      forall key ensures Edited(s', key) ==> Edited(s, key) { SameEdits(s, s', key); }
      InvAfterWrite(s, s', m);
    }
  }

  lemma PendingKnown(s: QuotaState, key: BlobKey)
    requires QuotaInv(s) && key in s.pending
    ensures key in s.last && s.pending[key] == s.last[key] && key !in s.manifests && !Edited(s, key)
    ensures KeyOf(s.last[key]) == key
  {
    hide Edited;
  }

  lemma EditKnown(s: QuotaState, edit: nat)
    requires QuotaInv(s) && edit in s.edits
    ensures Known(s, KeyOf(s.edits[edit]), s.edits[edit]) && KeyOf(s.edits[edit]) !in s.pending
  {
    assert Edited(s, KeyOf(s.edits[edit]));
    hide Edited;
  }

  lemma InvAfterEditWrite(quotas: Quotas, s: QuotaState, edit: nat, nameEnc: Option<Str>, objectId: Option<Str>)
    requires QuotaInv(s)
    ensures QuotaInv(QuotaStep(quotas, s, EditWrite(edit, nameEnc, objectId)))
  {
    hide Edited, QuotaInv;
    if edit in s.edits {
      var s' := QuotaStep(quotas, s, EditWrite(edit, nameEnc, objectId));
      EditKnown(s, edit);
      forall key ensures Edited(s', key) ==> Edited(s, key) { EditEnds(s, s', edit, key); }
      InvAfterWrite(s, s', s.edits[edit].(nameEnc := nameEnc, objectId := objectId));
    }
  }

  lemma InvAfterEditRead(quotas: Quotas, s: QuotaState, edit: nat, key: BlobKey)
    requires QuotaInv(s)
    ensures QuotaInv(QuotaStep(quotas, s, EditRead(edit, key)))
  {
    hide Edited;
    var s' := QuotaStep(quotas, s, EditRead(edit, key));
    if s' != s {
      forall k | k in s'.pending
        ensures Edited(s', k) ==> Edited(s, k)
      {
        EditBegins(s, s', edit, s.manifests[key], k);
      }
      InvAfterLess(s, s');
    }
  }

  lemma InvAfterEnd(quotas: Quotas, s: QuotaState, e: QuotaEvent)
    requires QuotaInv(s) && (e.Abandon? || e.Remove? || e.EditDrop?)
    ensures QuotaInv(QuotaStep(quotas, s, e))
  {
    hide Edited, QuotaInv;
    var s' := QuotaStep(quotas, s, e);
    forall key
      ensures Edited(s', key) ==> Edited(s, key)
    {
      if e.EditDrop? && e.id in s.edits {
        EditEnds(s, s', e.id, key);
      } else {
        assert s'.edits == s.edits;
        SameEdits(s, s', key);
      }
    }
    InvAfterLess(s, s');
  }

  lemma QuotaInvStep(quotas: Quotas, s: QuotaState, e: QuotaEvent)
    requires QuotaInv(s)
    ensures QuotaInv(QuotaStep(quotas, s, e))
  {
    hide *;
    match e
    case Check(m) => InvAfterCheck(quotas, s, m);
    case Publish(m) => InvAfterPublish(quotas, s, m);
    case EditRead(edit, key) => InvAfterEditRead(quotas, s, edit, key);
    case EditWrite(edit, nameEnc, objectId) => InvAfterEditWrite(quotas, s, edit, nameEnc, objectId);
    case _ => InvAfterEnd(quotas, s, e);
  }

  // ---- What one step does to the listed and the loose ----

  /** Listed and loose together do not grow. */
  ghost predicate NotMore(s: QuotaState, s': QuotaState, id: NamespaceId) {
    && ObjectsIn(s'.manifests, id) + ObjectsIn(Loose(s'), id) <= ObjectsIn(s.manifests, id) + ObjectsIn(Loose(s), id)
    && BytesIn(s'.manifests, id) + BytesIn(Loose(s'), id) <= BytesIn(s.manifests, id) + BytesIn(Loose(s), id)
  }

  /** A loose blob becomes listed. */
  lemma Listed(s: QuotaState, s': QuotaState, m: Manifest, id: NamespaceId)
    requires KeyOf(m) in Loose(s) && KeyOf(m) !in s.manifests && Loose(s)[KeyOf(m)].ciphertextLen == m.ciphertextLen
    requires s'.manifests == s.manifests[KeyOf(m) := m] && Loose(s') == Loose(s) - {KeyOf(m)}
    ensures NotMore(s, s', id)
  {
    hide BytesIn, ObjectsIn, Loose;
    PutCounted(s.manifests, m, id);
    RemoveCounted(Loose(s), KeyOf(m), id);
  }

  /** A listed blob is removed, and may become loose. */
  lemma Unlisted(s: QuotaState, s': QuotaState, key: BlobKey, id: NamespaceId)
    requires key in s.manifests && s'.manifests == s.manifests - {key} && key !in Loose(s)
    requires Loose(s') == Loose(s) || (
      && key in s.last && KeyOf(s.last[key]) == key && s.last[key].ciphertextLen == s.manifests[key].ciphertextLen
      && Loose(s') == Loose(s)[key := s.last[key]])
    ensures NotMore(s, s', id)
  {
    hide BytesIn, ObjectsIn, Loose;
    RemoveCounted(s.manifests, key, id);
    if key in s.last {
      PutCounted(Loose(s), s.last[key], id);
    }
  }

  /** A loose blob may be given up. */
  lemma GivenUp(s: QuotaState, s': QuotaState, key: BlobKey, id: NamespaceId)
    requires s'.manifests == s.manifests && (Loose(s') == Loose(s) || Loose(s') == Loose(s) - {key})
    ensures NotMore(s, s', id)
  {
    hide BytesIn, ObjectsIn, Loose;
    RemoveCounted(Loose(s), key, id);
  }

  /** A listed manifest is replaced by one of the same length. */
  lemma Replaced(s: QuotaState, s': QuotaState, m: Manifest, id: NamespaceId)
    requires KeyOf(m) in s.manifests && s.manifests[KeyOf(m)].ciphertextLen == m.ciphertextLen
    requires s'.manifests == s.manifests[KeyOf(m) := m] && Loose(s') == Loose(s)
    ensures NotMore(s, s', id)
  {
    hide BytesIn, ObjectsIn, Loose;
    PutCounted(s.manifests, m, id);
  }

  lemma LooseSame(s: QuotaState, s': QuotaState)
    requires s'.last == s.last && forall key :: IsLoose(s', key) <==> IsLoose(s, key)
    ensures Loose(s') == Loose(s)
  {
    hide IsLoose;
  }

  lemma LooseLess(s: QuotaState, s': QuotaState, key: BlobKey)
    requires s'.last == s.last && !IsLoose(s', key)
    requires forall k :: k != key ==> (IsLoose(s', k) <==> IsLoose(s, k))
    ensures Loose(s') == Loose(s) - {key}
  {
    hide IsLoose;
  }

  lemma LooseMore(s: QuotaState, s': QuotaState, key: BlobKey)
    requires key in s'.last && IsLoose(s', key) && s'.last == s.last[key := s'.last[key]]
    requires forall k :: k != key ==> (IsLoose(s', k) <==> IsLoose(s, k))
    ensures Loose(s') == Loose(s)[key := s'.last[key]]
  {
    hide IsLoose;
  }

  lemma LooseAt(s: QuotaState, key: BlobKey)
    ensures key in Loose(s) <==> key in s.last && IsLoose(s, key)
    ensures key in Loose(s) ==> Loose(s)[key] == s.last[key]
  {}

  lemma PublishStep(quotas: Quotas, s: QuotaState, m: Manifest, id: NamespaceId)
    requires QuotaInv(s)
    ensures NotMore(s, QuotaStep(quotas, s, Publish(m)), id)
  {
    hide QuotaInv, Edited, Loose, ObjectsIn, BytesIn;
    var s' := QuotaStep(quotas, s, Publish(m));
    if s' != s {
      PendingKnown(s, KeyOf(m));
      LooseAt(s, KeyOf(m));
      forall k
        ensures k != KeyOf(m) ==> (IsLoose(s', k) <==> IsLoose(s, k))
      {
        SameEdits(s, s', k);
      }
      LooseLess(s, s', KeyOf(m));
      Listed(s, s', m, id);
    }
  }

  lemma AbandonStep(quotas: Quotas, s: QuotaState, key: BlobKey, id: NamespaceId)
    requires QuotaInv(s)
    ensures NotMore(s, QuotaStep(quotas, s, Abandon(key)), id)
  {
    hide QuotaInv, Edited, Loose, ObjectsIn, BytesIn;
    var s' := QuotaStep(quotas, s, Abandon(key));
    forall k
      ensures k != key ==> (IsLoose(s', k) <==> IsLoose(s, k))
    {
      SameEdits(s, s', k);
    }
    if key in s.pending {
      PendingKnown(s, key);
      SameEdits(s, s', key);
      LooseLess(s, s', key);
    } else {
      assert s'.pending == s.pending;
      LooseSame(s, s');
    }
    GivenUp(s, s', key, id);
  }

  lemma ListedKnown(s: QuotaState, key: BlobKey)
    requires QuotaInv(s) && key in s.manifests
    ensures Known(s, key, s.manifests[key]) && key !in s.pending && KeyOf(s.last[key]) == key
  {
    hide Edited;
  }

  lemma RemoveStep(quotas: Quotas, s: QuotaState, key: BlobKey, id: NamespaceId)
    requires QuotaInv(s)
    ensures NotMore(s, QuotaStep(quotas, s, Remove(key)), id)
  {
    hide QuotaInv, Edited, Loose, ObjectsIn, BytesIn;
    var s' := QuotaStep(quotas, s, Remove(key));
    if key in s.manifests {
      ListedKnown(s, key);
      LooseAt(s, key);
      forall k
        ensures Edited(s', k) <==> Edited(s, k)
        ensures k != key ==> (IsLoose(s', k) <==> IsLoose(s, k))
      {
        SameEdits(s, s', k);
      }
      if Edited(s, key) {
        assert s'.last == s.last[key := s.last[key]];
        LooseMore(s, s', key);
      } else {
        LooseSame(s, s');
      }
      Unlisted(s, s', key, id);
    } else {
      assert s' == s;
    }
  }

  lemma EditReadStep(quotas: Quotas, s: QuotaState, edit: nat, key: BlobKey, id: NamespaceId)
    requires QuotaInv(s)
    ensures NotMore(s, QuotaStep(quotas, s, EditRead(edit, key)), id)
  {
    hide QuotaInv, Edited, Loose, ObjectsIn, BytesIn;
    var s' := QuotaStep(quotas, s, EditRead(edit, key));
    if s' != s {
      ListedKnown(s, key);
      forall k
        ensures IsLoose(s', k) <==> IsLoose(s, k)
      {
        EditBegins(s, s', edit, s.manifests[key], k);
      }
      LooseSame(s, s');
    }
  }

  lemma EditWriteStep(quotas: Quotas, s: QuotaState, edit: nat,
    nameEnc: Option<Str>, objectId: Option<Str>, id: NamespaceId)
    requires QuotaInv(s)
    ensures NotMore(s, QuotaStep(quotas, s, EditWrite(edit, nameEnc, objectId)), id)
  {
    hide QuotaInv, Edited, Loose, ObjectsIn, BytesIn;
    var s' := QuotaStep(quotas, s, EditWrite(edit, nameEnc, objectId));
    if edit in s.edits {
      var m := s.edits[edit].(nameEnc := nameEnc, objectId := objectId);
      EditKnown(s, edit);
      forall k
        ensures k != KeyOf(m) ==> (IsLoose(s', k) <==> IsLoose(s, k))
      {
        EditEnds(s, s', edit, k);
      }
      EditEnds(s, s', edit, KeyOf(m));
      LooseAt(s, KeyOf(m));
      if KeyOf(m) in s.manifests {
        ListedKnown(s, KeyOf(m));
        LooseSame(s, s');
        Replaced(s, s', m, id);
      } else {
        LooseLess(s, s', KeyOf(m));
        Listed(s, s', m, id);
      }
    }
  }

  lemma EditDropStep(quotas: Quotas, s: QuotaState, edit: nat, id: NamespaceId)
    requires QuotaInv(s)
    ensures NotMore(s, QuotaStep(quotas, s, EditDrop(edit)), id)
  {
    hide QuotaInv, Edited, Loose, ObjectsIn, BytesIn;
    var s' := QuotaStep(quotas, s, EditDrop(edit));
    if edit in s.edits {
      var key := KeyOf(s.edits[edit]);
      EditKnown(s, edit);
      forall k
        ensures k != key ==> (IsLoose(s', k) <==> IsLoose(s, k))
      {
        EditEnds(s, s', edit, k);
      }
      EditEnds(s, s', edit, key);
      if IsLoose(s', key) {
        LooseSame(s, s');
      } else {
        LooseLess(s, s', key);
      }
      GivenUp(s, s', key, id);
    } else {
      assert s' == s;
    }
  }

  lemma NotMoreKeeps(s: QuotaState, s': QuotaState, q: Quota, id: NamespaceId, p: nat, largest: nat)
    requires p >= 1 && WithinQuota(s, q, id, p, largest) && NotMore(s, s', id)
    ensures WithinQuota(s', q, id, p, largest)
  {
    hide ObjectsIn, BytesIn, Loose;
  }

  lemma OtherSteps(quotas: Quotas, s: QuotaState, e: QuotaEvent, id: NamespaceId)
    requires QuotaInv(s) && !e.Check?
    ensures NotMore(s, QuotaStep(quotas, s, e), id)
  {
    hide QuotaInv, QuotaStep, NotMore;
    match e
    case Publish(m) => PublishStep(quotas, s, m, id);
    case Abandon(key) => AbandonStep(quotas, s, key, id);
    case Remove(key) => RemoveStep(quotas, s, key, id);
    case EditRead(edit, key) => EditReadStep(quotas, s, edit, key, id);
    case EditWrite(edit, nameEnc, objectId) => EditWriteStep(quotas, s, edit, nameEnc, objectId, id);
    case EditDrop(edit) => EditDropStep(quotas, s, edit, id);
  }

  lemma CheckLoose(quotas: Quotas, s: QuotaState, m: Manifest)
    requires QuotaInv(s)
    ensures
      var s' := QuotaStep(quotas, s, Check(m));
      && s'.manifests == s.manifests
      && (s' == s || (KeyOf(m) !in Loose(s) && Loose(s') == Loose(s)[KeyOf(m) := m]))
  {
    hide QuotaInv, Edited, Loose, UsageIn;
    var s' := QuotaStep(quotas, s, Check(m));
    if s' != s {
      FreshUnlisted(s, KeyOf(m));
      LooseAt(s, KeyOf(m));
      forall k
        ensures k != KeyOf(m) ==> (IsLoose(s', k) <==> IsLoose(s, k))
      {
        SameEdits(s, s', k);
      }
      LooseMore(s, s', KeyOf(m));
    }
  }

  lemma FreshUnlisted(s: QuotaState, key: BlobKey)
    requires QuotaInv(s) && key !in s.last
    ensures key !in s.manifests
  {
    hide Edited;
  }

  lemma CheckAdmits(quotas: Quotas, s: QuotaState, m: Manifest)
    requires QuotaStep(quotas, s, Check(m)) != s
    ensures
      var usage := UsageIn(s.manifests, m.namespace);
      quotas(m.namespace).Admits(usage.bytes, usage.objects, m.ciphertextLen)
  {
    hide UsageIn;
  }

  lemma CheckStep(quotas: Quotas, s: QuotaState, m: Manifest, id: NamespaceId, p: nat, largest: nat)
    requires p >= 1 && QuotaInv(s) && WithinQuota(s, quotas(id), id, p, largest)
    requires InFlight(s, id, p, largest) && InFlight(QuotaStep(quotas, s, Check(m)), id, p, largest)
    requires quotas(id).maxObjects + (p - 1) < U64_LIMIT && quotas(id).maxBytes + (p - 1) * largest < U64_LIMIT
    requires quotas(id).maxBytes < U64_MAX
    ensures WithinQuota(QuotaStep(quotas, s, Check(m)), quotas(id), id, p, largest)
  {
    hide QuotaInv, QuotaStep, InFlight, Loose, UsageIn, BytesIn, ObjectsIn;
    var s' := QuotaStep(quotas, s, Check(m));
    CheckLoose(quotas, s, m);
    if s' != s {
      CheckAdmits(quotas, s, m);
      UsageExact(s.manifests, id);
      PutCounted(Loose(s), m, id);
      LooseBound(s, id, p, largest);
      LooseBound(s', id, p, largest);
      if m.namespace == id {
        RoomForOne(ObjectsIn(Loose(s), id), p, largest);
      }
    }
  }

  lemma RoomForOne(others: nat, p: nat, largest: nat)
    requires others + 1 <= p
    ensures others * largest <= (p - 1) * largest
  {}

  /** However puts, deletes and name edits interleave: with at most p writes of a namespace on their way, be
      they puts between check and publication or name edits between read and write, it exceeds its quota by
      at most p - 1 objects and p - 1 times the largest of them, and the 64-bit usage never wraps. With p = 1
      the quota is exact. The byte limit must be below the largest `u64`, at which it limits nothing. */
  lemma {:induction false} QuotaBound(quotas: Quotas, events: seq<QuotaEvent>, id: NamespaceId, p: nat, largest: nat)
    requires p >= 1
    requires forall i :: 0 <= i <= |events| ==> InFlight(QuotaAfter(quotas, events[..i]), id, p, largest)
    requires quotas(id).maxObjects + (p - 1) < U64_LIMIT && quotas(id).maxBytes + (p - 1) * largest < U64_LIMIT
    requires quotas(id).maxBytes < U64_MAX
    ensures QuotaInv(QuotaAfter(quotas, events))
    ensures WithinQuota(QuotaAfter(quotas, events), quotas(id), id, p, largest)
    ensures UsageIn(QuotaAfter(quotas, events).manifests, id)
         == NamespaceUsage(BytesIn(QuotaAfter(quotas, events).manifests, id),
                           ObjectsIn(QuotaAfter(quotas, events).manifests, id))
  {
    hide *;
    if events == [] {
      NothingUsed(quotas, id, p, largest);
    } else {
      var front, e := events[..|events| - 1], events[|events| - 1];
      forall i | 0 <= i <= |front|
        ensures InFlight(QuotaAfter(quotas, front[..i]), id, p, largest)
      {
        assert front[..i] == events[..i];
      }
      QuotaBound(quotas, front, id, p, largest);
      var s := QuotaAfter(quotas, front);
      QuotaInvStep(quotas, s, e);
      assert events[..|events|] == events == front + [e] && front[..|front|] == front;
      QuotaSnoc(quotas, front, e);
      match e {
        case Check(m) => CheckStep(quotas, s, m, id, p, largest);
        case _ =>
          OtherSteps(quotas, s, e, id);
          NotMoreKeeps(s, QuotaStep(quotas, s, e), quotas(id), id, p, largest);
      }
    }
    NoWrap(QuotaAfter(quotas, events), quotas(id), id, p, largest);
  }

  lemma NothingUsed(quotas: Quotas, id: NamespaceId, p: nat, largest: nat)
    requires p >= 1
    ensures QuotaInv(QuotaAfter(quotas, [])) && WithinQuota(QuotaAfter(quotas, []), quotas(id), id, p, largest)
  {
    assert Loose(UNUSED) == map[];
    assert InNamespace(map[], id) == map[];
    NoBytes();
  }

  lemma QuotaSnoc(quotas: Quotas, events: seq<QuotaEvent>, e: QuotaEvent)
    ensures QuotaAfter(quotas, events + [e]) == QuotaStep(quotas, QuotaAfter(quotas, events), e)
  {
    assert (events + [e])[..|events|] == events;
  }

  lemma NoWrap(s: QuotaState, q: Quota, id: NamespaceId, p: nat, largest: nat)
    requires p >= 1 && WithinQuota(s, q, id, p, largest)
    requires q.maxObjects + (p - 1) < U64_LIMIT && q.maxBytes + (p - 1) * largest < U64_LIMIT
    ensures UsageIn(s.manifests, id) == NamespaceUsage(BytesIn(s.manifests, id), ObjectsIn(s.manifests, id))
  {
    hide BytesIn, ObjectsIn, UsageIn, Loose;
    UsageExact(s.manifests, id);
  }
}
