/** The bound on quotas under concurrency is reached: for every quota, every number of writes on their way and
    every largest size there is a run that ends at it, with puts only, and with one put at a time and name edits.
  */
module QuotaExcess {
  import opened Prelude
  import opened Domain
  import opened Stores
  import opened QuotaRuns

  /** A namespace filled in puts of at most `largest` bytes, with up to `p` writes on their way. */
  datatype Fill = Fill(quotas: Quotas, id: NamespaceId, p: nat, largest: nat) {
    function Max(): Quota { quotas(id) }

    predicate Ok() {
      1 <= p && 1 <= Max().maxObjects < U64_LIMIT && largest <= Max().maxBytes < U64_MAX
    }

    /** How many blobs leave room for just one more. */
    function Base(): nat
      requires Ok()
    {
      Max().maxObjects - 1
    }

    /** The bytes of the first i blobs: as many as leave room for a largest one, and p of these. */
    function Sum(i: nat): nat
      requires Ok()
    {
      var base := Base();
      Min(Min(i, base) * largest, Max().maxBytes - largest) + if i <= base then 0 else (i - base) * largest
    }

    function Blob(i: nat): Manifest
      requires Ok()
    {
      SumSteps(this, i);
      Manifest(Name(i), id, ErasureParams(1, 1), [], Sum(i + 1) - Sum(i), 0, None, None)
    }

    function Key(i: nat): BlobKey { (id, Name(i)) }
  }

  function Name(i: nat): (name: BlobId)
    ensures |name| == i
  {
    seq(i, _ => 0)
  }

  lemma SumSteps(c: Fill, i: nat)
    requires c.Ok()
    ensures c.Sum(i) <= c.Sum(i + 1) <= c.Sum(i) + c.largest
    ensures i < c.Base() ==> c.Sum(i + 1) + c.largest <= c.Max().maxBytes
    ensures i == c.Base() ==> c.Sum(i) + c.largest <= c.Max().maxBytes
    ensures i >= c.Base() ==> c.Sum(i + 1) == c.Sum(i) + c.largest
    ensures c.Sum(0) == 0
  {
    var base := c.Base();
    if i < base {
      assert (i + 1) * c.largest == i * c.largest + c.largest;
    } else {
      assert (i + 1 - base) * c.largest == (i - base) * c.largest + c.largest;
    }
  }

  lemma SumTotal(c: Fill)
    requires c.Ok()
    ensures c.Sum(c.Base() + c.p)
         == Min(c.Max().maxBytes, c.Max().maxObjects * c.largest) + (c.p - 1) * c.largest
  {
    var base := c.Base();
    assert c.Max().maxObjects * c.largest == base * c.largest + c.largest;
    assert c.p * c.largest == (c.p - 1) * c.largest + c.largest;
    assert (base + c.p - base) * c.largest == c.p * c.largest;
  }

  // ---- The states of the runs ----

  /** The numbers from lo up to hi. */
  datatype Span = Span(lo: nat, hi: nat) {
    predicate Has(i: nat) { lo <= i < hi }
    function Size(): nat { if lo <= hi then hi - lo else 0 }
  }

  const NONE := Span(0, 0)

  /** The blobs of these numbers; the number of a blob is the length of its name. */
  function Blobs(c: Fill, x: Span): map<BlobKey, Manifest>
    requires c.Ok()
  {
    map key | key in Keys(c, x) :: c.Blob(|key.1|)
  }

  function Keys(c: Fill, x: Span): set<BlobKey> { set i: nat | x.lo <= i < x.hi :: c.Key(i) }

  lemma KeysAt(c: Fill, x: Span, key: BlobKey)
    ensures key in Keys(c, x) <==> x.Has(|key.1|) && key == c.Key(|key.1|)
  {}

  lemma BlobsAt(c: Fill, x: Span, i: nat)
    requires c.Ok()
    ensures c.Key(i) in Blobs(c, x) <==> x.Has(i)
    ensures x.Has(i) ==> Blobs(c, x)[c.Key(i)] == c.Blob(i)
  {
    KeysAt(c, x, c.Key(i));
    hide Keys;
  }

  lemma BlobsIn(c: Fill, x: Span, key: BlobKey)
    requires c.Ok() && key in Blobs(c, x)
    ensures key == c.Key(|key.1|) && x.Has(|key.1|) && Blobs(c, x)[key] == c.Blob(|key.1|)
  {
    KeysAt(c, x, key);
    hide Keys;
  }

  lemma BlobKeyed(c: Fill, i: nat)
    requires c.Ok()
    ensures KeyOf(c.Blob(i)) == c.Key(i) && c.Key(i).0 == c.id && c.Blob(i).ciphertextLen <= c.largest
    ensures c.Blob(i).namespace == c.id && c.Blob(i).ciphertextLen == c.Sum(i + 1) - c.Sum(i)
    ensures c.Blob(i).(nameEnc := None, objectId := None) == c.Blob(i)
  {
    SumSteps(c, i);
    hide Fill.Sum;
  }

  lemma BlobsMore(c: Fill, x: Span)
    requires c.Ok() && x.lo <= x.hi
    ensures Blobs(c, x)[c.Key(x.hi) := c.Blob(x.hi)] == Blobs(c, Span(x.lo, x.hi + 1))
  {
    forall key
      ensures key in Keys(c, Span(x.lo, x.hi + 1)) <==> key in Keys(c, x) || key == c.Key(x.hi)
    {
      KeysAt(c, Span(x.lo, x.hi + 1), key);
      KeysAt(c, x, key);
    }
    hide Keys, Fill.Sum;
  }

  lemma BlobsLess(c: Fill, x: Span)
    requires c.Ok() && x.lo < x.hi
    ensures Blobs(c, x) - {c.Key(x.lo)} == Blobs(c, Span(x.lo + 1, x.hi))
  {
    forall key
      ensures key in Keys(c, Span(x.lo + 1, x.hi)) <==> key in Keys(c, x) && key != c.Key(x.lo)
    {
      KeysAt(c, Span(x.lo + 1, x.hi), key);
      KeysAt(c, x, key);
    }
    hide Keys, Fill.Sum;
  }

  lemma BlobsNone(c: Fill, x: Span)
    requires c.Ok() && x.lo >= x.hi
    ensures Blobs(c, x) == map[]
  {}

  lemma {:induction false} BlobsSize(c: Fill, x: Span)
    requires c.Ok()
    ensures |Blobs(c, x)| == x.Size()
    decreases x.Size()
  {
    if x.lo >= x.hi {
      BlobsNone(c, x);
    } else {
      BlobsSize(c, Span(x.lo + 1, x.hi));
      BlobsLess(c, x);
      BlobsAt(c, x, x.lo);
      hide Blobs, Fill.Sum;
    }
  }

  /** How much the first n blobs are. */
  lemma {:induction false} BlobsCounted(c: Fill, n: nat)
    requires c.Ok()
    ensures ObjectsIn(Blobs(c, Span(0, n)), c.id) == n && BytesIn(Blobs(c, Span(0, n)), c.id) == c.Sum(n)
  {
    hide ObjectsIn, BytesIn, Blobs, Fill.Sum, Fill.Ok;
    if n == 0 {
      SumSteps(c, 0);
      BlobsNone(c, Span(0, 0));
      NothingIn(c.id);
    } else {
      var before := Blobs(c, Span(0, n - 1));
      BlobsCounted(c, n - 1);
      BlobsMore(c, Span(0, n - 1));
      BlobKeyed(c, n - 1);
      BlobsAt(c, Span(0, n - 1), n - 1);
      PutCounted(before, c.Blob(n - 1), c.id);
    }
  }

  lemma NothingIn(id: NamespaceId)
    ensures ObjectsIn(map[], id) == 0 && BytesIn(map[], id) == 0
  {
    assert InNamespace(map[], id) == map[];
  }

  /** The first n blobs listed and these late ones, others checked but not published or read by name edits, and
      the blobs ever checked. */
  function At(c: Fill, n: nat, late: Span, pending: Span, edited: Span, known: nat): QuotaState
    requires c.Ok()
  {
    QuotaState(Blobs(c, Span(0, n)) + Blobs(c, late), Blobs(c, pending), Edits(c, edited), Blobs(c, Span(0, known)))
  }

  function Edits(c: Fill, x: Span): map<nat, Manifest>
    requires c.Ok()
  {
    map i: nat | x.lo <= i < x.hi :: c.Blob(i)
  }

  ghost predicate Crowded(c: Fill, s: QuotaState, puts: nat) {
    InFlight(s, c.id, c.p, c.largest) && |s.pending| <= puts
  }

  /** Throughout the run, at most p writes of the namespace on their way, and at most so many of them puts. */
  ghost predicate Crowd(c: Fill, events: seq<QuotaEvent>, puts: nat) {
    forall i :: 0 <= i <= |events| ==> Crowded(c, QuotaAfter(c.quotas, events[..i]), puts)
  }

  ghost predicate Reached(c: Fill, puts: nat, s: QuotaState) {
    exists events :: QuotaAfter(c.quotas, events) == s && Crowd(c, events, puts)
  }

  lemma AtBusy(c: Fill, n: nat, late: Span, pending: Span, edited: Span, known: nat, key: BlobKey)
    requires c.Ok() && key in Busy(At(c, n, late, pending, edited, known), c.id)
    ensures key in Blobs(c, pending) || key in Blobs(c, edited)
    ensures At(c, n, late, pending, edited, known).last[key].ciphertextLen <= c.largest
  {
    var s := At(c, n, late, pending, edited, known);
    BlobsIn(c, Span(0, known), key);
    BlobKeyed(c, |key.1|);
    if key !in s.pending {
      var i :| i in s.edits && KeyOf(s.edits[i]) == key;
      BlobKeyed(c, i);
      BlobsAt(c, edited, i);
    }
  }

  lemma AtCrowded(c: Fill, n: nat, late: Span, pending: Span, edited: Span, known: nat, puts: nat)
    requires c.Ok() && pending.Size() <= puts && pending.Size() + edited.Size() <= c.p
    ensures Crowded(c, At(c, n, late, pending, edited, known), puts)
  {
    var s := At(c, n, late, pending, edited, known);
    var busy := Blobs(c, pending).Keys + Blobs(c, edited).Keys;
    BlobsSize(c, pending);
    BlobsSize(c, edited);
    forall key | key in Busy(s, c.id)
      ensures key in busy && s.last[key].ciphertextLen <= c.largest
    {
      AtBusy(c, n, late, pending, edited, known, key);
    }
    hide Blobs, Busy, Edits, Fill.Ok;
    SubsetSize(Busy(s, c.id), busy);
    assert |Blobs(c, pending).Keys| == |Blobs(c, pending)| && |Blobs(c, edited).Keys| == |Blobs(c, edited)|;
  }

  lemma Reach(c: Fill, puts: nat, s: QuotaState, e: QuotaEvent, s': QuotaState)
    requires Reached(c, puts, s) && QuotaStep(c.quotas, s, e) == s' && Crowded(c, s', puts)
    ensures Reached(c, puts, s')
  {
    hide QuotaStep, QuotaAfter, Crowded;
    var events :| QuotaAfter(c.quotas, events) == s && Crowd(c, events, puts);
    QuotaSnoc(c.quotas, events, e);
    var longer := events + [e];
    forall i | 0 <= i <= |longer|
      ensures Crowded(c, QuotaAfter(c.quotas, longer[..i]), puts)
    {
      assert longer[..i] == if i <= |events| then events[..i] else longer;
    }
    assert Crowd(c, longer, puts);
  }

  lemma ReachedFirst(c: Fill, puts: nat)
    requires c.Ok()
    ensures Reached(c, puts, At(c, 0, NONE, NONE, NONE, 0))
  {
    var none: seq<QuotaEvent> := [];
    BlobsNone(c, NONE);
    assert Edits(c, NONE) == map[];
    assert QuotaAfter(c.quotas, none) == UNUSED == At(c, 0, NONE, NONE, NONE, 0);
    AtCrowded(c, 0, NONE, NONE, NONE, 0, puts);
    hide Blobs, At, Crowded, QuotaAfter;
    assert none[..0] == none;
    assert Crowd(c, none, puts);
  }

  // ---- The steps ----

  lemma AtIs(c: Fill, n: nat, late: Span, pending: Span, edited: Span, known: nat)
    requires c.Ok()
    ensures At(c, n, late, pending, edited, known)
         == QuotaState(Blobs(c, Span(0, n)) + Blobs(c, late), Blobs(c, pending),
           Edits(c, edited), Blobs(c, Span(0, known)))
  {}

  lemma Plus(first: map<BlobKey, Manifest>, late: map<BlobKey, Manifest>, key: BlobKey, m: Manifest)
    ensures first + map[] == first && first + map[key := m] == first[key := m]
    ensures key !in first ==> (first + map[key := m]) - {key} == first
    ensures key !in late ==> (first + late)[key := m] == first[key := m] + late
  {}

  lemma BlobsOne(c: Fill, i: nat)
    requires c.Ok()
    ensures Blobs(c, Span(i, i + 1)) == map[c.Key(i) := c.Blob(i)] && Blobs(c, NONE) == map[] == Blobs(c, Span(i, i))
  {
    BlobsNone(c, NONE);
    BlobsNone(c, Span(i, i));
    BlobsMore(c, Span(i, i));
    hide Blobs, Fill.Ok;
  }

  lemma HasIs(lo: nat, hi: nat, i: nat)
    ensures Span(lo, hi).Has(i) <==> lo <= i < hi
    ensures NONE == Span(0, 0)
  {}

  /** The check of the next blob passes while the first n are listed, be it the last that still fits. */
  lemma Checks(c: Fill, n: nat, pending: Span, edited: Span)
    requires c.Ok() && pending.lo <= pending.hi && n <= c.Base() && (n == pending.hi || n == c.Base())
    ensures QuotaStep(c.quotas, At(c, n, NONE, pending, edited, pending.hi), Check(c.Blob(pending.hi)))
         == At(c, n, NONE, Span(pending.lo, pending.hi + 1), edited, pending.hi + 1)
  {
    hide *;
    var known := pending.hi;
    AtIs(c, n, NONE, pending, edited, known);
    AtIs(c, n, NONE, Span(pending.lo, known + 1), edited, known + 1);
    BlobsOne(c, known);
    Plus(Blobs(c, Span(0, n)), map[], c.Key(known), c.Blob(known));
    Admitted(c, n, known);
    BlobKeyed(c, known);
    BlobsMore(c, pending);
    BlobsMore(c, Span(0, known));
    BlobsAt(c, Span(0, known), known);
    HasIs(0, known, known);
    MaxIs(c);
    CheckIs(c.quotas, At(c, n, NONE, pending, edited, known), c.Blob(known));
  }

  lemma MaxIs(c: Fill)
    ensures c.Max() == c.quotas(c.id)
  {}

  lemma CheckIs(quotas: Quotas, s: QuotaState, m: Manifest)
    requires KeyOf(m) !in s.last
    requires
      var usage := UsageIn(s.manifests, m.namespace);
      quotas(m.namespace).Admits(usage.bytes, usage.objects, m.ciphertextLen)
    ensures QuotaStep(quotas, s, Check(m)) == s.(pending := s.pending[KeyOf(m) := m], last := s.last[KeyOf(m) := m])
  {
    hide UsageIn;
  }

  lemma Admitted(c: Fill, n: nat, i: nat)
    requires c.Ok() && n <= c.Base() && (n == i || n == c.Base())
    ensures
      var usage := UsageIn(Blobs(c, Span(0, n)), c.id);
      c.Max().Admits(usage.bytes, usage.objects, c.Blob(i).ciphertextLen)
  {
    BlobsCounted(c, n);
    AtMax(c, n);
    BlobKeyed(c, i);
    hide UsageIn, ObjectsIn, BytesIn, Blobs, Fill.Sum;
    UsageExact(Blobs(c, Span(0, n)), c.id);
  }

  lemma AtMax(c: Fill, n: nat)
    requires c.Ok() && n <= c.Base()
    ensures c.Sum(n) + c.largest <= c.Max().maxBytes
  {}

  /** A pending blob is published right behind those listed, or as the next late one. */
  lemma Publishes(c: Fill, n: nat, pending: Span, edited: Span, known: nat)
    requires c.Ok() && pending.lo < pending.hi
    ensures
      var i := pending.lo;
      var s' := QuotaStep(c.quotas, At(c, n, NONE, pending, edited, known), Publish(c.Blob(i)));
      && s' == At(c, n, Span(i, i + 1), Span(i + 1, pending.hi), edited, known)
      && (i == n ==> s' == At(c, n + 1, NONE, Span(i + 1, pending.hi), edited, known))
  {
    hide *;
    var i := pending.lo;
    AtIs(c, n, NONE, pending, edited, known);
    AtIs(c, n, Span(i, i + 1), Span(i + 1, pending.hi), edited, known);
    AtIs(c, n + 1, NONE, Span(i + 1, pending.hi), edited, known);
    BlobKeyed(c, i);
    BlobsAt(c, pending, i);
    HasIs(pending.lo, pending.hi, i);
    BlobsLess(c, pending);
    BlobsOne(c, i);
    BlobsMore(c, Span(0, n));
    Plus(Blobs(c, Span(0, n)), map[], c.Key(i), c.Blob(i));
    Plus(Blobs(c, Span(0, n + 1)), map[], c.Key(i), c.Blob(i));
    PublishIs(c.quotas, At(c, n, NONE, pending, edited, known), c.Blob(i));
  }

  lemma PublishIs(quotas: Quotas, s: QuotaState, m: Manifest)
    requires KeyOf(m) in s.pending && s.pending[KeyOf(m)] == m
    ensures QuotaStep(quotas, s, Publish(m))
         == s.(manifests := s.manifests[KeyOf(m) := m], pending := s.pending - {KeyOf(m)})
  {
    hide UsageIn;
  }

  /** A name edit reads the late blob. */
  lemma Reads(c: Fill, n: nat, edited: Span, known: nat)
    requires c.Ok() && edited.lo <= edited.hi
    ensures
      var i := edited.hi;
      QuotaStep(c.quotas, At(c, n, Span(i, i + 1), NONE, edited, known), EditRead(i, c.Key(i)))
      == At(c, n, Span(i, i + 1), NONE, Span(edited.lo, i + 1), known)
  {
    hide *;
    var i := edited.hi;
    AtIs(c, n, Span(i, i + 1), NONE, edited, known);
    AtIs(c, n, Span(i, i + 1), NONE, Span(edited.lo, i + 1), known);
    BlobsOne(c, i);
    EditsMore(c, edited);
    EditReadIs(c.quotas, At(c, n, Span(i, i + 1), NONE, edited, known), i, c.Key(i));
  }

  lemma EditsMore(c: Fill, x: Span)
    requires c.Ok() && x.lo <= x.hi
    ensures x.hi !in Edits(c, x) && Edits(c, x)[x.hi := c.Blob(x.hi)] == Edits(c, Span(x.lo, x.hi + 1))
  {
    hide Fill.Blob;
  }

  lemma EditsLess(c: Fill, x: Span)
    requires c.Ok() && x.lo < x.hi
    ensures x.lo in Edits(c, x) && Edits(c, x)[x.lo] == c.Blob(x.lo)
    ensures Edits(c, x) - {x.lo} == Edits(c, Span(x.lo + 1, x.hi))
  {
    hide Fill.Blob;
  }

  lemma EditReadIs(quotas: Quotas, s: QuotaState, i: nat, key: BlobKey)
    requires key in s.manifests && i !in s.edits
    ensures QuotaStep(quotas, s, EditRead(i, key)) == s.(edits := s.edits[i := s.manifests[key]])
  {
    hide UsageIn;
  }

  /** The late blob is deleted. */
  lemma Removes(c: Fill, n: nat, i: nat, edited: Span, known: nat)
    requires c.Ok() && n <= i
    ensures QuotaStep(c.quotas, At(c, n, Span(i, i + 1), NONE, edited, known), Remove(c.Key(i)))
         == At(c, n, NONE, NONE, edited, known)
  {
    hide *;
    AtIs(c, n, Span(i, i + 1), NONE, edited, known);
    AtIs(c, n, NONE, NONE, edited, known);
    BlobsOne(c, i);
    BlobsAt(c, Span(0, n), i);
    HasIs(0, n, i);
    Plus(Blobs(c, Span(0, n)), map[], c.Key(i), c.Blob(i));
    RemoveIs(c.quotas, At(c, n, Span(i, i + 1), NONE, edited, known), c.Key(i));
  }

  lemma RemoveIs(quotas: Quotas, s: QuotaState, key: BlobKey)
    ensures QuotaStep(quotas, s, Remove(key)) == s.(manifests := s.manifests - {key})
  {
    hide UsageIn;
  }

  /** A name edit stores back what it read, right behind the first blobs. */
  lemma Rewrites(c: Fill, n: nat, late: Span, edited: Span, known: nat)
    requires c.Ok() && edited.lo == n < edited.hi && edited.hi <= late.lo
    ensures QuotaStep(c.quotas, At(c, n, late, NONE, edited, known), EditWrite(n, None, None))
         == At(c, n + 1, late, NONE, Span(n + 1, edited.hi), known)
  {
    hide *;
    AtIs(c, n, late, NONE, edited, known);
    AtIs(c, n + 1, late, NONE, Span(n + 1, edited.hi), known);
    BlobKeyed(c, n);
    BlobsMore(c, Span(0, n));
    BlobsAt(c, late, n);
    HasIs(late.lo, late.hi, n);
    EditsLess(c, edited);
    Plus(Blobs(c, Span(0, n)), Blobs(c, late), c.Key(n), c.Blob(n));
    EditWriteIs(c.quotas, At(c, n, late, NONE, edited, known), n);
  }

  lemma EditWriteIs(quotas: Quotas, s: QuotaState, i: nat)
    requires i in s.edits
    ensures
      var m := s.edits[i].(nameEnc := None, objectId := None);
      QuotaStep(quotas, s, EditWrite(i, None, None))
      == s.(manifests := s.manifests[KeyOf(s.edits[i]) := m], edits := s.edits - {i})
  {
    hide UsageIn;
  }

  // ---- The runs ----

  lemma Shape(c: Fill)
    requires c.Ok()
    ensures 1 <= c.p && NONE == Span(0, 0)
    ensures forall lo: nat, hi: nat :: Span(lo, hi).Size() == if lo <= hi then hi - lo else 0
  {}

  /** A put of the next blob, by itself. */
  lemma PutOne(c: Fill, puts: nat, n: nat, known: nat, edited: Span)
    requires c.Ok() && 1 <= puts && n <= c.Base() && (n == known || n == c.Base()) && edited.Size() < c.p
    requires Reached(c, puts, At(c, n, NONE, NONE, edited, known))
    ensures Reached(c, puts, At(c, n, Span(known, known + 1), NONE, edited, known + 1))
    ensures n == known ==> Reached(c, puts, At(c, n + 1, NONE, NONE, edited, known + 1))
  {
    hide *;
    Shape(c);
    var one := Span(known, known + 1);
    NonePending(c, n, NONE, edited, known, known);
    NonePending(c, n, NONE, edited, known + 1, known + 1);
    NonePending(c, n, one, edited, known + 1, known + 1);
    NonePending(c, n + 1, NONE, edited, known + 1, known + 1);
    Checks(c, n, Span(known, known), edited);
    AtCrowded(c, n, NONE, one, edited, known + 1, puts);
    Reach(c, puts, At(c, n, NONE, Span(known, known), edited, known), Check(c.Blob(known)),
      At(c, n, NONE, one, edited, known + 1));
    Publishes(c, n, one, edited, known + 1);
    AtCrowded(c, n, one, Span(known + 1, known + 1), edited, known + 1, puts);
    Reach(c, puts, At(c, n, NONE, one, edited, known + 1), Publish(c.Blob(known)),
      At(c, n, one, Span(known + 1, known + 1), edited, known + 1));
  }

  lemma NonePending(c: Fill, n: nat, late: Span, edited: Span, known: nat, i: nat)
    requires c.Ok()
    ensures At(c, n, late, Span(i, i), edited, known) == At(c, n, late, NONE, edited, known)
  {
    BlobsNone(c, NONE);
    BlobsNone(c, Span(i, i));
    hide Blobs, Edits;
  }

  lemma NoneEdited(c: Fill, n: nat, late: Span, pending: Span, known: nat, i: nat)
    requires c.Ok()
    ensures At(c, n, late, pending, Span(i, i), known) == At(c, n, late, pending, NONE, known)
  {
    assert Edits(c, Span(i, i)) == Edits(c, NONE);
    hide Blobs, Edits;
  }

  /** One put after the other, as long as two more still fit. */
  lemma {:induction false} Filled(c: Fill, puts: nat, n: nat)
    requires c.Ok() && 1 <= puts && n <= c.Base()
    ensures Reached(c, puts, At(c, n, NONE, NONE, NONE, n))
  {
    hide *;
    if n == 0 {
      ReachedFirst(c, puts);
    } else {
      Shape(c);
      Filled(c, puts, n - 1);
      PutOne(c, puts, n - 1, n - 1, NONE);
    }
  }

  /** Then p puts check before any of them publishes. */
  lemma {:induction false} Checked(c: Fill, j: nat)
    requires c.Ok() && j <= c.p
    ensures Reached(c, c.p, At(c, c.Base(), NONE, Span(c.Base(), c.Base() + j), NONE, c.Base() + j))
  {
    hide *;
    var base := c.Base();
    Shape(c);
    if j == 0 {
      Filled(c, c.p, base);
      NonePending(c, base, NONE, NONE, base, base);
    } else {
      var before, after := Span(base, base + j - 1), Span(base, base + j);
      Checked(c, j - 1);
      Checks(c, base, before, NONE);
      AtCrowded(c, base, NONE, after, NONE, base + j, c.p);
      Reach(c, c.p, At(c, base, NONE, before, NONE, before.hi), Check(c.Blob(before.hi)),
        At(c, base, NONE, after, NONE, base + j));
    }
  }

  /** And publish one by one. */
  lemma {:induction false} Published(c: Fill, j: nat)
    requires c.Ok() && j <= c.p
    ensures
      var n, end := c.Base() + j, c.Base() + c.p;
      Reached(c, c.p, At(c, n, NONE, Span(n, end), NONE, end))
  {
    hide *;
    var end := c.Base() + c.p;
    Shape(c);
    if j == 0 {
      Checked(c, c.p);
    } else {
      var n := c.Base() + j;
      Published(c, j - 1);
      Publishes(c, n - 1, Span(n - 1, end), NONE, end);
      AtCrowded(c, n, NONE, Span(n, end), NONE, end, c.p);
      Reach(c, c.p, At(c, n - 1, NONE, Span(n - 1, end), NONE, end), Publish(c.Blob(n - 1)),
        At(c, n, NONE, Span(n, end), NONE, end));
    }
  }

  /** One put at a time, each read by a name edit and deleted again. */
  lemma {:induction false} EditedAway(c: Fill, j: nat)
    requires c.Ok() && j < c.p
    ensures Reached(c, 1, At(c, c.Base(), NONE, NONE, Span(c.Base(), c.Base() + j), c.Base() + j))
  {
    hide *;
    var base := c.Base();
    Shape(c);
    if j == 0 {
      Filled(c, 1, base);
      NoneEdited(c, base, NONE, NONE, base, base);
    } else {
      var i := base + j - 1;
      var before, after, late := Span(base, i), Span(base, i + 1), Span(i, i + 1);
      EditedAway(c, j - 1);
      PutOne(c, 1, base, i, before);
      Reads(c, base, before, i + 1);
      AtCrowded(c, base, late, NONE, after, i + 1, 1);
      Reach(c, 1, At(c, base, late, NONE, before, i + 1), EditRead(i, c.Key(i)), At(c, base, late, NONE, after, i + 1));
      Removes(c, base, i, after, i + 1);
      AtCrowded(c, base, NONE, NONE, after, i + 1, 1);
      Reach(c, 1, At(c, base, late, NONE, after, i + 1), Remove(c.Key(i)), At(c, base, NONE, NONE, after, i + 1));
    }
  }

  /** After one more put, the edits store back what they read. */
  lemma {:induction false} Restored(c: Fill, j: nat)
    requires c.Ok() && j < c.p
    ensures
      var n, end := c.Base() + j, c.Base() + c.p;
      Reached(c, 1, At(c, n, Span(end - 1, end), NONE, Span(n, end - 1), end))
  {
    hide *;
    var base, end := c.Base(), c.Base() + c.p;
    Shape(c);
    var late := Span(end - 1, end);
    if j == 0 {
      EditedAway(c, c.p - 1);
      PutOne(c, 1, base, end - 1, Span(base, end - 1));
    } else {
      var n := base + j;
      var before, after := Span(n - 1, end - 1), Span(n, end - 1);
      Restored(c, j - 1);
      Rewrites(c, n - 1, late, before, end);
      AtCrowded(c, n, late, NONE, after, end, 1);
      Reach(c, 1, At(c, n - 1, late, NONE, before, end), EditWrite(n - 1, None, None),
        At(c, n, late, NONE, after, end));
    }
  }

  /** The objects are p - 1 over the limit, and the bytes p - 1 times the largest over theirs, or over what so
      many objects can be if that is less. */
  ghost predicate AtBound(c: Fill, s: QuotaState) {
    && ObjectsIn(s.manifests, c.id) == c.Max().maxObjects + (c.p - 1)
    && BytesIn(s.manifests, c.id)
       == Min(c.Max().maxBytes, c.Max().maxObjects * c.largest) + (c.p - 1) * c.largest
  }

  lemma FullAtBound(c: Fill, s: QuotaState)
    requires c.Ok() && s.manifests == Blobs(c, Span(0, c.Base() + c.p))
    ensures AtBound(c, s)
  {
    BlobsCounted(c, c.Base() + c.p);
    SumTotal(c);
    hide Blobs, ObjectsIn, BytesIn, Fill.Sum;
  }

  /** The bound is reached by p puts that all check before any publishes. */
  lemma PutsReachBound(c: Fill)
    requires c.Ok()
    ensures exists events :: Crowd(c, events, c.p) && AtBound(c, QuotaAfter(c.quotas, events))
  {
    hide *;
    Shape(c);
    var end := c.Base() + c.p;
    var s := At(c, end, NONE, Span(end, end), NONE, end);
    AtIs(c, end, NONE, Span(end, end), NONE, end);
    BlobsOne(c, end);
    Plus(Blobs(c, Span(0, end)), map[], c.Key(end), c.Blob(end));
    FullAtBound(c, s);
    Published(c, c.p);
    ReachedRun(c, c.p, s);
  }

  /** It is reached with one put at a time, too, when p - 1 name edits store back what was deleted meanwhile. */
  lemma NameEditsReachBound(c: Fill)
    requires c.Ok()
    ensures exists events :: Crowd(c, events, 1) && AtBound(c, QuotaAfter(c.quotas, events))
  {
    hide *;
    Shape(c);
    var last := c.Base() + c.p - 1;
    var s := At(c, last, Span(last, last + 1), NONE, Span(last, last), last + 1);
    AtIs(c, last, Span(last, last + 1), NONE, Span(last, last), last + 1);
    BlobsOne(c, last);
    BlobsMore(c, Span(0, last));
    Plus(Blobs(c, Span(0, last)), map[], c.Key(last), c.Blob(last));
    FullAtBound(c, s);
    Restored(c, c.p - 1);
    ReachedRun(c, 1, s);
  }

  lemma ReachedRun(c: Fill, puts: nat, s: QuotaState)
    requires Reached(c, puts, s) && AtBound(c, s)
    ensures exists events :: Crowd(c, events, puts) && AtBound(c, QuotaAfter(c.quotas, events))
  {
    hide Crowd, AtBound, QuotaAfter;
  }
}
