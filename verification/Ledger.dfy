/** The append-only intrusion ledger: a hash chain whose head commits to every record. */
module Ledger {
  import opened Prelude
  import opened Domain
  import opened Text

  datatype IntrusionRecord = IntrusionRecord(
    sourceIp: Str, ja3: Option<Str>, attackClass: Str, rejectionReason: Str, atMillis: nat)
  {
    predicate WellFormed() { atMillis < U64_LIMIT }

    /** What the encoding keeps of the optional field: absent and empty look alike. */
    function Ja3Text(): Str { if ja3.Some? then ja3.value else [] }

    function Fields(): seq<Bytes> { [sourceIp, Ja3Text(), attackClass, rejectionReason] }

    ghost predicate NulFree() { AllFree(0, Fields()) }
  }

  datatype LedgerEntry = LedgerEntry(index: nat, record: IntrusionRecord, prevHash: Digest, hash: Digest)

  /** Sixty-four zero digits. */
  function Genesis(): (d: Digest)
    ensures |d| == 64 && forall i :: 0 <= i < 64 ==> d[i] == 48
  {
    seq(64, _ => DIGIT_0)
  }

  /** The bytes hashed for an entry. */
  function Message(index: nat, prevHash: Digest, record: IntrusionRecord): Bytes {
    BigEndian(index, 8) + prevHash + Terminated(0, record.Fields()) + BigEndian(record.atMillis, 8)
  }

  function PrevHash(entries: seq<LedgerEntry>): Digest {
    if entries == [] then Genesis() else entries[|entries| - 1].hash
  }

  ghost predicate EntryOk(h: Hash, entries: seq<LedgerEntry>, i: nat)
    requires i < |entries|
  {
    var e := entries[i];
    && e.index == i
    && e.prevHash == PrevHash(entries[..i])
    && e.hash == h(Message(e.index, e.prevHash, e.record))
  }

  /** What `verify` accepts. */
  ghost predicate Chained(h: Hash, entries: seq<LedgerEntry>) {
    forall i :: 0 <= i < |entries| ==> EntryOk(h, entries, i)
  }

  class LedgerIntrusionSink {
    const h: Hash
    var entries: seq<LedgerEntry>

    constructor (h: Hash)
      ensures this.h == h && entries == [] && Chained(h, entries)
    {
      this.h := h;
      entries := [];
    }

    /** Update the hasher field by field, a zero byte after each text. */
    method EntryHash(index: nat, prevHash: Digest, record: IntrusionRecord) returns (r: Digest)
      ensures r == h(Message(index, prevHash, record))
      ensures r == h(BigEndian(index, 8) + prevHash
                     + record.sourceIp + [0] + (if record.ja3.Some? then record.ja3.value else []) + [0]
                     + record.attackClass + [0] + record.rejectionReason + [0] + BigEndian(record.atMillis, 8))
    {
      var m := BigEndian(index, 8);
      m := m + prevHash;
      m := m + record.sourceIp + [0];
      m := m + record.Ja3Text() + [0];
      m := m + record.attackClass + [0];
      m := m + record.rejectionReason + [0];
      m := m + BigEndian(record.atMillis, 8);
      FieldsSpelledOut(record);
      assert m == Message(index, prevHash, record);
      return h(m);
    }

    /** Appending commits to the previous entry and keeps a verifying ledger verifying. */
    method Append(record: IntrusionRecord)
      modifies this`entries
      ensures |entries| == |old(entries)| + 1 && entries[..|old(entries)|] == old(entries)
      ensures
        var last, prevHash := entries[|old(entries)|], PrevHash(old(entries));
        last == LedgerEntry(|old(entries)|, record, prevHash, h(Message(|old(entries)|, prevHash, record)))
      ensures old(entries) == [] ==> entries[0].prevHash == Genesis()
      ensures old(entries) != [] ==> entries[|old(entries)|].prevHash == old(entries)[|old(entries)| - 1].hash
      ensures EntryOk(h, entries, |old(entries)|)
      ensures Chained(h, entries) <==> Chained(h, old(entries))
    {
      var index := |entries|;
      var prevHash := PrevHash(entries);
      var hash := EntryHash(index, prevHash, record);
      ghost var before := entries;
      entries := entries + [LedgerEntry(index, record, prevHash, hash)];
      assert entries[..index] == before;
      forall i | 0 <= i < index
        ensures EntryOk(h, entries, i) <==> EntryOk(h, before, i)
      {
        assert entries[..i] == before[..i];
      }
    }

    method Verify() returns (ok: bool)
      ensures ok <==> Chained(h, entries)
    {
      var prev := Genesis();
      for i := 0 to |entries|
        invariant forall j :: 0 <= j < i ==> EntryOk(h, entries, j)
        invariant prev == PrevHash(entries[..i])
      {
        var e := entries[i];
        if e.index != i || e.prevHash != prev {
          assert !EntryOk(h, entries, i);
          return false;
        }
        var hash := EntryHash(e.index, e.prevHash, e.record);
        if e.hash != hash {
          assert !EntryOk(h, entries, i);
          return false;
        }
        prev := e.hash;
      }
      return true;
    }
  }

  lemma FieldsSpelledOut(record: IntrusionRecord)
    ensures Terminated(0, record.Fields())
         == record.sourceIp + [0] + record.Ja3Text() + [0] + record.attackClass + [0] + record.rejectionReason + [0]
  {
    var f := record.Fields();
    assert f[1..] == [f[1], f[2], f[3]] && [f[1], f[2], f[3]][1..] == [f[2], f[3]] && [f[2], f[3]][1..] == [f[3]];
    assert Terminated(0, [f[3]]) == f[3] + [0];
    assert Terminated(0, [f[2], f[3]]) == f[2] + [0] + (f[3] + [0]);
    assert Terminated(0, [f[1], f[2], f[3]]) == f[1] + [0] + (f[2] + [0] + (f[3] + [0]));
  }

  // ---- Tamper evidence ----

  /** Records are told apart up to an absent or empty fingerprint. */
  predicate SameRecord(a: IntrusionRecord, b: IntrusionRecord) {
    a.Fields() == b.Fields() && a.atMillis == b.atMillis
  }

  ghost predicate SameRecords(a: seq<LedgerEntry>, b: seq<LedgerEntry>) {
    |a| == |b| && forall i :: 0 <= i < |a| ==> SameRecord(a[i].record, b[i].record)
  }

  /** Digests have 64 digits, and no entry of one ledger collides with an entry of the other. */
  ghost predicate NoCollision(h: Hash, a: seq<LedgerEntry>, b: seq<LedgerEntry>) {
    && (forall m: Bytes :: |h(m)| == 64)
    && (forall i, j :: 0 <= i < |a| && 0 <= j < |b| ==>
          var x := Message(a[i].index, a[i].prevHash, a[i].record);
          var y := Message(b[j].index, b[j].prevHash, b[j].record);
          h(x) == h(y) ==> x == y)
  }

  /** The message determines the position, the previous hash and the record; only one side needs
      fields without zero bytes. */
  lemma MessageInjective(i: nat, p: Digest, a: IntrusionRecord, j: nat, q: Digest, b: IntrusionRecord)
    requires i < U64_LIMIT && j < U64_LIMIT && |p| == |q| == 64
    requires a.WellFormed() && b.WellFormed() && a.NulFree()
    requires Message(i, p, a) == Message(j, q, b)
    ensures i == j && p == q && SameRecord(a, b)
  {
    var m, n := Message(i, p, a), Message(j, q, b);
    assert BigEndian(i, 8) == m[..8] && BigEndian(j, 8) == n[..8];
    assert p == m[8..72] && q == n[8..72];
    assert Terminated(0, a.Fields()) == m[72..|m| - 8] && Terminated(0, b.Fields()) == n[72..|n| - 8];
    assert BigEndian(a.atMillis, 8) == m[|m| - 8..] && BigEndian(b.atMillis, 8) == n[|n| - 8..];
    U64BigEndian(i);
    U64BigEndian(j);
    U64BigEndian(a.atMillis);
    U64BigEndian(b.atMillis);
    TerminatedInjective(0, a.Fields(), b.Fields());
  }

  ghost predicate Recorded(entries: seq<LedgerEntry>) {
    |entries| <= U64_LIMIT && forall i :: 0 <= i < |entries| ==> entries[i].record.WellFormed()
  }

  ghost predicate AllNulFree(entries: seq<LedgerEntry>) {
    forall i :: 0 <= i < |entries| ==> entries[i].record.NulFree()
  }

  lemma PrevHashLength(h: Hash, entries: seq<LedgerEntry>, i: nat)
    requires Chained(h, entries) && i < |entries| && forall m: Bytes :: |h(m)| == 64
    ensures |entries[i].prevHash| == 64
  {
    assert EntryOk(h, entries, i);
    if i > 0 {
      assert EntryOk(h, entries, i - 1);
      assert entries[..i][i - 1] == entries[i - 1];
    }
  }

  /** Entries with the same hash, in verifying ledgers, agree all the way down. */
  lemma {:induction false} SameBelow(h: Hash, a: seq<LedgerEntry>, b: seq<LedgerEntry>, i: nat, j: nat)
    requires Chained(h, a) && Chained(h, b) && NoCollision(h, a, b)
    requires Recorded(a) && Recorded(b) && AllNulFree(a)
    requires i < |a| && j < |b| && a[i].hash == b[j].hash
    ensures i == j && forall m :: 0 <= m <= i ==> SameRecord(a[m].record, b[m].record)
    decreases i
  {
    assert EntryOk(h, a, i) && EntryOk(h, b, j);
    PrevHashLength(h, a, i);
    PrevHashLength(h, b, j);
    MessageInjective(i, a[i].prevHash, a[i].record, j, b[j].prevHash, b[j].record);
    if i > 0 {
      assert a[..i][i - 1] == a[i - 1] && b[..i][i - 1] == b[i - 1];
      SameBelow(h, a, b, i - 1, i - 1);
    }
  }

  lemma {:induction false} SameHashes(h: Hash, a: seq<LedgerEntry>, b: seq<LedgerEntry>, i: nat)
    requires Chained(h, a) && Chained(h, b) && SameRecords(a, b) && i < |a|
    ensures a[i].hash == b[i].hash
  {
    assert EntryOk(h, a, i) && EntryOk(h, b, i);
    if i > 0 {
      SameHashes(h, a, b, i - 1);
      assert a[..i][i - 1] == a[i - 1] && b[..i][i - 1] == b[i - 1];
    }
    assert SameRecord(a[i].record, b[i].record);
  }

  /** Tamper evidence: among verifying ledgers the head hash is the same exactly when the whole
      history is, so any edit, removal, insertion or reordering that verifies shows in the head. */
  lemma HeadCommitsToHistory(h: Hash, a: seq<LedgerEntry>, b: seq<LedgerEntry>)
    requires Chained(h, a) && Chained(h, b) && NoCollision(h, a, b)
    requires Recorded(a) && Recorded(b) && AllNulFree(a)
    requires a != [] && b != []
    ensures PrevHash(a) == PrevHash(b) <==> SameRecords(a, b)
  {
    if PrevHash(a) == PrevHash(b) {
      SameBelow(h, a, b, |a| - 1, |b| - 1);
    }
    if SameRecords(a, b) {
      SameHashes(h, a, b, |a| - 1);
    }
  }

  /** Verification alone cannot see a cut tail: every prefix of a verifying ledger verifies. */
  lemma TruncationVerifies(h: Hash, entries: seq<LedgerEntry>, len: nat)
    requires Chained(h, entries) && len <= |entries|
    ensures Chained(h, entries[..len])
  {
    forall i | 0 <= i < len
      ensures EntryOk(h, entries[..len], i)
    {
      assert EntryOk(h, entries, i);
      assert entries[..len][..i] == entries[..i];
    }
  }
}
