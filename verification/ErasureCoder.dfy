/** The erasure coders behind one port: the Reed-Solomon adapter and the passthrough adapter, their
    specification, and the contract both meet.
  */
module ErasureCoder {
  import opened Prelude
  import opened Domain
  import opened RS = ReedSolomon

  datatype Coder = ReedSolomonCoder | PassthroughCoder

  // ---- Specification of the Reed-Solomon adapter ----

  function Zeros(n: nat): (z: Bytes)
    ensures |z| == n && forall i :: 0 <= i < n ==> z[i] == 0
  {
    seq(n, _ => 0)
  }

  /** ceil(len / k), and at least 1. */
  function ShardSize(len: nat, k: nat): (size: nat)
    requires k >= 1
    ensures size >= 1 && size * k >= len
  {
    Max((len + k - 1) / k, 1)
  }

  /** Piece i of the data, zero-padded to the shard size. */
  function DataAt(data: Bytes, size: nat, start: nat): (shard: Bytes)
    ensures |shard| == size
  {
    if start < |data| then
      var end := Min(start + size, |data|);
      data[start..end] + Zeros(size - (end - start))
    else Zeros(size)
  }

  function DataShard(data: Bytes, size: nat, i: nat): (shard: Bytes)
    ensures |shard| == size
  {
    DataAt(data, size, i * size)
  }

  function Split(data: Bytes, size: nat, k: nat): (shards: seq<Bytes>)
    ensures |shards| == k && Uniform(shards, size)
  {
    seq(k, i requires 0 <= i < k => DataShard(data, size, i))
  }

  function RsEncoded(data: Bytes, params: ErasureParams): (shards: seq<Bytes>)
    requires params.WellFormed()
    ensures |shards| == params.n
  {
    var size := ShardSize(|data|, params.k);
    EncodeParity(Split(data, size, params.k) + seq(params.n - params.k, _ => Zeros(size)), params.k, size)
  }

  function Concat(shards: seq<Bytes>): Bytes {
    if shards == [] then [] else Concat(shards[..|shards| - 1]) + shards[|shards| - 1]
  }

  function Truncate(b: Bytes, len: nat): Bytes { b[..Min(len, |b|)] }

  /** The first k slots, when all are present. */
  function Values(slots: seq<Option<Bytes>>, k: nat): (v: seq<Bytes>)
    requires k <= |slots| && forall i :: 0 <= i < k ==> slots[i].Some?
    ensures |v| == k && forall i :: 0 <= i < k ==> v[i] == slots[i].value
  {
    seq(k, i requires 0 <= i < k => slots[i].value)
  }

  function Joined(full: seq<Option<Bytes>>, k: nat, len: nat): PortResult<Bytes>
    requires k <= |full|
  {
    if exists i :: 0 <= i < k && full[i].None? then Err(Unavailable)
    else Ok(Truncate(Concat(Values(full, k)), len))
  }

  function RsDecoded(slots: seq<Option<Bytes>>, params: ErasureParams, len: nat): PortResult<Bytes>
    requires params.WellFormed()
  {
    if |slots| != params.n then Err(Backend)
    else if CountSome(slots) < params.k then Err(Unavailable)
    else
      var full := if params.n > params.k then Reconstruct(slots, params.k) else Some(slots);
      if full.None? then Err(Backend) else Joined(full.value, params.k, len)
  }

  // ---- Specification of either coder ----

  function Encoded(c: Coder, data: Bytes, params: ErasureParams): PortResult<seq<Bytes>>
    requires params.WellFormed()
  {
    match c
    case ReedSolomonCoder => Ok(RsEncoded(data, params))
    case PassthroughCoder => if params.k != 1 then Err(Backend) else Ok(seq(params.n, _ => data))
  }

  function Decoded(c: Coder, slots: seq<Option<Bytes>>, params: ErasureParams, len: nat): PortResult<Bytes>
    requires params.WellFormed()
  {
    match c
    case ReedSolomonCoder => RsDecoded(slots, params, len)
    case PassthroughCoder =>
      if params.k != 1 then Err(Backend)
      else
        var present := Present(slots);
        if present == [] then Err(Unavailable)
        else
          var bytes := slots[present[0]].value;
          if |bytes| < len then Err(Integrity) else Ok(bytes[..len])
  }

  // ---- Splitting and joining are inverse ----

  /** The first `len` bytes of the data followed by zeros. */
  function Padded(data: Bytes, len: nat): Bytes {
    if len <= |data| then data[..len] else data + Zeros(len - |data|)
  }

  lemma PaddedStep(data: Bytes, size: nat, i: nat)
    ensures Padded(data, (i + 1) * size) == Padded(data, i * size) + DataShard(data, size, i)
  {
    var start := i * size;
    assert (i + 1) * size == start + size;
    if start < |data| {
      var end := Min(start + size, |data|);
      assert data[..end] == data[..start] + data[start..end];
      if start + size > |data| {
        assert data[..end] == data;
      }
    } else {
      assert Zeros(start + size - |data|) == Zeros(start - |data|) + Zeros(size);
    }
  }

  lemma {:induction false} ConcatSplit(data: Bytes, size: nat, k: nat)
    ensures Concat(Split(data, size, k)) == Padded(data, k * size)
  {
    if k > 0 {
      assert Split(data, size, k)[..k - 1] == Split(data, size, k - 1);
      ConcatSplit(data, size, k - 1);
      PaddedStep(data, size, k - 1);
    } else {
      assert Split(data, size, 0) == [];
      assert Padded(data, 0) == [];
    }
  }

  /** Joining the data shards and cutting to the length gives the data back. */
  lemma JoinSplit(data: Bytes, k: nat)
    requires k >= 1
    ensures Truncate(Concat(Split(data, ShardSize(|data|, k), k)), |data|) == data
  {
    hide Concat, Split, ShardSize;
    var size := ShardSize(|data|, k);
    ConcatSplit(data, size, k);
    assert k * size >= |data|;
  }

  // ---- What an encoding looks like ----

  /** The data's bytes from `start` on, and zeros past its end. */
  ghost predicate PieceOf(data: Bytes, start: nat, shard: Bytes) {
    forall j :: 0 <= j < |shard| ==> shard[j] == if start + j < |data| then data[start + j] else 0
  }

  /** The shards are equally long, no longer than needed, and the first k are the data in order, zero-padded. */
  lemma EncodedLayout(data: Bytes, params: ErasureParams)
    requires params.WellFormed()
    ensures
      var shards, k := RsEncoded(data, params), params.k;
      && |shards| == params.n
      && var s := |shards[0]|;
      && 1 <= s && |data| <= s * k && (s == 1 || (s - 1) * k < |data|)
      && (forall i :: 0 <= i < params.n ==> |shards[i]| == s)
      && forall i :: 0 <= i < k ==> PieceOf(data, i * s, shards[i])
  {
    hide *;
    ParamsInRange(params);
    var k := params.k;
    var s := ShardSize(|data|, k);
    SmallestSize(|data|, k);
    var shards := RsEncoded(data, params);
    EncodedUniform(data, params);
    forall i | 0 <= i < k
      ensures PieceOf(data, i * s, shards[i])
    {
      EncodedData(data, params, i);
      DataIsPiece(data, s, i * s);
    }
  }

  lemma ParamsInRange(params: ErasureParams)
    requires params.WellFormed()
    ensures 1 <= params.k <= params.n
  {}

  lemma EncodedUniform(data: Bytes, params: ErasureParams)
    requires params.WellFormed()
    ensures forall i :: 0 <= i < params.n ==> |RsEncoded(data, params)[i]| == ShardSize(|data|, params.k)
  {
    hide EncodeParity, Split, ShardSize;
  }

  lemma EncodedData(data: Bytes, params: ErasureParams, i: nat)
    requires params.WellFormed() && i < params.k
    ensures
      var s := ShardSize(|data|, params.k);
      RsEncoded(data, params)[i] == DataAt(data, s, i * s)
  {
    hide EncodeParity, ShardSize, DataAt;
    RsDataShards(data, params);
    assert RsEncoded(data, params)[i] == RsEncoded(data, params)[..params.k][i];
  }

  /** Too few or too many slots are a different error from too few shards. */
  lemma RefusedDecodes(slots: seq<Option<Bytes>>, params: ErasureParams, len: nat)
    requires params.WellFormed()
    ensures |slots| != params.n ==> RsDecoded(slots, params, len) == Err(Backend)
    ensures |slots| == params.n && CountSome(slots) < params.k ==> RsDecoded(slots, params, len) == Err(Unavailable)
  {
    hide CountSome, Reconstruct, Joined;
  }

  /** The shard's bytes are in the output from `start` on, as far as that goes. */
  ghost predicate CarriedAt(out: Bytes, start: nat, shard: Bytes) {
    forall j :: 0 <= j < |shard| && start + j < |out| ==> out[start + j] == shard[j]
  }

  lemma {:induction false} ConcatCarries(v: seq<Bytes>, s: nat, i: nat)
    requires Uniform(v, s) && i < |v|
    ensures |Concat(v)| == |v| * s && CarriedAt(Concat(v), i * s, v[i])
  {
    var last := |v| - 1;
    var front := v[..last];
    ConcatLength(front, s);
    SizeStep(last, s);
    if i < last {
      ConcatCarries(front, s, i);
      RoomFor(i, last, s);
    }
  }

  lemma SizeStep(n: nat, s: nat)
    ensures (n + 1) * s == n * s + s
  {}

  lemma {:induction false} RoomFor(i: nat, n: nat, s: nat)
    requires i < n
    ensures i * s + s <= n * s
  {
    SizeStep(n - 1, s);
    if i < n - 1 {
      RoomFor(i, n - 1, s);
    }
  }

  lemma {:induction false} ConcatLength(v: seq<Bytes>, s: nat)
    requires Uniform(v, s)
    ensures |Concat(v)| == |v| * s
  {
    if v != [] {
      ConcatLength(v[..|v| - 1], s);
      SizeStep(|v| - 1, s);
    }
  }

  lemma PresentCounts(slots: seq<Option<Bytes>>, k: nat)
    requires k <= |slots| && forall i :: 0 <= i < k ==> slots[i].Some?
    ensures CountSome(slots) >= k
  {
    CountSomeIsCardinality(slots);
    SubsetSize(Upto(k), SomeSet(slots));
  }

  lemma ReconstructKeeps(slots: seq<Option<Bytes>>, k: nat, s: nat)
    requires 1 <= k <= |slots| <= 255 && 1 <= s && SameSize(slots, s)
    requires forall i :: 0 <= i < k ==> slots[i].Some?
    ensures
      var full := Reconstruct(slots, k);
      full.Some? && forall i :: 0 <= i < k ==> full.value[i] == slots[i]
  {
    PresentCounts(slots, k);
    hide RebuiltShard;
    assert |slots[Present(slots)[0]].value| == s;
  }

  /** With the data shards present, decoding gives their bytes in order, cut to the length. */
  lemma PresentDecodes(slots: seq<Option<Bytes>>, params: ErasureParams, len: nat, s: nat)
    requires params.WellFormed() && |slots| == params.n && 1 <= s && SameSize(slots, s)
    requires forall i :: 0 <= i < params.k ==> slots[i].Some?
    ensures
      var r := RsDecoded(slots, params, len);
      && r.Ok? && |r.value| == Min(len, params.k * s)
      && forall i :: 0 <= i < params.k ==> CarriedAt(r.value, i * s, slots[i].value)
  {
    hide *;
    ParamsInRange(params);
    var v := Values(slots, params.k);
    PresentJoined(slots, params, len, s);
    ConcatLength(v, s);
    forall i | 0 <= i < params.k
      ensures CarriedAt(Truncate(Concat(v), len), i * s, slots[i].value)
    {
      ConcatCarries(v, s, i);
      TruncateCarries(Concat(v), len, i * s, v[i]);
    }
    TruncateLength(Concat(v), len);
  }

  lemma TruncateLength(b: Bytes, len: nat)
    ensures |Truncate(b, len)| == Min(len, |b|)
  {}

  lemma TruncateCarries(b: Bytes, len: nat, start: nat, shard: Bytes)
    requires CarriedAt(b, start, shard)
    ensures CarriedAt(Truncate(b, len), start, shard)
  {}

  lemma PresentJoined(slots: seq<Option<Bytes>>, params: ErasureParams, len: nat, s: nat)
    requires params.WellFormed() && |slots| == params.n && 1 <= s && SameSize(slots, s)
    requires forall i :: 0 <= i < params.k ==> slots[i].Some?
    ensures Uniform(Values(slots, params.k), s)
    ensures RsDecoded(slots, params, len) == Ok(Truncate(Concat(Values(slots, params.k)), len))
  {
    var k := params.k;
    PresentCounts(slots, k);
    hide CountSome, Concat, Truncate, Reconstruct;
    if params.n > k {
      ReconstructKeeps(slots, k, s);
      assert Values(Reconstruct(slots, k).value, k) == Values(slots, k);
    }
  }

  lemma DataIsPiece(data: Bytes, size: nat, start: nat)
    ensures PieceOf(data, start, DataAt(data, size, start))
  {}

  lemma SmallestSize(len: nat, k: nat)
    requires k >= 1
    ensures ShardSize(len, k) == 1 || (ShardSize(len, k) - 1) * k < len
  {}

  // ---- The contract of the port, met by both coders ----

  /** Which parameters a coder accepts: the passthrough coder only k = 1. */
  predicate Supports(c: Coder, params: ErasureParams) {
    params.WellFormed() && (c.PassthroughCoder? ==> params.k == 1)
  }

  /** Encoding yields n shards, any k of which decode to the data, and fewer of which are refused. */
  ghost predicate MeetsContract(c: Coder, params: ErasureParams)
    requires params.WellFormed()
  {
    forall data: Bytes ::
      var e := Encoded(c, data, params);
      && e.Ok?
      && |e.value| == params.n
      && forall slots :: AgreesWith(slots, e.value) ==>
           Decoded(c, slots, params, |data|) == if CountSome(slots) >= params.k then Ok(data) else Err(Unavailable)
  }

  lemma RsDataShards(data: Bytes, params: ErasureParams)
    requires params.WellFormed()
    ensures RsEncoded(data, params)[..params.k] == Split(data, ShardSize(|data|, params.k), params.k)
  {
    var size := ShardSize(|data|, params.k);
    var shards := Split(data, size, params.k) + seq(params.n - params.k, _ => Zeros(size));
    assert shards[..params.k] == Split(data, size, params.k);
  }

  lemma RsDecodesSurvivors(data: Bytes, params: ErasureParams, slots: seq<Option<Bytes>>)
    requires params.WellFormed() && AgreesWith(slots, RsEncoded(data, params))
    ensures RsDecoded(slots, params, |data|)
         == if CountSome(slots) >= params.k then Ok(data) else Err(Unavailable)
  {
    var k := params.k;
    if CountSome(slots) >= k {
      var size := ShardSize(|data|, k);
      var shards := Split(data, size, k) + seq(params.n - k, _ => Zeros(size));
      var full := if params.n > k then Reconstruct(slots, k) else Some(slots);
      if params.n > k {
        hide Reconstruct, EncodeParity;
        ReconstructCodeword(shards, k, size, slots);
      } else {
        CountSomeAll(slots);
      }
      RsDataShards(data, params);
      assert Values(full.value, k) == RsEncoded(data, params)[..k] by {
        forall i | 0 <= i < k
          ensures full.value[i] == Some(RsEncoded(data, params)[..k][i])
        {}
      }
      JoinSplit(data, k);
    }
  }

  /** Any k of n: the survivors of an encoding decode to the data exactly when there are k of them. */
  lemma AnyKOfN(c: Coder, data: Bytes, params: ErasureParams, codeword: seq<Bytes>, slots: seq<Option<Bytes>>)
    requires Supports(c, params) && Encoded(c, data, params) == Ok(codeword) && AgreesWith(slots, codeword)
    ensures Decoded(c, slots, params, |data|)
         == if CountSome(slots) >= params.k then Ok(data) else Err(Unavailable)
  {
    match c
    case ReedSolomonCoder =>
      RsDecodesSurvivors(data, params, slots);
    case PassthroughCoder =>
      var present := Present(slots);
      if present != [] {
        assert slots[present[0]].value == codeword[present[0]] == data;
        assert data[..|data|] == data;
      }
  }

  /** The coders are interchangeable wherever both support the parameters, and nowhere else. */
  lemma ContractIffSupported(c: Coder, params: ErasureParams)
    requires params.WellFormed()
    ensures MeetsContract(c, params) <==> Supports(c, params)
  {
    if Supports(c, params) {
      forall data: Bytes, slots | AgreesWith(slots, Encoded(c, data, params).value)
        ensures Decoded(c, slots, params, |data|)
             == if CountSome(slots) >= params.k then Ok(data) else Err(Unavailable)
      {
        AnyKOfN(c, data, params, Encoded(c, data, params).value, slots);
      }
    } else {
      assert Encoded(c, [], params).Err?;
    }
  }

  // ---- The adapters ----

  /** One zero-padded shard of the data. */
  method CopyShard(data: Bytes, size: nat, start: nat) returns (shard: Bytes)
    ensures shard == DataAt(data, size, start)
  {
    var buffer := new byte[size](_ => 0);
    if start < |data| {
      var end := Min(start + size, |data|);
      forall j | 0 <= j < end - start {
        buffer[j] := data[start + j];
      }
    }
    return buffer[..];
  }

  lemma EncodedFrom(data: Bytes, params: ErasureParams, shards: seq<Bytes>, size: nat)
    requires params.WellFormed() && size == ShardSize(|data|, params.k)
    requires shards == Split(data, size, params.k) + seq(params.n - params.k, _ => Zeros(size))
    ensures params.k <= |shards| == params.n <= 255 && Uniform(shards, size)
    ensures RsEncoded(data, params) == EncodeParity(shards, params.k, size)
    ensures params.n == params.k ==> RsEncoded(data, params) == shards
  {
    hide Split, ShardSize;
  }

  /** The data split into k zero-padded shards, and room for the parity. */
  method PadShards(data: Bytes, k: nat, n: nat) returns (shards: seq<Bytes>, shardSize: nat)
    requires 1 <= k <= n
    ensures shardSize == ShardSize(|data|, k)
    ensures shards == Split(data, shardSize, k) + seq(n - k, _ => Zeros(shardSize))
  {
    shardSize := Max((|data| + k - 1) / k, 1);
    shards := [];
    for i := 0 to k
      invariant shards == Split(data, shardSize, k)[..i]
    {
      var shard := CopyShard(data, shardSize, i * shardSize);
      shards := shards + [shard];
    }
    for i := k to n
      invariant shards == Split(data, shardSize, k) + seq(i - k, _ => Zeros(shardSize))
    {
      var shard := new byte[shardSize](_ => 0);
      assert shard[..] == Zeros(shardSize);
      shards := shards + [shard[..]];
    }
  }

  /** Split into k zero-padded shards, then let the library fill the parity in place. */
  method RsEncode(data: Bytes, params: ErasureParams) returns (r: PortResult<seq<Bytes>>)
    requires params.WellFormed()
    ensures r == Ok(RsEncoded(data, params))
    // equally long shards, no longer than needed
    ensures
      && r.Ok? && |r.value| == params.n
      && var s := |r.value[0]|;
      && 1 <= s && |data| <= s * params.k && (s == 1 || (s - 1) * params.k < |data|)
      && forall i :: 0 <= i < params.n ==> |r.value[i]| == s
    // the first k hold the data in order, zero-padded
    ensures
      && r.Ok? && |r.value| == params.n
      && forall i :: 0 <= i < params.k ==> PieceOf(data, i * |r.value[0]|, r.value[i])
  {
    hide *;
    EncodedLayout(data, params);
    ParamsInRange(params);
    var k, n := params.k, params.n;
    var shards, shardSize := PadShards(data, k, n);
    EncodedFrom(data, params, shards, shardSize);
    if n > k {
      shards := EncodeParity(shards, k, shardSize);
    }
    return Ok(shards);
  }

  /** Append the first k slots and cut to the length. */
  method JoinData(full: seq<Option<Bytes>>, k: nat, len: nat) returns (r: PortResult<Bytes>)
    requires k <= |full|
    ensures r == Joined(full, k, len)
  {
    var out: Bytes := [];
    for i := 0 to k
      invariant forall j :: 0 <= j < i ==> full[j].Some?
      invariant out == Concat(Values(full, i))
    {
      if full[i].None? {
        return Err(Unavailable);
      }
      assert Values(full, i + 1)[..i] == Values(full, i);
      out := out + full[i].value;
    }
    return Ok(Truncate(out, len));
  }

  /** Count what is present, rebuild the rest, append the data shards. */
  method RsDecodeShards(slots: seq<Option<Bytes>>, params: ErasureParams, len: nat) returns (r: PortResult<Bytes>)
    requires params.WellFormed()
    ensures r == RsDecoded(slots, params, len)
  {
    var k, n := params.k, params.n;
    if |slots| != n {
      return Err(Backend);
    }
    var present := 0;
    for i := 0 to |slots|
      invariant present == CountSome(slots[..i])
    {
      CountSomeSnoc(slots[..i], slots[i]);
      assert slots[..i + 1] == slots[..i] + [slots[i]];
      if slots[i].Some? {
        present := present + 1;
      }
    }
    assert slots[..|slots|] == slots;
    if present < k {
      return Err(Unavailable);
    }
    var full := slots;
    if n > k {
      var rebuilt := Reconstruct(slots, k);
      if rebuilt.None? {
        return Err(Backend);
      }
      full := rebuilt.value;
    }
    r := JoinData(full, k, len);
  }

  method RsDecode(slots: seq<Option<Bytes>>, params: ErasureParams, len: nat) returns (r: PortResult<Bytes>)
    requires params.WellFormed()
    ensures r == RsDecoded(slots, params, len)
    ensures |slots| != params.n ==> r == Err(Backend)
    ensures |slots| == params.n && CountSome(slots) < params.k ==> r == Err(Unavailable)
    // with the data shards present, their bytes in order, cut to the length
    ensures |slots| == params.n && (forall i :: 0 <= i < params.k ==> slots[i].Some?) ==>
      forall s: nat :: 1 <= s && SameSize(slots, s) ==>
        && r.Ok? && |r.value| == Min(len, params.k * s)
        && forall i :: 0 <= i < params.k ==> CarriedAt(r.value, i * s, slots[i].value)
  {
    RefusedDecodes(slots, params, len);
    r := RsDecodeShards(slots, params, len);
    hide *;
    forall s: nat
         | 1 <= s && SameSize(slots, s) && |slots| == params.n && forall i :: 0 <= i < params.k ==> slots[i].Some?
      ensures
        && r.Ok? && |r.value| == Min(len, params.k * s)
        && forall i :: 0 <= i < params.k ==> CarriedAt(r.value, i * s, slots[i].value)
    {
      PresentDecodes(slots, params, len, s);
    }
  }

  lemma FirstPresent(slots: seq<Option<Bytes>>, i: nat)
    requires i < |slots| && slots[i].Some? && forall j :: 0 <= j < i ==> slots[j].None?
    ensures Present(slots) != [] && Present(slots)[0] == i
  {
    PresentComplete(slots, i);
    hide Present;
  }

  /** The passthrough coder takes the first copy present. */
  lemma PassthroughDecodes(slots: seq<Option<Bytes>>, params: ErasureParams, len: nat)
    requires params.WellFormed()
    ensures
      var r := Decoded(PassthroughCoder, slots, params, len);
      && (params.k != 1 ==> r == Err(Backend))
      && (params.k == 1 && (forall i :: 0 <= i < |slots| ==> slots[i].None?) ==> r == Err(Unavailable))
      && (params.k == 1 ==>
            forall i :: 0 <= i < |slots| && slots[i].Some? && (forall j :: 0 <= j < i ==> slots[j].None?) ==>
              r == if |slots[i].value| < len then Err(Integrity) else Ok(slots[i].value[..len]))
  {
    hide Present;
    forall i | 0 <= i < |slots| && slots[i].Some? && (forall j :: 0 <= j < i ==> slots[j].None?)
      ensures Present(slots) != [] && Present(slots)[0] == i
    {
      FirstPresent(slots, i);
    }
  }

  /** The coder port, dispatched on the adapter in use. */
  method Encode(c: Coder, data: Bytes, params: ErasureParams) returns (r: PortResult<seq<Bytes>>)
    requires params.WellFormed()
    ensures r == Encoded(c, data, params)
    ensures c.PassthroughCoder? && params.k != 1 ==> r == Err(Backend)
    ensures c.PassthroughCoder? && params.k == 1 ==>
      r.Ok? && |r.value| == params.n && forall i :: 0 <= i < params.n ==> r.value[i] == data
  {
    match c
    case ReedSolomonCoder => r := RsEncode(data, params);
    case PassthroughCoder => r := Encoded(c, data, params);
  }

  method Decode(c: Coder, slots: seq<Option<Bytes>>, params: ErasureParams, len: nat)
    returns (r: PortResult<Bytes>)
    requires params.WellFormed()
    ensures r == Decoded(c, slots, params, len)
    ensures c.PassthroughCoder? && params.k != 1 ==> r == Err(Backend)
    ensures c.PassthroughCoder? && params.k == 1 && (forall i :: 0 <= i < |slots| ==> slots[i].None?) ==>
      r == Err(Unavailable)
    // the first copy present, cut to the length, if it is long enough
    ensures c.PassthroughCoder? && params.k == 1 ==>
      forall i :: 0 <= i < |slots| && slots[i].Some? && (forall j :: 0 <= j < i ==> slots[j].None?) ==>
        r == if |slots[i].value| < len then Err(Integrity) else Ok(slots[i].value[..len])
  {
    match c
    case ReedSolomonCoder =>
      hide RsDecoded;
      r := RsDecode(slots, params, len);
    case PassthroughCoder =>
      PassthroughDecodes(slots, params, len);
      hide Decoded;
      r := Decoded(c, slots, params, len);
  }
}
