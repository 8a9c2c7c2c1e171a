/** The framing of the peer shard protocol, the server that dispatches it onto an anchor, and the
    client that decodes the status: a remote shard operation is the local one.
  */
module Wire {
  import opened Prelude
  import opened Domain
  import opened Text
  import opened Stores
  import Utf8

  const SLASH: byte := 47
  const MAX_FRAME := 16 * 1024 * 1024
  const OP_GET: byte := 0
  const OP_PUT: byte := 1
  const ST_OK: byte := 0
  const ST_NOT_FOUND: byte := 1
  const ST_ERR: byte := 2

  // ---- Keys ----

  /** `namespace/blob/index`. */
  function ShardKey(at: ShardRef): Str {
    at.namespace + [SLASH] + at.blobId + [SLASH] + Decimal(at.index)
  }

  /** The pieces between the delimiters. */
  function Split(d: byte, b: Bytes): (parts: seq<Bytes>)
    ensures |parts| >= 1
    decreases |b|
  {
    var n := Before(d, b);
    if n >= |b| then [b] else [b[..n]] + Split(d, b[n + 1..])
  }

  function ParseKey(key: Str): Option<ShardRef> {
    var parts := Split(SLASH, key);
    if |parts| != 3 then None
    else
      match ParseU16(parts[2])
      case None => None
      case Some(index) => Some(ShardRef(parts[0], parts[1], index))
  }

  ghost predicate SlashFree(at: ShardRef) { Free(SLASH, at.namespace) && Free(SLASH, at.blobId) }

  lemma SplitField(d: byte, a: Bytes, x: Bytes)
    requires Free(d, a)
    ensures Split(d, a + [d] + x) == [a] + Split(d, x)
  {
    var b := a + [d] + x;
    BeforeField(d, a, x);
    assert b[..|a|] == a && b[|a| + 1..] == x;
  }

  lemma {:induction false} BeforeFree(d: byte, a: Bytes)
    ensures Before(d, a) <= |a| && Free(d, a[..Before(d, a)])
    ensures Before(d, a) < |a| ==> a[Before(d, a)] == d
  {
    if a != [] && a[0] != d {
      BeforeFree(d, a[1..]);
      assert a[..Before(d, a)] == [a[0]] + a[1..][..Before(d, a[1..])];
    }
  }

  /** One more piece than there are delimiters. */
  lemma {:induction false} SplitCount(d: byte, b: Bytes)
    ensures |Split(d, b)| == multiset(b)[d] + 1
    decreases |b|
  {
    var n := Before(d, b);
    BeforeFree(d, b);
    if n < |b| {
      SplitCount(d, b[n + 1..]);
      assert b == b[..n] + [d] + b[n + 1..];
      assert multiset(b[..n])[d] == 0;
    } else {
      assert b[..n] == b;
    }
  }

  lemma DecimalSlashFree(n: nat)
    ensures Free(SLASH, Decimal(n))
  {}

  lemma SplitKey(at: ShardRef)
    requires SlashFree(at)
    ensures Split(SLASH, ShardKey(at)) == [at.namespace, at.blobId, Decimal(at.index)]
  {
    var digits := Decimal(at.index);
    DecimalSlashFree(at.index);
    hide Decimal, Before, Free;
    assert ShardKey(at) == at.namespace + [SLASH] + (at.blobId + [SLASH] + digits);
    SplitField(SLASH, at.namespace, at.blobId + [SLASH] + digits);
    SplitField(SLASH, at.blobId, digits);
    SplitFree(SLASH, digits);
  }

  lemma SplitFree(d: byte, b: Bytes)
    requires Free(d, b)
    ensures Split(d, b) == [b]
  {
    BeforeFree(d, b);
  }

  lemma KeySlashes(at: ShardRef)
    ensures multiset(ShardKey(at))[SLASH] >= 2
    ensures !SlashFree(at) ==> multiset(ShardKey(at))[SLASH] > 2
  {
    hide Decimal;
    assert multiset(ShardKey(at)) == multiset(at.namespace) + multiset([SLASH]) + multiset(at.blobId)
      + multiset([SLASH]) + multiset(Decimal(at.index));
  }

  /** A key parses back exactly when neither id contains a slash; otherwise it is refused. */
  lemma KeyRoundTrip(at: ShardRef)
    requires at.index < U16_LIMIT
    ensures ParseKey(ShardKey(at)) == if SlashFree(at) then Some(at) else None
  {
    hide ShardKey, Split, ParseU16, SlashFree;
    if SlashFree(at) {
      SplitKey(at);
      ParseU16Decimal(at.index);
    } else {
      KeySlashes(at);
      SplitCount(SLASH, ShardKey(at));
    }
  }

  // ---- Frames ----

  /** The key length is cast to u16. */
  function EncodeRequest(op: byte, key: Str, payload: Bytes): Bytes {
    [op] + BigEndian(|key| % U16_LIMIT, 2) + key + payload
  }

  function ParseRequest(buf: Bytes): Option<(byte, Str, Bytes)> {
    if |buf| < 3 then None
    else
      var klen := FromBigEndian([buf[1], buf[2]]);
      if |buf| < 3 + klen then None
      else
        var key := buf[3..3 + klen];
        if Utf8.Valid(key) then Some((buf[0], key, buf[3 + klen..])) else None
  }

  /** On the wire: the operation, the low sixteen bits of the key length with the high byte first, key and payload. */
  lemma RequestLayout(op: byte, key: Str, payload: Bytes)
    ensures EncodeRequest(op, key, payload)
         == [op, ((|key| / 256) % 256) as byte, (|key| % 256) as byte] + key + payload
  {
    BigEndianAt(|key| % U16_LIMIT, 2, 0);
    BigEndianAt(|key| % U16_LIMIT, 2, 1);
    assert ShiftedRight(|key| % U16_LIMIT, 1) == |key| % U16_LIMIT / 256;
    assert (|key| % U16_LIMIT) / 256 == (|key| / 256) % 256;
    hide BigEndian;
    var length := BigEndian(|key| % U16_LIMIT, 2);
    assert length == [length[0], length[1]];
  }

  lemma TruncationLoses(n: nat)
    ensures n % U16_LIMIT == n <==> n < U16_LIMIT
  {}

  lemma RequestFields(op: byte, key: Str, payload: Bytes, klen: nat)
    requires klen == |key| % U16_LIMIT
    ensures
      var buf, body := EncodeRequest(op, key, payload), key + payload;
      && |buf| == 3 + |body| && buf[0] == op
      && FromBigEndian([buf[1], buf[2]]) == klen <= |body|
      && buf[3..3 + klen] == body[..klen] && buf[3 + klen..] == body[klen..]
  {
    var buf := EncodeRequest(op, key, payload);
    var lenBytes := BigEndian(klen, 2);
    U16BigEndian(klen);
    hide BigEndian, FromBigEndian;
    assert [buf[1], buf[2]] == lenBytes;
    assert FromBigEndian([buf[1], buf[2]]) == klen;
    assert klen <= |key|;
    assert buf == ([op] + lenBytes) + (key + payload);
    assert buf[3..] == key + payload;
    assert buf[3..3 + klen] == buf[3..][..klen] && buf[3 + klen..] == buf[3..][klen..];
  }

  lemma ParseOfEncode(op: byte, key: Str, payload: Bytes, klen: nat)
    requires klen == |key| % U16_LIMIT
    ensures
      var body := key + payload;
      klen <= |body| && ParseRequest(EncodeRequest(op, key, payload))
        == if Utf8.Valid(body[..klen]) then Some((op, body[..klen], body[klen..])) else None
  {
    RequestFields(op, key, payload, klen);
    hide EncodeRequest, FromBigEndian, Utf8.Valid;
  }

  /** A request parses back exactly when its key length fits in sixteen bits. */
  lemma RequestRoundTrip(op: byte, key: Str, payload: Bytes)
    requires Utf8.Valid(key)
    ensures ParseRequest(EncodeRequest(op, key, payload)) == Some((op, key, payload)) <==> |key| < U16_LIMIT
  {
    var klen := |key| % U16_LIMIT;
    hide *;
    TruncationLoses(|key|);
    ParseOfEncode(op, key, payload, klen);
    var body := key + payload;
    assert body[..|key|] == key && body[|key|..] == payload;
    assert |body[..klen]| == klen;
  }

  function EncodeResponse(status: byte, payload: Bytes): Bytes { [status] + payload }

  // ---- The server ----

  /** How the anchor's own call goes: a failing write may or may not have happened. */
  datatype AnchorCall = Works | FailsBefore | FailsAfter

  function GetLocal(objects: map<ShardRef, Bytes>, at: ShardRef, call: AnchorCall): PortResult<Bytes> {
    if !call.Works? then Err(Backend) else if at in objects then Ok(objects[at]) else Err(NotFound)
  }

  function PutLocal(objects: map<ShardRef, Bytes>, at: ShardRef, bytes: Bytes, call: AnchorCall)
    : (map<ShardRef, Bytes>, PortResult<()>)
  {
    match call
    case Works => (objects[at := bytes], Ok(()))
    case FailsBefore => (objects, Err(Backend))
    case FailsAfter => (objects[at := bytes], Err(Backend))
  }

  /** The server's answer, and the anchor it leaves. */
  function Served(objects: map<ShardRef, Bytes>, buf: Bytes, call: AnchorCall): (map<ShardRef, Bytes>, Bytes) {
    match ParseRequest(buf)
    case None => (objects, EncodeResponse(ST_ERR, []))
    case Some((op, key, payload)) =>
      match ParseKey(key)
      case None => (objects, EncodeResponse(ST_ERR, []))
      case Some(at) =>
        if op == OP_GET then
          match GetLocal(objects, at, call)
          case Ok(bytes) => (objects, EncodeResponse(ST_OK, bytes))
          case Err(e) => (objects, EncodeResponse(if e == NotFound then ST_NOT_FOUND else ST_ERR, []))
        else if op == OP_PUT then
          var (after, r) := PutLocal(objects, at, payload, call);
          (after, EncodeResponse(if r.Ok? then ST_OK else ST_ERR, []))
        else (objects, EncodeResponse(ST_ERR, []))
  }

  /** Dispatch one request onto the anchor. */
  method Serve(anchor: BlobAnchor, buf: Bytes) returns (resp: Bytes)
    modifies anchor`objects
    ensures exists call: AnchorCall ::
      (anchor.objects, resp) == Served(old(anchor.objects), buf, call) && (anchor.reliable ==> call.Works?)
    // status 2 for what it cannot read, 1 for a missing shard, 0 and the shard for a get, 0 for a put
    ensures
      var parsed := ParseRequest(buf);
      if parsed.None? || ParseKey(parsed.value.1).None? || parsed.value.0 > 1 then
        resp == [2] && anchor.objects == old(anchor.objects)
      else
        var (op, key, payload) := parsed.value;
        var at := ParseKey(key).value;
        var put := old(anchor.objects)[at := payload];
        if op == 0 then
          && anchor.objects == old(anchor.objects)
          && (resp == (if at in anchor.objects then [0] + anchor.objects[at] else [1])
              || (!anchor.reliable && resp == [2]))
        else
          || (resp == [0] && anchor.objects == put)
          || (!anchor.reliable && resp == [2] && (anchor.objects == put || anchor.objects == old(anchor.objects)))
  {
    ghost var before := anchor.objects;
    ghost var works, unwritten := Served(before, buf, Works), Served(before, buf, FailsBefore);
    ghost var written := Served(before, buf, FailsAfter);
    var request := ParseRequest(buf);
    if request.None? {
      return EncodeResponse(ST_ERR, []);
    }
    var (op, key, payload) := request.value;
    var at := ParseKey(key);
    if at.None? {
      return EncodeResponse(ST_ERR, []);
    }
    if op == OP_GET {
      var r := anchor.GetShard(at.value);
      match r
      case Ok(bytes) => return EncodeResponse(ST_OK, bytes);
      case Err(NotFound) => return EncodeResponse(ST_NOT_FOUND, []);
      case Err(_) => return EncodeResponse(ST_ERR, []);
    } else if op == OP_PUT {
      var r := anchor.PutShard(at.value, payload);
      return EncodeResponse(if r.Ok? then ST_OK else ST_ERR, []);
    }
    return EncodeResponse(ST_ERR, []);
  }

  // ---- The client ----

  /** How the stream to the peer goes. A request the peer does not take in full may be cut off. */
  datatype Link = Whole | RequestLost | ResponseLost

  /** One stream each way: either side reads at most MAX_FRAME bytes. */
  function RoundTrip(objects: map<ShardRef, Bytes>, request: Bytes, call: AnchorCall, link: Link)
    : (map<ShardRef, Bytes>, PortResult<Bytes>)
  {
    if link.RequestLost? then (objects, Err(Unavailable))
    else
      var (after, resp) :=
        if |request| <= MAX_FRAME then Served(objects, request, call)
        else (objects, EncodeResponse(ST_ERR, []));
      (after, if link.Whole? && |resp| <= MAX_FRAME then Ok(resp) else Err(Unavailable))
  }

  function SendShard(objects: map<ShardRef, Bytes>, at: ShardRef, bytes: Bytes, call: AnchorCall, link: Link)
    : (map<ShardRef, Bytes>, PortResult<()>)
  {
    var (after, r) := RoundTrip(objects, EncodeRequest(OP_PUT, ShardKey(at), bytes), call, link);
    match r
    case Err(e) => (after, Err(e))
    case Ok(resp) => (after, if resp != [] && resp[0] == ST_OK then Ok(()) else Err(Backend))
  }

  function FetchShard(objects: map<ShardRef, Bytes>, at: ShardRef, call: AnchorCall, link: Link)
    : (map<ShardRef, Bytes>, PortResult<Bytes>)
  {
    var (after, r) := RoundTrip(objects, EncodeRequest(OP_GET, ShardKey(at), []), call, link);
    match r
    case Err(e) => (after, Err(e))
    case Ok(resp) =>
      if resp != [] && resp[0] == ST_OK then (after, Ok(resp[1..]))
      else if resp != [] && resp[0] == ST_NOT_FOUND then (after, Err(NotFound))
      else (after, Err(Backend))
  }

  // ---- Remote is local ----

  /** Ids are text and the index is a `u16`. */
  ghost predicate Typed(at: ShardRef) {
    at.index < U16_LIMIT && Utf8.Valid(at.namespace) && Utf8.Valid(at.blobId)
  }

  /** The protocol carries a reference when its ids hold no slash and its key length fits sixteen bits. */
  ghost predicate Carried(at: ShardRef) {
    SlashFree(at) && |ShardKey(at)| < U16_LIMIT
  }

  /** What the server takes the key for: it reads as much of it as the sixteen-bit length says. */
  function Target(at: ShardRef): Option<ShardRef> {
    var key := ShardKey(at);
    var read := key[..|key| % U16_LIMIT];
    if Utf8.Valid(read) then ParseKey(read) else None
  }

  /** What of the key it takes for payload. */
  function Spill(at: ShardRef): Bytes { ShardKey(at)[|ShardKey(at)| % U16_LIMIT..] }

  lemma KeyValid(at: ShardRef)
    requires Utf8.Valid(at.namespace) && Utf8.Valid(at.blobId)
    ensures Utf8.Valid(ShardKey(at))
  {
    var digits := Decimal(at.index);
    Utf8.AsciiValid([SLASH]);
    Utf8.AsciiValid(digits);
    Utf8.ValidConcat(at.namespace, [SLASH]);
    Utf8.ValidConcat(at.namespace + [SLASH], at.blobId);
    Utf8.ValidConcat(at.namespace + [SLASH] + at.blobId, [SLASH]);
    Utf8.ValidConcat(at.namespace + [SLASH] + at.blobId + [SLASH], digits);
  }

  function Pow10(w: nat): nat { if w == 0 then 1 else 10 * Pow10(w - 1) }

  lemma {:induction false} DecimalShort(n: nat, w: nat)
    requires w >= 1 && n < Pow10(w)
    ensures |Decimal(n)| <= w
  {
    if n >= 10 {
      DecimalShort(n / 10, w - 1);
    }
  }

  /** Cut by the sixteen-bit length, a longer key loses its second slash, so it names no shard. */
  lemma LongKeyRefused(at: ShardRef)
    requires at.index < U16_LIMIT && SlashFree(at) && |ShardKey(at)| >= U16_LIMIT
    ensures ParseKey(ShardKey(at)[..|ShardKey(at)| % U16_LIMIT]) == None
  {
    var key := ShardKey(at);
    var cut := key[..|key| % U16_LIMIT];
    assert Pow10(5) == 100_000;
    DecimalShort(at.index, 5);
    var head := at.namespace + [SLASH] + at.blobId;
    hide Decimal, ParseU16, Split;
    assert |cut| <= |key| - U16_LIMIT < |head|;
    assert cut == head[..|cut|];
    assert head == cut + head[|cut|..];
    assert multiset(head) == multiset(cut) + multiset(head[|cut|..]);
    assert multiset(head) == multiset(at.namespace) + multiset([SLASH]) + multiset(at.blobId);
    assert multiset(at.namespace)[SLASH] == 0 && multiset(at.blobId)[SLASH] == 0;
    assert multiset(cut)[SLASH] <= multiset(head)[SLASH] == 1;
    SplitCount(SLASH, cut);
    assert |Split(SLASH, cut)| != 3;
  }

  ghost function Total(parts: seq<Bytes>): nat {
    if parts == [] then 0 else |parts[0]| + Total(parts[1..])
  }

  lemma {:induction false} SplitTotal(d: byte, b: Bytes)
    ensures Total(Split(d, b)) + |Split(d, b)| == |b| + 1
    decreases |b|
  {
    var n := Before(d, b);
    BeforeFree(d, b);
    if n < |b| {
      SplitTotal(d, b[n + 1..]);
      assert Split(d, b)[1..] == Split(d, b[n + 1..]);
    } else {
      assert [b][1..] == [];
    }
  }

  lemma TotalOfThree(a: Bytes, b: Bytes, c: Bytes)
    ensures Total([a, b, c]) == |a| + |b| + |c|
  {
    assert [c][1..] == [] && [b, c][1..] == [c] && [a, b, c][1..] == [b, c];
    assert Total([c]) == |c|;
    assert Total([b, c]) == |b| + Total([c]);
  }

  lemma ParsedLength(key: Str, at: ShardRef)
    requires ParseKey(key) == Some(at)
    ensures |key| >= |at.namespace| + |at.blobId| + 2
  {
    hide Split, ParseU16;
    var parts := Split(SLASH, key);
    SplitTotal(SLASH, key);
    assert parts == [parts[0], parts[1], parts[2]];
    TotalOfThree(parts[0], parts[1], parts[2]);
  }

  lemma LongKeyElsewhere(at: ShardRef)
    requires at.index < U16_LIMIT && |ShardKey(at)| >= U16_LIMIT
    ensures Target(at) != Some(at)
  {
    assert Pow10(5) == 100_000;
    DecimalShort(at.index, 5);
    hide Decimal, ParseKey, Utf8.Valid;
    var key := ShardKey(at);
    if Target(at) == Some(at) {
      ParsedLength(key[..|key| % U16_LIMIT], at);
    }
  }

  /** The server takes the key for the reference itself exactly when the protocol carries that, and then reads all
      of it. A key refused for a slash, or too long without another slash, names nothing. */
  lemma TargetIffCarried(at: ShardRef)
    requires Typed(at)
    ensures Target(at) == Some(at) <==> Carried(at)
    ensures Carried(at) ==> Spill(at) == []
    ensures !Carried(at) && (SlashFree(at) || |ShardKey(at)| < U16_LIMIT) ==> Target(at) == None
  {
    hide ShardKey, ParseKey, SlashFree, Utf8.Valid;
    var key := ShardKey(at);
    KeyValid(at);
    KeyRoundTrip(at);
    if |key| < U16_LIMIT {
      assert key[..|key|] == key;
    } else {
      LongKeyElsewhere(at);
      if SlashFree(at) {
        LongKeyRefused(at);
      }
    }
  }

  /** The key a/b/1, and a longer one that begins with it. */
  lemma KeysFrom(filler: Bytes)
    ensures
      var other, at := ShardRef([97], [98], 1), ShardRef([97], [98, SLASH, 49] + filler, 0);
      && ShardKey(at) == ShardKey(other) + filler + [SLASH] + [48] && |ShardKey(other)| == 5
      && ShardKey(other) == [97, SLASH, 98, SLASH, 49]
  {
    assert Decimal(1) == [49] && Decimal(0) == [48];
    hide Decimal;
    assert [98, SLASH, 49] + filler == [98] + [SLASH] + [49] + filler;
  }

  lemma TargetOfLonger(at: ShardRef, other: ShardRef, rest: Bytes)
    requires ShardKey(at) == ShardKey(other) + rest && |rest| == U16_LIMIT
    requires Typed(other) && SlashFree(other) && |ShardKey(other)| < U16_LIMIT
    ensures Target(at) == Some(other)
  {
    hide ShardKey, ParseKey, SlashFree, Utf8.Valid;
    KeyValid(other);
    KeyRoundTrip(other);
    assert |ShardKey(at)| % U16_LIMIT == |ShardKey(other)|;
    assert ShardKey(at)[..|ShardKey(other)|] == ShardKey(other);
  }

  /** A longer key with more slashes can name another shard. */
  lemma LongKeyMisdirected()
    ensures exists at, other :: Typed(at) && at != other && Target(at) == Some(other)
  {
    var filler: Bytes := seq(U16_LIMIT - 2, _ => 120);
    var other, at := ShardRef([97], [98], 1), ShardRef([97], [98, SLASH, 49] + filler, 0);
    Utf8.AsciiValid(other.namespace);
    Utf8.AsciiValid(other.blobId);
    Utf8.AsciiValid(at.blobId);
    KeysFrom(filler);
    hide ShardKey, ParseKey, Utf8.Valid, Target;
    assert ShardKey(other) + filler + [SLASH] + [48] == ShardKey(other) + (filler + [SLASH] + [48]);
    TargetOfLonger(at, other, filler + [SLASH] + [48]);
  }

  lemma RequestDecodes(op: byte, at: ShardRef, payload: Bytes)
    ensures
      var request := ParseRequest(EncodeRequest(op, ShardKey(at), payload));
      match Target(at)
      case None => request.None? || ParseKey(request.value.1).None?
      case Some(target) =>
        request.Some? && request.value.0 == op && ParseKey(request.value.1) == Some(target)
        && request.value.2 == Spill(at) + payload
  {
    hide ShardKey, ParseKey, ParseRequest, EncodeRequest, Utf8.Valid;
    var key := ShardKey(at);
    var klen := |key| % U16_LIMIT;
    ParseOfEncode(op, key, payload, klen);
    assert klen <= |key|;
    assert (key + payload)[..klen] == key[..klen] && (key + payload)[klen..] == key[klen..] + payload;
  }

  /** A remote put is the local put of the shard the server takes the key for, exactly when there is one and the
      request fits in a frame; otherwise it is refused and leaves the anchor alone. It is of the shard itself
      exactly when the protocol carries that (`TargetIffCarried`). A lost response hides the outcome. */
  lemma SendIsPut(objects: map<ShardRef, Bytes>, at: ShardRef, bytes: Bytes, call: AnchorCall, link: Link)
    ensures
      var fits := 3 + |ShardKey(at)| + |bytes| <= MAX_FRAME;
      var (after, r) :=
        if fits && Target(at).Some? then PutLocal(objects, Target(at).value, Spill(at) + bytes, call)
        else (objects, Err(Backend));
      SendShard(objects, at, bytes, call, link) ==
        match link
        case Whole => (after, r)
        case RequestLost => (objects, Err(Unavailable))
        case ResponseLost => (after, Err(Unavailable))
    ensures Typed(at) ==> (Target(at) == Some(at) <==> Carried(at)) && (Carried(at) ==> Spill(at) == [])
  {
    hide ShardKey, ParseKey, ParseRequest, EncodeRequest, Carried, Target, Spill, Typed;
    RequestDecodes(OP_PUT, at, bytes);
    RequestLength(OP_PUT, ShardKey(at), bytes);
    if Typed(at) {
      TargetIffCarried(at);
    }
  }

  /** A remote get is the local get of that shard exactly when there is one and request and answer fit in a frame;
      otherwise it is an error. It never changes the anchor. */
  lemma FetchIsGet(objects: map<ShardRef, Bytes>, at: ShardRef, call: AnchorCall, link: Link)
    ensures
      var target := Target(at);
      var asked := 3 + |ShardKey(at)| <= MAX_FRAME && target.Some?;
      var r :=
        if !asked then Err(Backend)
        else if call.Works? && target.value in objects && 1 + |objects[target.value]| > MAX_FRAME then Err(Unavailable)
        else GetLocal(objects, target.value, call);
      FetchShard(objects, at, call, link) == (objects, if link.Whole? then r else Err(Unavailable))
    ensures Typed(at) ==> (Target(at) == Some(at) <==> Carried(at)) && (Carried(at) ==> Spill(at) == [])
  {
    RequestDecodes(OP_GET, at, []);
    RequestLength(OP_GET, ShardKey(at), []);
    if Typed(at) {
      TargetIffCarried(at);
    }
    hide ShardKey, ParseKey, ParseRequest, EncodeRequest, Carried, Target, Spill, Typed;
    var target := Target(at);
    if call.Works? && target.Some? && target.value in objects {
      assert EncodeResponse(ST_OK, objects[target.value])[1..] == objects[target.value];
    }
  }

  lemma RequestLength(op: byte, key: Str, payload: Bytes)
    ensures |EncodeRequest(op, key, payload)| == 3 + |key| + |payload|
  {}
}
