/** The domain values: identifiers, the app contract, shards and manifests, and the errors. */
module Domain {
  import opened Prelude

  /** A Rust `String`, as its UTF-8 bytes. */
  type Str = Bytes
  type AppId = Str
  type NamespaceId = Str
  type BlobId = Str
  type Nonce = Str
  type Peer = Str
  type Digest = Str

  /** Milliseconds since the epoch. */
  type Timestamp = nat

  function PlusSecs(t: Timestamp, secs: nat): Timestamp { SaturatingAdd(t, SaturatingMul(secs, 1000)) }

  datatype Operation = Put | Get | List | Delete

  datatype DomainError =
    | InvalidErasureParams
    | TokenExpired
    | Unauthorized
    | NamespaceMismatch
    | OperationNotPermitted(granted: Operation, requested: Operation)
    | QuotaExceeded
    | RetentionHold(minDays: nat)

  /** The port errors, without their message texts. */
  datatype PortError =
    | NotFound
    | Domain(cause: DomainError)
    | Crypto
    | Integrity
    | Unavailable
    | Backend

  type PortResult<+T> = Result<T, PortError>

  // ---- The app contract ----

  /** `k` of `n` shards restore a blob; both fields are `u8`. */
  datatype ErasureParams = ErasureParams(k: nat, n: nat) {
    predicate WellFormed() { 1 <= k <= n <= 255 }
  }

  datatype Quota = Quota(maxBytes: nat, maxObjects: nat) {
    predicate Admits(currentBytes: nat, objectCount: nat, addBytes: nat) {
      SaturatingAdd(currentBytes, addBytes) <= maxBytes && objectCount < maxObjects
    }
  }

  const DAY_MS := 86_400_000
  const U32_LIMIT := 0x1_0000_0000

  /** Both fields are `u32`. */
  datatype RetentionPolicy = RetentionPolicy(keepVersions: nat, minDays: nat) {
    predicate HoldElapsed(createdAt: Timestamp, now: Timestamp) {
      minDays == 0 || SaturatingSub(now, createdAt) >= minDays * DAY_MS
    }
  }

  /** The hold has elapsed exactly from `createdAt` plus the whole hold on; the product is a `u64`. */
  lemma HoldElapsedIff(p: RetentionPolicy, createdAt: Timestamp, now: Timestamp)
    requires p.minDays < U32_LIMIT
    ensures p.HoldElapsed(createdAt, now) <==> p.minDays == 0 || createdAt + p.minDays * 86_400_000 <= now
    ensures p.minDays * DAY_MS < U64_LIMIT
  {}

  /** Once elapsed, a hold stays elapsed, and has elapsed for everything older. */
  lemma HoldMonotone(p: RetentionPolicy, createdAt: Timestamp, older: Timestamp, now: Timestamp, later: Timestamp)
    requires older <= createdAt && now <= later
    requires p.HoldElapsed(createdAt, now)
    ensures p.HoldElapsed(older, later)
  {}

  datatype AppContract = AppContract(
    appId: AppId, quota: Quota, retention: RetentionPolicy, erasure: ErasureParams)

  datatype Namespace = Namespace(id: NamespaceId, appId: AppId) {
    predicate OwnedBy(app: AppId) { appId == app }
  }

  // ---- Backups ----

  datatype ShardLocation = Anchor | Peer(addr: Peer)

  function AsPeers(peers: seq<Peer>): seq<ShardLocation> { seq(|peers|, j requires 0 <= j < |peers| => Peer(peers[j])) }

  /** `size` is a `u32`. */
  datatype Shard = Shard(index: nat, sha256: Digest, size: nat, locations: seq<ShardLocation>)

  datatype Manifest = Manifest(
    blobId: BlobId,
    namespace: NamespaceId,
    erasure: ErasureParams,
    shards: seq<Shard>,
    ciphertextLen: nat,
    createdAt: Timestamp,
    nameEnc: Option<Str>,
    objectId: Option<Str>)
  {
    predicate IsReconstructable(available: nat) { available >= erasure.k }
  }

  datatype ShardRef = ShardRef(namespace: NamespaceId, blobId: BlobId, index: nat)

  /** The digest function: any function from bytes to text. */
  type Hash = Bytes -> Digest

  /** The manifest lists the codeword's shards: position is index, and each hash is the shard's. */
  ghost predicate Describes(h: Hash, m: Manifest, codeword: seq<Bytes>) {
    && |m.shards| == |codeword| == m.erasure.n
    && forall i :: 0 <= i < |codeword| ==> m.shards[i].index == i && m.shards[i].sha256 == h(codeword[i])
  }
}
