/** Capability tokens: the signed encoding, issuance, authorization, and their soundness over runs. */
module Capability {
  import opened Prelude
  import opened Domain
  import opened Stores
  import opened Text

  const NEWLINE: byte := 10
  const MAX_TOKEN_TTL_SECS := 15 * 60

  datatype CapabilityClaims = CapabilityClaims(
    appId: AppId, namespace: NamespaceId, operation: Operation, nonce: Nonce, expiresAt: Timestamp)

  datatype CapabilityToken = CapabilityToken(claims: CapabilityClaims, signature: Bytes)

  // ---- The signed encoding ----

  function OperationText(op: Operation): Str {
    match op
    case Put => Ascii("put")
    case Get => Ascii("get")
    case List => Ascii("list")
    case Delete => Ascii("delete")
  }

  function CanonicalFields(c: CapabilityClaims): seq<Bytes> {
    [Ascii("vaultmesh.cap.v1"), Ascii("app=") + c.appId, Ascii("ns=") + c.namespace,
     Ascii("op=") + OperationText(c.operation), Ascii("nonce=") + c.nonce, Ascii("exp=") + Decimal(c.expiresAt)]
  }

  /** One labelled field a line. */
  function CanonicalBytes(c: CapabilityClaims): Bytes { Terminated(NEWLINE, CanonicalFields(c)) }

  lemma LineFirst(line: Bytes, rest: seq<Bytes>)
    ensures Terminated(NEWLINE, [line] + rest) == line + [NEWLINE] + Terminated(NEWLINE, rest)
  {
    assert ([line] + rest)[1..] == rest;
  }

  lemma LineLast(line: Bytes)
    ensures Terminated(NEWLINE, [line]) == line + [NEWLINE]
  {
    assert [line][1..] == [];
  }

  /** The bytes spelled out, line by line. */
  lemma CanonicalLayout(c: CapabilityClaims)
    ensures CanonicalBytes(c) ==
      Ascii("vaultmesh.cap.v1") + [10] + (Ascii("app=") + c.appId + [10] + (Ascii("ns=") + c.namespace + [10]
      + (Ascii("op=")
         + (match c.operation
            case Put => Ascii("put")
            case Get => Ascii("get")
            case List => Ascii("list")
            case Delete => Ascii("delete")) + [10]
      + (Ascii("nonce=") + c.nonce + [10] + (Ascii("exp=") + Decimal(c.expiresAt) + [10])))))
  {
    hide Terminated, Ascii, Decimal;
    var f := CanonicalFields(c);
    assert f == [f[0]] + [f[1], f[2], f[3], f[4], f[5]];
    LineFirst(f[0], [f[1], f[2], f[3], f[4], f[5]]);
    assert [f[1], f[2], f[3], f[4], f[5]] == [f[1]] + [f[2], f[3], f[4], f[5]];
    LineFirst(f[1], [f[2], f[3], f[4], f[5]]);
    assert [f[2], f[3], f[4], f[5]] == [f[2]] + [f[3], f[4], f[5]];
    LineFirst(f[2], [f[3], f[4], f[5]]);
    assert [f[3], f[4], f[5]] == [f[3]] + [f[4], f[5]];
    LineFirst(f[3], [f[4], f[5]]);
    assert [f[4], f[5]] == [f[4]] + [f[5]];
    LineFirst(f[4], [f[5]]);
    LineLast(f[5]);
  }

  ghost predicate NewlineFree(c: CapabilityClaims) {
    Free(NEWLINE, c.appId) && Free(NEWLINE, c.namespace) && Free(NEWLINE, c.nonce)
  }

  lemma PrefixFree(a: Bytes, b: Bytes)
    requires Free(NEWLINE, a) && Free(NEWLINE, b)
    ensures Free(NEWLINE, a + b)
  {}

  lemma LabelsFree(op: Operation, n: nat)
    ensures Free(NEWLINE, Ascii("vaultmesh.cap.v1")) && Free(NEWLINE, Ascii("app=")) && Free(NEWLINE, Ascii("ns="))
    ensures Free(NEWLINE, Ascii("op=")) && Free(NEWLINE, Ascii("nonce=")) && Free(NEWLINE, Ascii("exp="))
    ensures Free(NEWLINE, OperationText(op)) && Free(NEWLINE, Decimal(n))
  {}

  lemma FieldsFree(c: CapabilityClaims)
    requires NewlineFree(c)
    ensures AllFree(NEWLINE, CanonicalFields(c))
  {
    LabelsFree(c.operation, c.expiresAt);
    PrefixFree(Ascii("app="), c.appId);
    PrefixFree(Ascii("ns="), c.namespace);
    PrefixFree(Ascii("op="), OperationText(c.operation));
    PrefixFree(Ascii("nonce="), c.nonce);
    PrefixFree(Ascii("exp="), Decimal(c.expiresAt));
    var f := CanonicalFields(c);
    hide Ascii, Decimal, OperationText, Free;
    assert f[1..] == [f[1], f[2], f[3], f[4], f[5]] && [f[1], f[2], f[3], f[4], f[5]][1..] == [f[2], f[3], f[4], f[5]];
    assert [f[2], f[3], f[4], f[5]][1..] == [f[3], f[4], f[5]] && [f[3], f[4], f[5]][1..] == [f[4], f[5]];
    assert [f[4], f[5]][1..] == [f[5]] && [f[5]][1..] == [];
    assert AllFree(NEWLINE, [f[5]]);
    assert AllFree(NEWLINE, [f[4], f[5]]);
    assert AllFree(NEWLINE, [f[3], f[4], f[5]]);
    assert AllFree(NEWLINE, [f[2], f[3], f[4], f[5]]);
    assert AllFree(NEWLINE, [f[1], f[2], f[3], f[4], f[5]]);
  }

  lemma StripLabel(tag: Bytes, a: Bytes, b: Bytes)
    requires tag + a == tag + b
    ensures a == b
  {
    assert a == (tag + a)[|tag|..] && b == (tag + b)[|tag|..];
  }

  lemma OperationTextInjective(a: Operation, b: Operation)
    requires OperationText(a) == OperationText(b)
    ensures a == b
  {
    assert OperationText(a)[0] == OperationText(b)[0];
  }

  /** The encoding determines the claims as soon as one side's ids are free of newlines. */
  lemma CanonicalInjective(a: CapabilityClaims, b: CapabilityClaims)
    requires NewlineFree(a) && CanonicalBytes(a) == CanonicalBytes(b)
    ensures a == b
  {
    hide Ascii, Decimal, OperationText, Terminated, NewlineFree;
    FieldsFree(a);
    var f, g := CanonicalFields(a), CanonicalFields(b);
    TerminatedInjective(NEWLINE, f, g);
    assert f[1] == g[1] && f[2] == g[2] && f[3] == g[3] && f[4] == g[4] && f[5] == g[5];
    StripLabel(Ascii("app="), a.appId, b.appId);
    StripLabel(Ascii("ns="), a.namespace, b.namespace);
    StripLabel(Ascii("op="), OperationText(a.operation), OperationText(b.operation));
    OperationTextInjective(a.operation, b.operation);
    StripLabel(Ascii("nonce="), a.nonce, b.nonce);
    StripLabel(Ascii("exp="), Decimal(a.expiresAt), Decimal(b.expiresAt));
    DecimalInjective(a.expiresAt, b.expiresAt);
  }

  // ---- Authorization ----

  function CheckClaims(t: CapabilityToken, app: AppId, ns: NamespaceId, op: Operation, now: Timestamp)
    : Result<(), DomainError>
  {
    if now >= t.claims.expiresAt then Err(TokenExpired)
    else if t.claims.appId != app then Err(Unauthorized)
    else if t.claims.namespace != ns then Err(NamespaceMismatch)
    else if t.claims.operation != op then Err(OperationNotPermitted(t.claims.operation, op))
    else Ok(())
  }

  /** Does the signature verify over these bytes? */
  type Verifier = (Bytes, Bytes) -> bool

  /** The shared guard of the data plane: signature, scope and freshness, namespace ownership. */
  function Authorize(
    verify: Verifier, namespaces: map<NamespaceId, Namespace>, now: Timestamp,
    ns: NamespaceId, t: CapabilityToken, op: Operation): PortResult<AppId>
  {
    if !verify(CanonicalBytes(t.claims), t.signature) then Err(Crypto)
    else
      var app := t.claims.appId;
      match CheckClaims(t, app, ns, op, now)
      case Err(e) => Err(Domain(e))
      case Ok(_) =>
        if ns !in namespaces then Err(NotFound)
        else if !namespaces[ns].OwnedBy(app) then Err(Domain(Unauthorized))
        else Ok(app)
  }

  /** When the guard grants, and with which error it refuses: the first check that fails decides. */
  lemma AuthorizeAnswers(
    verify: Verifier, namespaces: map<NamespaceId, Namespace>, now: Timestamp,
    ns: NamespaceId, t: CapabilityToken, op: Operation)
    ensures
      var r := Authorize(verify, namespaces, now, ns, t, op);
      var signed := verify(CanonicalBytes(t.claims), t.signature);
      var unexpired := now < t.claims.expiresAt;
      var here, allowed := t.claims.namespace == ns, t.claims.operation == op;
      && (r.Ok? <==>
            signed && unexpired && here && allowed && ns in namespaces && namespaces[ns].appId == t.claims.appId)
      && (r.Ok? ==> r.value == t.claims.appId)
      && (!signed ==> r == Err(Crypto))
      && (signed && !unexpired ==> r == Err(Domain(TokenExpired)))
      && (signed && unexpired && !here ==> r == Err(Domain(NamespaceMismatch)))
      && (signed && unexpired && here && !allowed ==> r == Err(Domain(OperationNotPermitted(t.claims.operation, op))))
      && (signed && unexpired && here && allowed && ns !in namespaces ==> r == Err(NotFound))
      && (signed && unexpired && here && allowed && ns in namespaces && namespaces[ns].appId != t.claims.appId ==>
            r == Err(Domain(Unauthorized)))
  {
    hide CanonicalBytes;
  }

  // ---- Issuance ----

  function Clamp(x: nat, lo: nat, hi: nat): nat
    requires lo <= hi
  {
    Max(lo, Min(x, hi))
  }

  /** The claims the coordinator signs. */
  function Issued(
    namespaces: map<NamespaceId, Namespace>, now: Timestamp,
    app: AppId, ns: NamespaceId, op: Operation, ttlSecs: nat, nonce: Nonce): PortResult<CapabilityClaims>
  {
    if ns !in namespaces then Err(NotFound)
    else if !namespaces[ns].OwnedBy(app) then Err(Domain(Unauthorized))
    else Ok(CapabilityClaims(app, ns, op, nonce, PlusSecs(now, Clamp(ttlSecs, 1, MAX_TOKEN_TTL_SECS))))
  }

  /** Exactly the owner gets a token, for what it asked and as long as it asked, between a second and fifteen
      minutes, and no longer than the clock counts. */
  lemma IssuedAnswers(
    namespaces: map<NamespaceId, Namespace>, now: Timestamp,
    app: AppId, ns: NamespaceId, op: Operation, ttlSecs: nat, nonce: Nonce)
    ensures
      var r := Issued(namespaces, now, app, ns, op, ttlSecs, nonce);
      && (ns !in namespaces ==> r == Err(NotFound))
      && (ns in namespaces && namespaces[ns].appId != app ==> r == Err(Domain(Unauthorized)))
      && (ns in namespaces && namespaces[ns].appId == app ==>
            r.Ok? && GrantsAsked(r.value, now, app, ns, op, ttlSecs, nonce))
  {}

  /** The claims are for what was asked. */
  ghost predicate GrantsAsked(
    c: CapabilityClaims, now: Timestamp, app: AppId, ns: NamespaceId, op: Operation, ttlSecs: nat, nonce: Nonce)
  {
    && c.appId == app && c.namespace == ns && c.operation == op && c.nonce == nonce
    && var millis := if ttlSecs == 0 then 1000 else if ttlSecs <= 900 then 1000 * ttlSecs else 900_000;
    c.expiresAt == Min(now + millis, U64_MAX)
  }

  /** What signs the canonical bytes. */
  type Signer = Bytes -> Bytes

  class IssueCapability {
    const metadata: MemoryMetadataStore
    const sign: Signer

    constructor (metadata: MemoryMetadataStore, sign: Signer)
      ensures this.metadata == metadata && this.sign == sign
    {
      this.metadata, this.sign := metadata, sign;
    }

    /** `now` is the clock, `nonce` fresh. */
    method Execute(app: AppId, ns: NamespaceId, op: Operation, ttlSecs: nat, now: Timestamp, nonce: Nonce)
      returns (r: PortResult<CapabilityToken>)
      ensures
        var issued := Issued(metadata.namespaces, now, app, ns, op, ttlSecs, nonce);
        r == if issued.Err? then Err(issued.error)
             else Ok(CapabilityToken(issued.value, sign(CanonicalBytes(issued.value))))
      ensures ns !in metadata.namespaces ==> r == Err(NotFound)
      ensures ns in metadata.namespaces && metadata.namespaces[ns].appId != app ==> r == Err(Domain(Unauthorized))
      ensures ns in metadata.namespaces && metadata.namespaces[ns].appId == app ==>
        && r.Ok? && GrantsAsked(r.value.claims, now, app, ns, op, ttlSecs, nonce)
        && r.value.signature == sign(CanonicalBytes(r.value.claims))
    {
      hide CanonicalBytes;
      if ns !in metadata.namespaces {
        return Err(NotFound);
      }
      if !metadata.namespaces[ns].OwnedBy(app) {
        return Err(Domain(Unauthorized));
      }
      var ttl := Clamp(ttlSecs, 1, MAX_TOKEN_TTL_SECS);
      var claims := CapabilityClaims(app, ns, op, nonce, PlusSecs(now, ttl));
      return Ok(CapabilityToken(claims, sign(CanonicalBytes(claims))));
    }
  }

  // ---- Runs ----

  /** What was asked, when, and the claims signed for it. */
  datatype Issuance = Issuance(
    at: Timestamp, app: AppId, ns: NamespaceId, op: Operation, ttlSecs: nat, claims: CapabilityClaims)

  datatype AuthState = AuthState(now: Timestamp, namespaces: map<NamespaceId, Namespace>, issued: seq<Issuance>)

  const INITIAL := AuthState(0, map[], [])

  datatype AuthEvent =
    | Tick(millis: nat)
    | CreateNamespace(created: Namespace)
    | Issue(app: AppId, ns: NamespaceId, op: Operation, ttlSecs: nat, nonce: Nonce)

  /** Namespace ids are fresh: creating one that exists changes nothing. */
  function AuthStep(s: AuthState, e: AuthEvent): AuthState {
    match e
    case Tick(millis) => s.(now := s.now + millis)
    case CreateNamespace(ns) =>
      if ns.id in s.namespaces then s else s.(namespaces := s.namespaces[ns.id := ns])
    case Issue(app, ns, op, ttlSecs, nonce) =>
      match Issued(s.namespaces, s.now, app, ns, op, ttlSecs, nonce)
      case Err(_) => s
      case Ok(claims) => s.(issued := s.issued + [Issuance(s.now, app, ns, op, ttlSecs, claims)])
  }

  function AuthAfter(events: seq<AuthEvent>): AuthState {
    if events == [] then INITIAL
    else AuthStep(AuthAfter(events[..|events| - 1]), events[|events| - 1])
  }

  ghost predicate IssuanceOk(s: AuthState, i: Issuance) {
    && i.at <= s.now
    && GrantsAsked(i.claims, i.at, i.app, i.ns, i.op, i.ttlSecs, i.claims.nonce)
    && i.ns in s.namespaces && s.namespaces[i.ns].appId == i.app
  }

  lemma {:induction false} IssuancesOk(events: seq<AuthEvent>)
    ensures forall i :: 0 <= i < |AuthAfter(events).issued| ==>
      IssuanceOk(AuthAfter(events), AuthAfter(events).issued[i])
  {
    if events != [] {
      var front := events[..|events| - 1];
      IssuancesOk(front);
      var s, s' := AuthAfter(front), AuthAfter(events);
      forall i | 0 <= i < |s'.issued|
        ensures IssuanceOk(s', s'.issued[i])
      {
        if i < |s.issued| {
          assert IssuanceOk(s, s.issued[i]);
        }
      }
    }
  }

  /** Signatures exist only on issued bytes, and the ids handed out contain no newline. */
  ghost predicate Unforgeable(verify: Verifier, s: AuthState) {
    && (forall m, sig :: verify(m, sig) ==> exists i :: 0 <= i < |s.issued| && m == CanonicalBytes(s.issued[i].claims))
    && (forall i :: 0 <= i < |s.issued| ==> NewlineFree(s.issued[i].claims))
  }

  /** The issuance behind an accepted request: the same claims, asked for by this app for this namespace and
      operation, still within its fifteen minutes. */
  ghost predicate Backs(
    s: AuthState, i: nat, t: CapabilityToken, app: AppId, ns: NamespaceId, op: Operation)
  {
    && i < |s.issued|
    && s.issued[i].claims == t.claims
    && s.issued[i].app == app && s.issued[i].ns == ns && s.issued[i].op == op
    && s.issued[i].at <= s.now < s.issued[i].at + 900_000
  }

  /** Whatever token is presented, an accepted request matches an issuance that the app owning the namespace asked
      for, for this namespace and operation, less than fifteen minutes before. */
  lemma AcceptedWasIssued(
    events: seq<AuthEvent>, verify: Verifier, ns: NamespaceId, t: CapabilityToken, op: Operation)
    requires Unforgeable(verify, AuthAfter(events))
    requires Authorize(verify, AuthAfter(events).namespaces, AuthAfter(events).now, ns, t, op).Ok?
    ensures
      var s := AuthAfter(events);
      && ns in s.namespaces && s.namespaces[ns].appId == t.claims.appId
      && exists i :: Backs(s, i, t, s.namespaces[ns].appId, ns, op)
  {
    hide CanonicalBytes, AuthAfter, NewlineFree;
    var s := AuthAfter(events);
    var m := CanonicalBytes(t.claims);
    assert verify(m, t.signature);
    var i :| 0 <= i < |s.issued| && m == CanonicalBytes(s.issued[i].claims);
    CanonicalInjective(s.issued[i].claims, t.claims);
    IssuancesOk(events);
    assert IssuanceOk(s, s.issued[i]);
    assert Backs(s, i, t, s.namespaces[ns].appId, ns, op);
  }

  /** Every issued token is accepted for what it was asked for, at any time of the run before it expires, if its
      signature verifies. */
  lemma IssuedIsAccepted(events: seq<AuthEvent>, verify: Verifier, i: nat, signature: Bytes)
    requires
      var s := AuthAfter(events);
      i < |s.issued| && s.now < s.issued[i].claims.expiresAt
      && verify(CanonicalBytes(s.issued[i].claims), signature)
    ensures
      var s, asked := AuthAfter(events), AuthAfter(events).issued[i];
      var token := CapabilityToken(asked.claims, signature);
      Authorize(verify, s.namespaces, s.now, asked.ns, token, asked.op) == Ok(asked.app)
  {
    hide CanonicalBytes, AuthAfter;
    IssuancesOk(events);
    assert IssuanceOk(AuthAfter(events), AuthAfter(events).issued[i]);
  }
}
