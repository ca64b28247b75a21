/**
  Who may start what: the shape of a request, the capability the broker mints for it, the checks a
  capability and a cancel intent must pass.
*/
module Authority {
  import opened Basics
  import opened Wire
  import opened Canonical
  import Hex

  const PROTOCOL: u32 := 2
  const TTL: i64 := 300
  const MAX_FIELD := 4096
  const MAX_ARGV := 128
  const MAX_ENV := 64
  const MAX_TIMEOUT_MS := 300_000
  const MAX_OUTPUT := 1_000_000
  const MAX_IMAGE := 512 * 1024 * 1024

  function ElevatedScope(): Str { Ascii("elevated.exec") }

  datatype Refusal = Protocol | Expired | InvalidToken | Unauthorized | BadSignature

  /** The key material of one broker: digest and MAC as text, raw signatures. */
  datatype Keys = Keys(digest: Str -> Str, mac: Str -> Str, sign: Str -> Str, verify: (Str, Str) -> bool)

  // ---------------------------------------------------------------- shape

  /** The octet length of the white-space character at the front, or 0. */
  function WhiteSpace(s: Str): (n: nat)
    ensures n <= |s|
  {
    if s == [] then 0
    else if 9 <= s[0] <= 13 || s[0] == 32 then 1
    else if |s| >= 2 && s[0] == 0xC2 && (s[1] == 0x85 || s[1] == 0xA0) then 2
    else if |s| >= 3 && s[..3] == [0xE1, 0x9A, 0x80] then 3
    else if |s| >= 3 && s[0] == 0xE2 && s[1] == 0x80 &&
        (0x80 <= s[2] <= 0x8A || s[2] == 0xA8 || s[2] == 0xA9 || s[2] == 0xAF) then 3
    else if |s| >= 3 && s[..3] == [0xE2, 0x81, 0x9F] then 3
    else if |s| >= 3 && s[..3] == [0xE3, 0x80, 0x80] then 3
    else 0
  }

  /** Nothing but white space. */
  predicate Blank(s: Str) {
    s == [] || (WhiteSpace(s) > 0 && Blank(s[WhiteSpace(s)..]))
  }

  predicate Bounded(s: Str) {
    !Blank(s) && |s| <= MAX_FIELD && 0 !in s
  }

  predicate BoundedNames(r: Request) {
    && Bounded(r.requestId) && Bounded(r.operation) && Bounded(r.nonce)
    && Bounded(r.facts.operation) && Bounded(r.facts.principal) && Bounded(r.facts.tenant)
    && Bounded(r.facts.device) && Bounded(r.facts.workspace) && Bounded(r.facts.executable.path)
  }

  predicate BoundedFacts(operation: Str, f: Facts) {
    && f.operation == operation
    && 0 < |f.argv| <= MAX_ARGV
    && |f.env| <= MAX_ENV && f.env == map[]
    && IsDigest(f.payloadSha256) && IsDigest(f.executable.sha256)
    && f.argv[0] == f.executable.path
    && 0 < f.timeoutMs <= MAX_TIMEOUT_MS
    && 0 < f.maxOutput <= MAX_OUTPUT
    && 0 < f.executable.size <= MAX_IMAGE
  }

  predicate BoundedCommand(f: Facts) {
    && (forall k :: 0 <= k < |f.argv| ==> Bounded(f.argv[k]))
    && (f.cwd.Some? ==> Bounded(f.cwd.value) && f.cwd.value[0] == '/' as int)
  }

  predicate WellFormedPeer(p: Peer) {
    Bounded(p.path) && Bounded(p.image) && p.pid > 0 && p.birth != 0
  }

  predicate BoundedToken(c: Capability) {
    && Bounded(c.tokenId) && Bounded(c.instance) && Bounded(c.keyId) && Bounded(c.principal)
    && IsDigest(c.factsDigest) && WellFormedPeer(c.peer)
  }

  /** Nothing is refused, or the first ground for refusal. */
  function CheckShape(r: Request, now: i64): Option<Refusal> {
    if r.version != PROTOCOL then Some(Protocol)
    else if now > r.expires || r.issued > now then Some(Expired)
    else if r.expires < r.issued || SaturatingSub(r.expires, r.issued) > TTL then Some(Protocol)
    else if !BoundedNames(r) || !BoundedFacts(r.operation, r.facts) || !BoundedCommand(r.facts) then Some(Protocol)
    else if r.capability.Some? && !BoundedToken(r.capability.value) then Some(Protocol)
    else None
  }

  predicate ValidShape(r: Request, now: i64) {
    CheckShape(r, now).None?
  }

  // ---------------------------------------------------------------- capabilities

  function FactsDigest(keys: Keys, f: Facts): Str {
    keys.digest(FactsBytes(f))
  }

  /** What the broker binds into a token besides its own signature. */
  datatype Mint = Mint(tokenId: Str, instance: Str, keyId: Str, principal: Str, operation: Str, facts: Facts,
      nonce: Str,
                       peer: Peer, now: i64, ttl: i64)

  function Unsigned(keys: Keys, m: Mint): Capability {
    Capability(m.tokenId, m.instance, m.keyId, m.principal, ElevatedScope(), m.operation, FactsDigest(keys, m.facts),
               m.nonce, m.peer, m.now, SaturatingAdd(m.now, m.ttl), [])
  }

  function Issue(keys: Keys, m: Mint): Capability {
    var token := Unsigned(keys, m);
    token.(signature := Hex.Encode(keys.sign(CapabilityBytes(token))))
  }

  /** An octet string is a signature only if it has 64 octets. */
  predicate Signed(keys: Keys, message: Str, signature: Str) {
    |signature| == 64 && keys.verify(message, signature)
  }

  function CheckCapability(keys: Keys, r: Request, instance: Str, keyId: Str, peer: Peer, now: i64): Option<Refusal> {
    if CheckShape(r, now).Some? then CheckShape(r, now)
    else if r.capability.None? then Some(InvalidToken)
    else
      var c := r.capability.value;
      if now > c.expires || c.issued > now then Some(Expired)
      else if c.scope != ElevatedScope() || c.operation != r.operation || c.nonce != r.nonce || c.instance != instance
              || c.keyId != keyId || c.factsDigest != FactsDigest(keys, r.facts) || c.peer != peer
      then Some(Unauthorized)
      else
        var signature := Hex.Decode(c.signature);
        if signature.None? || !Signed(keys, CapabilityBytes(c), signature.value) then Some(BadSignature) else None
  }

  // ---------------------------------------------------------------- cancel intents

  function CheckCancel(keys: Keys, c: Cancel, now: i64): Option<Refusal> {
    if c.version != PROTOCOL || now > c.expires || c.issued > now || c.expires < c.issued
       || SaturatingSub(c.expires, c.issued) > TTL || !IsDigest(c.targetDigest)
    then Some(Protocol)
    else if !(Bounded(c.requestId) && Bounded(c.operation) && Bounded(c.nonce) && Bounded(c.targetRequest)
              && Bounded(c.targetOperation) && Bounded(c.targetNonce))
    then Some(Protocol)
    else if !Hex.SameCode(keys.mac(CancelBytes(c)), c.mac) then Some(BadSignature)
    else None
  }

  /** `requestId` and `nonce` stand for the two fresh identifiers. */
  function BuildCancel(keys: Keys, execute: Request, now: i64, requestId: Str, nonce: Str): Cancel {
    var expires := Min(SaturatingAdd(now, TTL), execute.expires);
    var cancel := Cancel(PROTOCOL, requestId, execute.operation, nonce, now, expires,
                         execute.requestId, execute.operation, execute.nonce, FactsDigest(keys, execute.facts), []);
    cancel.(mac := keys.mac(CancelBytes(cancel)))
  }

  // ---------------------------------------------------------------- the region of unique decoding

  /** The facts of every request of valid shape lie where the encoding is uniquely decodable. */
  lemma ValidShapeFits(r: Request, now: i64)
    requires ValidShape(r, now)
    ensures FactsFit(r.facts)
    ensures Short(FactsBytes(r.facts))
  {
    FactsLength(r.operation, r.facts);
  }

  lemma FactsLength(operation: Str, f: Facts)
    requires BoundedFacts(operation, f) && BoundedCommand(f)
    requires Bounded(f.operation) && Bounded(f.principal) && Bounded(f.tenant) && Bounded(f.device) &&
        Bounded(f.workspace)
    requires Bounded(f.executable.path)
    ensures |FactsBytes(f)| <= 600_000
  {
    var r3 := ExecutableBytes(f.executable, []);
    var r2 := EnvBytes(f.env, r3);
    var r1 := Maybe(f.cwd, r2);
    assert |r3| <= 4200;
    assert |r2| <= 4300;
    assert |r1| <= 8500;
    TextsLength(f.argv, r1, MAX_FIELD);
    assert |CommandBytes(f, [])| <= 4100 * 128 + 8600;
    assert |LimitBytes(f, CommandBytes(f, []))| <= 4100 * 128 + 17000;
  }

  /** Everything a mint copies from the request it is made for. */
  predicate MintOf(m: Mint, r: Request) {
    && m.facts == r.facts && m.operation == r.operation && m.nonce == r.nonce && m.principal == r.facts.principal
    && m.ttl == SaturatingSub(r.expires, m.now)
  }

  /**
    A mint the broker signs: for a request that had valid shape when it was last looked at, at `seen`.
    The clock is read again before signing, and the token is checked only afterwards, so the request
    may have expired and peer and names may be malformed.
  */
  predicate Signable(m: Mint, r: Request, seen: i64) {
    && ValidShape(r, seen) && r.capability.None? && MintOf(m, r)
    && Short(m.tokenId) && Short(m.instance) && Short(m.keyId) && Short(m.peer.path) && Short(m.peer.image)
  }

  /** The MAC check on a request as it comes off the wire. */
  function CheckRequest(keys: Keys, r: Request, now: i64): Option<Refusal> {
    if CheckShape(r, now).Some? then CheckShape(r, now)
    else if !Hex.SameCode(keys.mac(RequestBytes(r)), r.mac) then Some(BadSignature)
    else None
  }
}

/** What minting and checking promise, for ideal signatures and a collision-free digest. */
module AuthorityTheorems {
  import opened Basics
  import opened Wire
  import opened Canonical
  import opened Authority
  import Hex

  /** Every digest is 64 lower-case hexadecimal octets. */
  ghost predicate DigestsAreText(keys: Keys) {
    forall s :: IsDigest(keys.digest(s))
  }

  // ---------------------------------------------------------------- minting

  lemma SignatureNotCovered(c: Capability, signature: Str)
    ensures CapabilityBytes(c.(signature := signature)) == CapabilityBytes(c)
  {
  }

  /** The lifetime arithmetic never saturates on a valid request: the token ends with it. */
  lemma TokenEndsWithRequest(r: Request, now: i64)
    requires ValidShape(r, now)
    ensures SaturatingAdd(now, SaturatingSub(r.expires, now)) == r.expires
  {
  }

  lemma MintedShape(keys: Keys, m: Mint, r: Request)
    requires DigestsAreText(keys) && ValidShape(r, m.now) && MintOf(m, r)
    ensures
      CheckShape(r.(capability := Some(Issue(keys, m))), m.now)
      == if Bounded(m.tokenId) && Bounded(m.instance) && Bounded(m.keyId) &&
          WellFormedPeer(m.peer) then None else Some(Protocol)
  {
    hide CapabilityBytes, FactsBytes, BoundedFacts, BoundedCommand, Bounded;
    var n := r.(capability := Some(Issue(keys, m)));
    assert BoundedNames(n) == BoundedNames(r);
    assert BoundedToken(Issue(keys, m)) ==
        (Bounded(m.tokenId) && Bounded(m.instance) && Bounded(m.keyId) && WellFormedPeer(m.peer));
  }

  /**
    Mint then verify: for a valid unexpired request the fresh token is accepted exactly when the peer
    and the broker's own names are well formed, and it expires exactly with the request.
  */
  lemma MintThenVerify(keys: Keys, m: Mint, r: Request)
    requires DigestsAreText(keys) && ValidShape(r, m.now) && MintOf(m, r)
    requires var message := CapabilityBytes(Unsigned(keys, m)); Signed(keys, message, keys.sign(message))
    ensures Issue(keys, m).expires == r.expires
    ensures
      CheckCapability(keys, r.(capability := Some(Issue(keys, m))), m.instance, m.keyId, m.peer, m.now).None?
      <==> Bounded(m.tokenId) && Bounded(m.instance) && Bounded(m.keyId) && WellFormedPeer(m.peer)
  {
    TokenEndsWithRequest(r, m.now);
    MintedShape(keys, m, r);
    var signature := keys.sign(CapabilityBytes(Unsigned(keys, m)));
    SignatureNotCovered(Unsigned(keys, m), Hex.Encode(signature));
    Hex.DecodeEncode(signature);
    hide CapabilityBytes, FactsBytes, CheckShape, WellFormedPeer, Bounded;
  }

  // ---------------------------------------------------------------- acceptance

  /** The signer is ideal: what verifies was signed for one of these mints. */
  ghost predicate OnlySigned(keys: Keys, log: seq<Mint>) {
    forall message, signature :: keys.verify(message, signature) ==>
      exists k :: 0 <= k < |log| && message == CapabilityBytes(Unsigned(keys, log[k]))
  }

  /** No minted facts share a digest with these without being encoded alike. */
  ghost predicate NoCollision(keys: Keys, log: seq<Mint>, f: Facts) {
    forall k :: 0 <= k < |log| && FactsDigest(keys, log[k].facts) == FactsDigest(keys, f) ==>
        FactsBytes(log[k].facts) == FactsBytes(f)
  }

  lemma MintedFits(keys: Keys, m: Mint, r: Request, seen: i64)
    requires DigestsAreText(keys) && Signable(m, r, seen)
    ensures CapabilityFits(Unsigned(keys, m)) && FactsFit(m.facts)
  {
    ValidShapeFits(r, seen);
    hide FactsBytes, BoundedFacts, BoundedCommand, FactsFit;
  }

  lemma AcceptedFits(keys: Keys, r: Request, instance: Str, keyId: Str, peer: Peer, now: i64)
    requires CheckCapability(keys, r, instance, keyId, peer, now).None?
    ensures r.capability.Some? && CapabilityFits(r.capability.value) && FactsFit(r.facts)
    ensures Hex.Decode(r.capability.value.signature).Some?
    ensures keys.verify(CapabilityBytes(r.capability.value), Hex.Decode(r.capability.value.signature).value)
    ensures
      var c := r.capability.value;
      && c.operation == r.operation && c.nonce == r.nonce && c.instance == instance && c.keyId == keyId
      && c.factsDigest == FactsDigest(keys, r.facts) && c.peer == peer && c.issued <= now <= c.expires
    ensures r.facts.argv != [] && r.facts.argv[0] == r.facts.executable.path
    ensures r.facts.env == map[] && r.facts.operation == r.operation
  {
    ValidShapeFits(r, now);
    hide FactsBytes, BoundedCommand, CapabilityBytes, FactsFit, Hex.Decode, Bounded, IsDigest;
  }

  lemma TokensInjective(a: Capability, b: Capability)
    requires CapabilityFits(a) && CapabilityFits(b) && CapabilityBytes(a) == CapabilityBytes(b)
    ensures a.(signature := []) == b.(signature := [])
  {
    CapabilityRoundTrip(a);
    CapabilityRoundTrip(b);
  }

  /** Mint `m`, made for request `from`, stands behind request `r`. */
  predicate Backs(m: Mint, from: Request, r: Request, instance: Str, keyId: Str, peer: Peer, now: i64) {
    && m.facts == r.facts && m.nonce == r.nonce && m.operation == r.operation
    && m.peer == peer && m.instance == instance && m.keyId == keyId
    && m.now <= now <= from.expires
    && r.capability.Some? && r.capability.value.principal == r.facts.principal
    && m.facts.argv != [] && m.facts.argv[0] == m.facts.executable.path
    && m.facts.env == map[] && m.facts.operation == m.operation
  }

  /** A token that is accepted was made for a request that has not expired, whenever it was signed. */
  lemma AcceptedInTime(minted: i64, expires: i64, now: i64)
    requires minted <= now <= SaturatingAdd(minted, SaturatingSub(expires, minted))
    ensures now <= expires
  {
  }

  lemma SameTokenBacks(keys: Keys, m: Mint, from: Request, seen: i64, r: Request,
                       instance: Str, keyId: Str, peer: Peer, now: i64)
    requires DigestsAreText(keys) && Signable(m, from, seen)
    requires CheckCapability(keys, r, instance, keyId, peer, now).None?
    requires FactsDigest(keys, m.facts) == FactsDigest(keys, r.facts) ==> FactsBytes(m.facts) == FactsBytes(r.facts)
    requires CapabilityBytes(r.capability.value) == CapabilityBytes(Unsigned(keys, m))
    ensures Backs(m, from, r, instance, keyId, peer, now)
  {
    hide CheckCapability, CheckShape, CapabilityFits, FactsFit, CapabilityBytes, FactsBytes, Hex.Decode;
    AcceptedFits(keys, r, instance, keyId, peer, now);
    MintedFits(keys, m, from, seen);
    TokensInjective(r.capability.value, Unsigned(keys, m));
    AcceptedInTime(m.now, from.expires, now);
    FactsInjective(m.facts, r.facts);
  }

  /**
    An accepted request was minted: some mint bound exactly these facts, this nonce, this operation,
    this live peer and this broker, the request it was made for has not expired, the token speaks for
    the principal in the facts, and what the facts start is the executable they pin.
  */
  lemma AcceptedWasMinted(keys: Keys, log: seq<Mint>, from: seq<Request>, seen: seq<i64>, r: Request,
                          instance: Str, keyId: Str, peer: Peer, now: i64)
    requires DigestsAreText(keys) && OnlySigned(keys, log) && NoCollision(keys, log, r.facts)
    requires |from| == |seen| == |log| && forall k :: 0 <= k < |log| ==> Signable(log[k], from[k], seen[k])
    requires CheckCapability(keys, r, instance, keyId, peer, now).None?
    ensures exists k :: 0 <= k < |log| && Backs(log[k], from[k], r, instance, keyId, peer, now)
  {
    hide CheckCapability, Signable, CapabilityFits, FactsFit, CapabilityBytes, FactsBytes, Hex.Decode;
    AcceptedFits(keys, r, instance, keyId, peer, now);
    var k :| 0 <= k < |log| && CapabilityBytes(r.capability.value) == CapabilityBytes(Unsigned(keys, log[k]));
    SameTokenBacks(keys, log[k], from[k], seen[k], r, instance, keyId, peer, now);
  }

  // ---------------------------------------------------------------- cancellation

  /** A cancel built for a valid unexpired execute is accepted exactly until its own expiry. */
  lemma BuiltCancelVerifies(keys: Keys, execute: Request, now: i64, later: i64, requestId: Str, nonce: Str)
    requires DigestsAreText(keys) && ValidShape(execute, now) && Bounded(requestId) && Bounded(nonce)
    ensures
      var cancel := BuildCancel(keys, execute, now, requestId, nonce);
      && cancel.expires == Min(now + TTL, execute.expires)
      && (CheckCancel(keys, cancel, later).None? <==> now <= later <= cancel.expires)
  {
    hide FactsBytes, BoundedFacts, BoundedCommand, Bounded, Hex.Decode;
    var cancel := BuildCancel(keys, execute, now, requestId, nonce);
    assert CancelBytes(cancel) == CancelBytes(cancel.(mac := []));
  }

  /** The fence a cancel must pass: it names this execution. */
  predicate Names(keys: Keys, c: Cancel, execute: Request) {
    && c.targetRequest == execute.requestId && c.targetOperation == execute.operation
    && c.targetNonce == execute.nonce && c.targetDigest == FactsDigest(keys, execute.facts)
  }

  /** A built cancel names an execution exactly when it has the identifiers and the facts of its own. */
  lemma BuiltCancelNamesItsExecute(keys: Keys, execute: Request, now: i64, requestId: Str, nonce: Str,
      other: Request, seen: i64)
    requires ValidShape(execute, now) && ValidShape(other, seen)
    requires FactsDigest(keys, execute.facts) == FactsDigest(keys, other.facts) ==>
        FactsBytes(execute.facts) == FactsBytes(other.facts)
    ensures Names(keys, BuildCancel(keys, execute, now, requestId, nonce), other) <==>
      && other.requestId == execute.requestId && other.operation == execute.operation
      && other.nonce == execute.nonce && other.facts == execute.facts
  {
    hide CheckShape, FactsBytes, CancelBytes;
    ValidShapeFits(execute, now);
    ValidShapeFits(other, seen);
    if FactsBytes(execute.facts) == FactsBytes(other.facts) {
      FactsInjective(execute.facts, other.facts);
    }
  }

  lemma AcceptedCancelFits(keys: Keys, c: Cancel, now: i64)
    requires CheckCancel(keys, c, now).None?
    ensures CancelFits(c) && Hex.SameCode(keys.mac(CancelBytes(c)), c.mac)
  {
    hide CancelBytes, Hex.SameCode;
  }

  /** One MAC text authenticates one cancel: every field is bound by it. */
  lemma CancelMacBindsFields(keys: Keys, built: Cancel, c: Cancel, now: i64)
    requires IsDigest(keys.mac(CancelBytes(built))) && IsDigest(keys.mac(CancelBytes(c)))
    requires keys.mac(CancelBytes(built)) == keys.mac(CancelBytes(c)) ==> CancelBytes(built) == CancelBytes(c)
    requires CancelFits(built) && Hex.SameCode(keys.mac(CancelBytes(built)), c.mac)
    requires CheckCancel(keys, c, now).None?
    ensures c.(mac := []) == built.(mac := [])
  {
    AcceptedCancelFits(keys, c, now);
    hide CheckCancel, Hex.SameCode, CancelBytes, CancelFits, DecodeCancel;
    Hex.SameCodeUnique(keys.mac(CancelBytes(built)), keys.mac(CancelBytes(c)), c.mac);
    CancelRoundTrip(built);
    CancelRoundTrip(c);
  }

  // ---------------------------------------------------------------- execution requests

  lemma AcceptedRequestFits(keys: Keys, r: Request, now: i64)
    requires CheckRequest(keys, r, now).None? && r.capability.None?
    ensures RequestFits(r) && Hex.SameCode(keys.mac(RequestBytes(r)), r.mac)
  {
    ValidShapeFits(r, now);
    hide FactsBytes, FactsFit, RequestBytes, BoundedFacts, BoundedCommand, Hex.SameCode;
  }

  /** One MAC text authenticates one wire request: every field and every fact is bound by it. */
  lemma RequestMacBindsFields(keys: Keys, sent: Request, r: Request, now: i64)
    requires IsDigest(keys.mac(RequestBytes(sent))) && IsDigest(keys.mac(RequestBytes(r)))
    requires keys.mac(RequestBytes(sent)) == keys.mac(RequestBytes(r)) ==> RequestBytes(sent) == RequestBytes(r)
    requires RequestFits(sent) && Hex.SameCode(keys.mac(RequestBytes(sent)), r.mac)
    requires CheckRequest(keys, r, now).None? && r.capability.None?
    ensures r.(mac := []) == sent.(mac := [])
  {
    AcceptedRequestFits(keys, r, now);
    hide CheckRequest, Hex.SameCode, RequestBytes, RequestFits, DecodeRequest;
    Hex.SameCodeUnique(keys.mac(RequestBytes(sent)), keys.mac(RequestBytes(r)), r.mac);
    RequestRoundTrip(sent);
    RequestRoundTrip(r);
  }
}
