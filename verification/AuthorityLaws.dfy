/**
  Exactly which requests, tokens and cancels are accepted, spelled out field by field and without the
  definitions of the checks.
*/
module AuthorityLaws {
  import opened Basics
  import opened Canonical
  import opened Authority
  import opened LedgerLaws
  import Hex

  // ---------------------------------------------------------------- white space

  /** The code points with the Unicode property White_Space. */
  predicate Space(c: nat) {
    || 9 <= c <= 13 || c == 32 || c == 0x85 || c == 0xA0 || c == 0x1680 || 0x2000 <= c <= 0x200A
    || c == 0x2028 || c == 0x2029 || c == 0x202F || c == 0x205F || c == 0x3000
  }

  /** A code point below 0x10000 in UTF-8. */
  function Utf8(c: nat): Str
    requires c < 0x10000
  {
    if c < 0x80 then [c]
    else if c < 0x800 then [0xC0 + c / 64, 0x80 + c % 64]
    else [0xE0 + c / 4096, 0x80 + c / 64 % 64, 0x80 + c % 64]
  }

  predicate AllSpace(codes: seq<nat>) {
    forall k :: 0 <= k < |codes| ==> Space(codes[k])
  }

  function Spelled(codes: seq<nat>): Str
    requires AllSpace(codes)
  {
    if codes == [] then [] else Utf8(codes[0]) + Spelled(codes[1..])
  }

  /** The text is a run of white-space characters. */
  ghost predicate White(s: Str) {
    exists codes :: AllSpace(codes) && Spelled(codes) == s
  }

  lemma SpaceIsRead(c: nat, rest: Str)
    requires Space(c)
    ensures WhiteSpace(Utf8(c) + rest) == |Utf8(c)|
  {
    var s := Utf8(c) + rest;
    assert s[0] == Utf8(c)[0];
    if c >= 0x80 {
      assert s[1] == Utf8(c)[1];
    }
    if c >= 0x800 {
      assert s[2] == Utf8(c)[2];
      assert s[..3] == Utf8(c);
    }
  }

  function CodeAt(s: Str): nat
    requires WhiteSpace(s) > 0
  {
    if WhiteSpace(s) == 1 then s[0]
    else if WhiteSpace(s) == 2 then s[1]
    else
      var a: int, b: int, c: int := s[0], s[1], s[2];
      a * 4096 + b * 64 + c - 0xE2080
  }

  lemma ReadIsSpace(s: Str)
    requires WhiteSpace(s) > 0
    ensures Space(CodeAt(s)) && s[..WhiteSpace(s)] == Utf8(CodeAt(s))
  {
  }

  lemma {:induction false} SpelledIsBlank(codes: seq<nat>)
    requires AllSpace(codes)
    ensures Blank(Spelled(codes))
  {
    if codes != [] {
      SpelledIsBlank(codes[1..]);
      SpaceIsRead(codes[0], Spelled(codes[1..]));
      var n := |Utf8(codes[0])|;
      assert Spelled(codes)[n..] == Spelled(codes[1..]);
    }
  }

  lemma OneMore(code: nat, rest: seq<nat>)
    requires Space(code) && AllSpace(rest)
    ensures White(Utf8(code) + Spelled(rest))
  {
    assert code < 0x10000;
    hide Space, Utf8;
    var codes := [code] + rest;
    assert codes[1..] == rest;
    assert AllSpace(codes) && Spelled(codes) == Utf8(code) + Spelled(rest);
  }

  lemma {:induction false} BlankIsSpelled(s: Str)
    requires Blank(s)
    ensures White(s)
    decreases |s|
  {
    hide WhiteSpace, CodeAt, Utf8, Space;
    if s == [] {
      assert AllSpace([]) && Spelled([]) == s;
    } else {
      var n := WhiteSpace(s);
      BlankIsSpelled(s[n..]);
      ReadIsSpace(s);
      var rest :| AllSpace(rest) && Spelled(rest) == s[n..];
      hide White, Spelled, AllSpace;
      OneMore(CodeAt(s), rest);
      assert s == s[..n] + s[n..];
    }
  }

  /** A text is blank exactly when it is a run of white-space characters. */
  lemma BlankLaw(s: Str)
    ensures Blank(s) <==> White(s)
  {
    if Blank(s) {
      BlankIsSpelled(s);
    }
    if White(s) {
      var codes :| AllSpace(codes) && Spelled(codes) == s;
      SpelledIsBlank(codes);
    }
  }

  ghost predicate Proper(s: Str) {
    !White(s) && |s| <= 4096 && forall i :: 0 <= i < |s| ==> s[i] != 0
  }

  lemma FieldLaw(s: Str)
    ensures Bounded(s) <==> Proper(s)
  {
    BlankLaw(s);
    hide Blank, White;
  }

  // ---------------------------------------------------------------- requests

  ghost predicate ProperNames(r: Request) {
    && Proper(r.requestId) && Proper(r.operation) && Proper(r.nonce)
    && Proper(r.facts.principal) && Proper(r.facts.tenant)
    && Proper(r.facts.device) && Proper(r.facts.workspace) && Proper(r.facts.executable.path)
  }

  /** The facts are about this operation, start the pinned image, and keep within the limits. */
  ghost predicate ProperFacts(operation: Str, f: Facts) {
    && f.operation == operation && f.env == map[]
    && 1 <= |f.argv| <= 128 && f.argv[0] == f.executable.path && (forall k :: 0 <= k < |f.argv| ==> Proper(f.argv[k]))
    && (f.cwd == None || (Proper(f.cwd.value) && [47] <= f.cwd.value))
    && Hexadecimal(f.payloadSha256) && Hexadecimal(f.executable.sha256)
    && 1 <= f.timeoutMs <= 300_000 && 1 <= f.maxOutput <= 1_000_000 && 1 <= f.executable.size <= 536_870_912
  }

  ghost predicate ProperPeer(p: Peer) {
    Proper(p.path) && Proper(p.image) && p.pid >= 1 && p.birth >= 1
  }

  ghost predicate ProperToken(c: Capability) {
    && Proper(c.tokenId) && Proper(c.instance) && Proper(c.keyId) && Proper(c.principal)
    && Hexadecimal(c.factsDigest) && ProperPeer(c.peer)
  }

  lemma NamesLaw(r: Request)
    ensures BoundedNames(r) <==> ProperNames(r) && Proper(r.facts.operation)
  {
    hide Bounded, Proper;
    FieldLaw(r.requestId);
    FieldLaw(r.operation);
    FieldLaw(r.nonce);
    FieldLaw(r.facts.operation);
    FieldLaw(r.facts.principal);
    FieldLaw(r.facts.tenant);
    FieldLaw(r.facts.device);
    FieldLaw(r.facts.workspace);
    FieldLaw(r.facts.executable.path);
  }

  lemma FactsLaw(operation: Str, f: Facts)
    ensures BoundedFacts(operation, f) && BoundedCommand(f) <==> ProperFacts(operation, f)
  {
    NotEmpty();
    hide Bounded, Proper, IsDigest, Hexadecimal;
    DigestMeans(f.payloadSha256);
    DigestMeans(f.executable.sha256);
    forall k | 0 <= k < |f.argv| ensures Bounded(f.argv[k]) <==> Proper(f.argv[k]) {
      FieldLaw(f.argv[k]);
    }
    if f.cwd.Some? {
      FieldLaw(f.cwd.value);
    }
  }

  lemma NotEmpty()
    ensures !Proper([])
  {
    assert AllSpace([]) && Spelled([]) == [];
  }

  lemma PeerLaw(p: Peer)
    ensures WellFormedPeer(p) <==> ProperPeer(p)
  {
    hide Bounded, Proper;
    FieldLaw(p.path);
    FieldLaw(p.image);
  }

  lemma TokenLaw(c: Capability)
    ensures BoundedToken(c) <==> ProperToken(c)
  {
    hide Bounded, Proper, IsDigest, Hexadecimal, WellFormedPeer, ProperPeer;
    FieldLaw(c.tokenId);
    FieldLaw(c.instance);
    FieldLaw(c.keyId);
    FieldLaw(c.principal);
    DigestMeans(c.factsDigest);
    PeerLaw(c.peer);
  }

  /** Issued by now, not expired, and alive for at most five minutes. */
  predicate Timely(issued: i64, expires: i64, now: i64) {
    issued <= now <= expires && expires - issued <= 300
  }

  /** The shape that is accepted, and the two grounds on which another is refused. */
  lemma ShapeLaw(r: Request, now: i64)
    ensures CheckShape(r, now).None? <==>
      && r.version == 2 && Timely(r.issued, r.expires, now)
      && ProperNames(r) && ProperFacts(r.operation, r.facts)
      && (r.capability == None || ProperToken(r.capability.value))
    ensures CheckShape(r, now) == Some(Expired) <==> r.version == 2 && !(r.issued <= now <= r.expires)
    ensures CheckShape(r, now).Some? ==> CheckShape(r, now).value.Expired? || CheckShape(r, now).value.Protocol?
  {
    NamesLaw(r);
    FactsLaw(r.operation, r.facts);
    if r.capability.Some? {
      TokenLaw(r.capability.value);
    }
    assert ProperFacts(r.operation, r.facts) ==> r.facts.operation == r.operation;
    hide BoundedNames, ProperFacts, BoundedFacts, BoundedCommand, BoundedToken, ProperToken, Proper;
  }

  /** Off the wire, a request is accepted exactly when its shape is and its MAC spells the computed code. */
  lemma RequestLaw(keys: Keys, r: Request, now: i64, code: Str)
    requires keys.mac(RequestBytes(r)) == Hex.Encode(code)
    ensures CheckRequest(keys, r, now).None? <==> CheckShape(r, now).None? && Hex.Decode(r.mac) == Some(code)
  {
    Hex.SameCodeExactly(code, r.mac);
    hide CheckShape, RequestBytes, Hex.SameCode, Hex.Decode;
  }

  // ---------------------------------------------------------------- tokens

  function ScopeText(): Str {
    [101, 108, 101, 118, 97, 116, 101, 100, 46, 101, 120, 101, 99]
  }

  lemma ScopeLaw()
    ensures ElevatedScope() == ScopeText()
  {
  }

  /** The token was made by this broker, for this request, from this peer, and holds now. */
  predicate Binds(keys: Keys, c: Capability, r: Request, instance: Str, keyId: Str, peer: Peer) {
    && c.scope == ScopeText() && c.operation == r.operation && c.nonce == r.nonce
    && c.instance == instance && c.keyId == keyId && c.peer == peer
    && c.factsDigest == keys.digest(FactsBytes(r.facts))
  }

  /** A token is accepted exactly when it is present, current, binding and signed, in that order. */
  lemma CapabilityLaw(keys: Keys, r: Request, instance: Str, keyId: Str, peer: Peer, now: i64)
    requires CheckShape(r, now).None?
    ensures
      var answer := CheckCapability(keys, r, instance, keyId, peer, now);
      && (answer == Some(InvalidToken) <==> r.capability == None)
      && (r.capability.Some? ==>
            var c := r.capability.value;
            var current := c.issued <= now <= c.expires;
            var binds := Binds(keys, c, r, instance, keyId, peer);
            var signature := Hex.Decode(c.signature);
            var signed :=
              signature.Some? && |signature.value| == 64 && keys.verify(CapabilityBytes(c), signature.value);
            && (answer == Some(Expired) <==> !current)
            && (answer == Some(Unauthorized) <==> current && !binds)
            && (answer == Some(BadSignature) <==> current && binds && !signed)
            && (answer.None? <==> current && binds && signed))
  {
    hide CheckShape, FactsBytes, CapabilityBytes, Hex.Decode, ElevatedScope, ScopeText;
    ScopeLaw();
  }

  // ---------------------------------------------------------------- cancels

  /** A cancel is accepted exactly when it is current, short-lived, well named and spells the computed code. */
  lemma CancelLaw(keys: Keys, c: Cancel, now: i64, code: Str)
    requires keys.mac(CancelBytes(c)) == Hex.Encode(code)
    ensures
      var proper :=
        && c.version == 2 && Timely(c.issued, c.expires, now) && Hexadecimal(c.targetDigest)
        && Proper(c.requestId) && Proper(c.operation) && Proper(c.nonce)
        && Proper(c.targetRequest) && Proper(c.targetOperation) && Proper(c.targetNonce);
      && (CheckCancel(keys, c, now).None? <==> proper && Hex.Decode(c.mac) == Some(code))
      && (CheckCancel(keys, c, now) == Some(BadSignature) <==> proper && Hex.Decode(c.mac) != Some(code))
  {
    hide Bounded, Proper, IsDigest, Hexadecimal, CancelBytes, Hex.SameCode, Hex.Decode;
    Hex.SameCodeExactly(code, c.mac);
    DigestMeans(c.targetDigest);
    FieldLaw(c.requestId);
    FieldLaw(c.operation);
    FieldLaw(c.nonce);
    FieldLaw(c.targetRequest);
    FieldLaw(c.targetOperation);
    FieldLaw(c.targetNonce);
  }

  /** What a built cancel says, field by field. */
  lemma BuiltCancelLaw(keys: Keys, execute: Request, now: i64, requestId: Str, nonce: Str)
    ensures
      var c := BuildCancel(keys, execute, now, requestId, nonce);
      && c.version == 2 && c.requestId == requestId && c.nonce == nonce && c.operation == execute.operation
      && c.issued == now && c.expires == Min(Min(now + 300, 0x7fff_ffff_ffff_ffff), execute.expires)
      && c.targetRequest == execute.requestId && c.targetOperation == execute.operation
      && c.targetNonce == execute.nonce && c.targetDigest == keys.digest(FactsBytes(execute.facts))
      && c.mac == keys.mac(CancelBytes(c))
  {
    hide FactsBytes;
    var c := BuildCancel(keys, execute, now, requestId, nonce);
    assert CancelBytes(c) == CancelBytes(c.(mac := []));
  }
}
