/**
  The canonical octets that are digested, signed or authenticated, and decoders for them.
*/
module Canonical {
  import opened Basics
  import opened Wire
  import opened SortedMap

  // ---------------------------------------------------------------- records

  datatype Executable = Executable(path: Str, sha256: Str, size: u64)

  datatype Facts = Facts(
    operation: Str, payloadSha256: Str, principal: Str, tenant: Str,
    generation: u64, timeoutMs: u64, maxOutput: u64,
    device: Str, workspace: Str,
    argv: seq<Str>, cwd: Option<Str>, env: map<Str, Str>,
    executable: Executable)

  datatype Peer = Peer(pid: i32, uid: u32, path: Str, birth: u64, image: Str)

  datatype Capability = Capability(
    tokenId: Str, instance: Str, keyId: Str, principal: Str, scope: Str, operation: Str,
    factsDigest: Str, nonce: Str, peer: Peer, issued: i64, expires: i64, signature: Str)

  datatype Request = Request(
    version: u32, requestId: Str, operation: Str, nonce: Str, issued: i64, expires: i64,
    facts: Facts, capability: Option<Capability>, mac: Str)

  datatype Cancel = Cancel(
    version: u32, requestId: Str, operation: Str, nonce: Str, issued: i64, expires: i64,
    targetRequest: Str, targetOperation: Str, targetNonce: Str, targetDigest: Str, mac: Str)

  function Ascii(s: string): (r: Str)
    ensures |r| == |s|
  {
    seq(|s|, i requires 0 <= i < |s| => if s[i] < 128 as char then s[i] as int else 63)
  }

  function FactsDomain(): Str { Ascii("ownmesh-broker-operation-facts-v2") }
  function CapabilityDomain(): Str { Ascii("ownmesh-broker-cap-ed25519-v2") }
  function RequestDomain(): Str { Ascii("ownmesh-broker-req-mac-v2") }
  function LegacyRequestDomain(): Str { Ascii("ownmesh-broker-req-mac-v1") }
  function CancelDomain(): Str { Ascii("ownmesh.broker.cancel-intent.v2") + [0] }

  /** Drop a fixed tag. */
  function Skip(tag: Str, s: Str): Option<Str> {
    if tag <= s then Some(s[|tag|..]) else None
  }

  lemma SkipBack(tag: Str, rest: Str)
    ensures Skip(tag, tag + rest) == Some(rest)
  {
  }

  // ---------------------------------------------------------------- operation facts

  function EnvBytes(env: map<Str, Str>, rest: Str): Str {
    U32(Saturated(|env|), Texts(Flat(env), rest))
  }

  function ExecutableBytes(e: Executable, rest: Str): Str {
    Text(e.path, Text(e.sha256, U64(e.size, rest)))
  }

  function CommandBytes(f: Facts, rest: Str): Str {
    List(f.argv, Maybe(f.cwd, EnvBytes(f.env, ExecutableBytes(f.executable, rest))))
  }

  function LimitBytes(f: Facts, rest: Str): Str {
    U64(f.generation, U64(f.timeoutMs, U32(Saturated(f.maxOutput), Text(f.device, Text(f.workspace, rest)))))
  }

  function FactsBytes(f: Facts): Str {
    FactsDomain()
    + Text(f.operation, Text(f.payloadSha256, Text(f.principal, Text(f.tenant, LimitBytes(f, CommandBytes(f, []))))))
  }

  function GetEnv(s: Str): Read<map<Str, Str>> {
    match GetU32(s)
    case NoRead => NoRead
    case Got(n, rest) =>
      (match GetTexts(2 * n, rest)
       case NoRead => NoRead
       case Got(items, left) => Got(Pairs(items), left))
  }

  function GetExecutable(s: Str): Read<Executable> {
    var path := GetText(s);
    if path.NoRead? then NoRead else
    var sha := GetText(path.rest);
    if sha.NoRead? then NoRead else
    var size := GetU64(sha.rest);
    if size.NoRead? then NoRead else Got(Executable(path.value, sha.value, size.value), size.rest)
  }

  datatype Command = Command(argv: seq<Str>, cwd: Option<Str>, env: map<Str, Str>, executable: Executable)

  function GetCommand(s: Str): Read<Command> {
    var argv := GetList(s);
    if argv.NoRead? then NoRead else
    var cwd := GetMaybe(argv.rest);
    if cwd.NoRead? then NoRead else
    var env := GetEnv(cwd.rest);
    if env.NoRead? then NoRead else
    var executable := GetExecutable(env.rest);
    if executable.NoRead? then NoRead
    else Got(Command(argv.value, cwd.value, env.value, executable.value), executable.rest)
  }

  datatype Limits = Limits(generation: u64, timeoutMs: u64, maxOutput: u64, device: Str, workspace: Str)

  function GetLimits(s: Str): Read<Limits> {
    var generation := GetU64(s);
    if generation.NoRead? then NoRead else
    var timeout := GetU64(generation.rest);
    if timeout.NoRead? then NoRead else
    var output := GetU32(timeout.rest);
    if output.NoRead? then NoRead else
    var device := GetText(output.rest);
    if device.NoRead? then NoRead else
    var workspace := GetText(device.rest);
    if workspace.NoRead? then NoRead
    else Got(Limits(generation.value, timeout.value, output.value, device.value, workspace.value), workspace.rest)
  }

  datatype Names = Names(first: Str, second: Str, third: Str, fourth: Str)

  function GetNames(s: Str): Read<Names> {
    var a := GetText(s);
    if a.NoRead? then NoRead else
    var b := GetText(a.rest);
    if b.NoRead? then NoRead else
    var c := GetText(b.rest);
    if c.NoRead? then NoRead else
    var d := GetText(c.rest);
    if d.NoRead? then NoRead else Got(Names(a.value, b.value, c.value, d.value), d.rest)
  }

  /** Reads a whole facts encoding; anything left over refuses it. */
  function DecodeFacts(s: Str): Option<Facts> {
    var body := Skip(FactsDomain(), s);
    if body.None? then None else
    var names := GetNames(body.value);
    if names.NoRead? then None else
    var limits := GetLimits(names.rest);
    if limits.NoRead? then None else
    var command := GetCommand(limits.rest);
    if command.NoRead? || command.rest != [] then None else
    var n, l, c := names.value, limits.value, command.value;
    Some(Facts(n.first, n.second, n.third, n.fourth, l.generation, l.timeoutMs, l.maxOutput, l.device, l.workspace,
               c.argv, c.cwd, c.env, c.executable))
  }

  predicate ShortEnv(env: map<Str, Str>) {
    |env| <= U32_MAX && (forall k :: k in env ==> Short(k) && Short(env[k]))
  }

  /** Lengths, counts and the output limit fit their 32-bit fields. */
  predicate FactsFit(f: Facts) {
    && Short(f.operation) && Short(f.payloadSha256) && Short(f.principal) && Short(f.tenant)
    && Short(f.device) && Short(f.workspace) && f.maxOutput <= U32_MAX
    && ShortList(f.argv) && (f.cwd.Some? ==> Short(f.cwd.value)) && ShortEnv(f.env)
    && Short(f.executable.path) && Short(f.executable.sha256)
  }

  lemma EnvBack(env: map<Str, Str>, rest: Str)
    requires ShortEnv(env)
    ensures GetEnv(EnvBytes(env, rest)) == Got(env, rest)
  {
    FlatBack(env);
    hide U32, GetU32, Texts, GetTexts, Flat, Pairs;
    U32Back(|env|, Texts(Flat(env), rest));
    forall i | 0 <= i < |Flat(env)| ensures Short(Flat(env)[i]) {
      assert Flat(env)[i] in env.Keys + env.Values;
    }
    TextsBack(Flat(env), rest);
  }

  lemma ExecutableBack(e: Executable, rest: Str)
    requires Short(e.path) && Short(e.sha256)
    ensures GetExecutable(ExecutableBytes(e, rest)) == Got(e, rest)
  {
    hide Text, GetText, U64, GetU64;
    U64Back(e.size, rest);
    TextBack(e.sha256, U64(e.size, rest));
    TextBack(e.path, Text(e.sha256, U64(e.size, rest)));
  }

  lemma CommandBack(f: Facts, rest: Str)
    requires FactsFit(f)
    ensures GetCommand(CommandBytes(f, rest)) == Got(Command(f.argv, f.cwd, f.env, f.executable), rest)
  {
    hide List, GetList, Maybe, GetMaybe, EnvBytes, GetEnv, ExecutableBytes, GetExecutable, ShortList, ShortEnv;
    var r2 := ExecutableBytes(f.executable, rest);
    var r1 := EnvBytes(f.env, r2);
    ExecutableBack(f.executable, rest);
    EnvBack(f.env, r2);
    MaybeBack(f.cwd, r1);
    ListBack(f.argv, Maybe(f.cwd, r1));
  }

  lemma LimitsBack(f: Facts, rest: Str)
    requires FactsFit(f)
    ensures GetLimits(LimitBytes(f, rest)) ==
        Got(Limits(f.generation, f.timeoutMs, f.maxOutput, f.device, f.workspace), rest)
  {
    hide U32, GetU32, U64, GetU64, Text, GetText, ShortList, ShortEnv;
    var r3 := Text(f.workspace, rest);
    var r2 := Text(f.device, r3);
    var r1 := U32(f.maxOutput, r2);
    TextBack(f.workspace, rest);
    TextBack(f.device, r3);
    U32Back(f.maxOutput, r2);
    U64Back(f.timeoutMs, r1);
    U64Back(f.generation, U64(f.timeoutMs, r1));
  }

  lemma NamesBack(n: Names, rest: Str)
    requires Short(n.first) && Short(n.second) && Short(n.third) && Short(n.fourth)
    ensures GetNames(Text(n.first, Text(n.second, Text(n.third, Text(n.fourth, rest))))) == Got(n, rest)
  {
    hide Text, GetText;
    var r3 := Text(n.fourth, rest);
    var r2 := Text(n.third, r3);
    var r1 := Text(n.second, r2);
    TextBack(n.fourth, rest);
    TextBack(n.third, r3);
    TextBack(n.second, r2);
    TextBack(n.first, r1);
  }

  /** Facts are uniquely decodable. */
  lemma FactsRoundTrip(f: Facts)
    requires FactsFit(f)
    ensures DecodeFacts(FactsBytes(f)) == Some(f)
  {
    hide Text, GetNames, GetLimits, LimitBytes, GetCommand, CommandBytes, Skip, FactsDomain;
    var r2 := CommandBytes(f, []);
    var r1 := LimitBytes(f, r2);
    var names := Names(f.operation, f.payloadSha256, f.principal, f.tenant);
    SkipBack(FactsDomain(), Text(names.first, Text(names.second, Text(names.third, Text(names.fourth, r1)))));
    NamesBack(names, r1);
    LimitsBack(f, r2);
    CommandBack(f, []);
  }

  lemma FactsInjective(f: Facts, g: Facts)
    requires FactsFit(f) && FactsFit(g) && FactsBytes(f) == FactsBytes(g)
    ensures f == g
  {
    FactsRoundTrip(f);
    FactsRoundTrip(g);
  }

  /** The bound on the output limit is needed: larger limits share one encoding. */
  lemma OutputLimitSaturates(f: Facts, limit: u64)
    ensures f.maxOutput >= U32_MAX && limit >= U32_MAX ==> FactsBytes(f.(maxOutput := limit)) == FactsBytes(f)
    ensures FactsFit(f) && limit < U32_MAX && limit != f.maxOutput ==>
        FactsBytes(f.(maxOutput := limit)) != FactsBytes(f)
  {
    if FactsFit(f) && limit < U32_MAX && limit != f.maxOutput && FactsBytes(f.(maxOutput := limit)) == FactsBytes(f) {
      FactsInjective(f, f.(maxOutput := limit));
    }
  }

  // ---------------------------------------------------------------- capability tokens

  function PeerBytes(p: Peer, rest: Str): Str {
    I32(p.pid, U32(p.uid, Text(p.path, U64(p.birth, Text(p.image, rest)))))
  }

  /** What a token's signature covers: everything but the signature. */
  function CapabilityBytes(c: Capability): Str {
    CapabilityDomain()
    + Text(c.tokenId, Text(c.instance, Text(c.keyId, Text(c.principal,
        Text(c.scope, Text(c.operation, Text(c.factsDigest, Text(c.nonce,
          PeerBytes(c.peer, I64(c.issued, I64(c.expires, [])))))))))))
  }

  function GetPeer(s: Str): Read<Peer> {
    var pid := GetI32(s);
    if pid.NoRead? then NoRead else
    var uid := GetU32(pid.rest);
    if uid.NoRead? then NoRead else
    var path := GetText(uid.rest);
    if path.NoRead? then NoRead else
    var birth := GetU64(path.rest);
    if birth.NoRead? then NoRead else
    var image := GetText(birth.rest);
    if image.NoRead? then NoRead
    else Got(Peer(pid.value, uid.value, path.value, birth.value, image.value), image.rest)
  }

  datatype Times = Times(issued: i64, expires: i64)

  function GetTimes(s: Str): Read<Times> {
    var issued := GetI64(s);
    if issued.NoRead? then NoRead else
    var expires := GetI64(issued.rest);
    if expires.NoRead? then NoRead else Got(Times(issued.value, expires.value), expires.rest)
  }

  /** Reads a token without its signature. */
  function DecodeCapability(s: Str): Option<Capability> {
    var body := Skip(CapabilityDomain(), s);
    if body.None? then None else
    var a := GetNames(body.value);
    if a.NoRead? then None else
    var b := GetNames(a.rest);
    if b.NoRead? then None else
    var peer := GetPeer(b.rest);
    if peer.NoRead? then None else
    var times := GetTimes(peer.rest);
    if times.NoRead? || times.rest != [] then None else
    Some(Capability(a.value.first, a.value.second, a.value.third, a.value.fourth,
                    b.value.first, b.value.second, b.value.third, b.value.fourth,
                    peer.value, times.value.issued, times.value.expires, []))
  }

  predicate CapabilityFits(c: Capability) {
    && Short(c.tokenId) && Short(c.instance) && Short(c.keyId) && Short(c.principal)
    && Short(c.scope) && Short(c.operation) && Short(c.factsDigest) && Short(c.nonce)
    && Short(c.peer.path) && Short(c.peer.image)
  }

  lemma PeerBack(p: Peer, rest: Str)
    requires Short(p.path) && Short(p.image)
    ensures GetPeer(PeerBytes(p, rest)) == Got(p, rest)
  {
    hide I32, GetI32, U32, GetU32, U64, GetU64, Text, GetText;
    var r3 := Text(p.image, rest);
    var r2 := U64(p.birth, r3);
    var r1 := Text(p.path, r2);
    TextBack(p.image, rest);
    U64Back(p.birth, r3);
    TextBack(p.path, r2);
    U32Back(p.uid, r1);
    I32Back(p.pid, U32(p.uid, r1));
  }

  lemma TimesBack(t: Times, rest: Str)
    ensures GetTimes(I64(t.issued, I64(t.expires, rest))) == Got(t, rest)
  {
    hide I64, GetI64;
    I64Back(t.expires, rest);
    I64Back(t.issued, I64(t.expires, rest));
  }

  /** Tokens are uniquely decodable, signature aside. */
  lemma CapabilityRoundTrip(c: Capability)
    requires CapabilityFits(c)
    ensures DecodeCapability(CapabilityBytes(c)) == Some(c.(signature := []))
  {
    hide Text, GetNames, PeerBytes, GetPeer, I64, GetTimes, Skip, CapabilityDomain;
    var r3 := I64(c.issued, I64(c.expires, []));
    var r2 := PeerBytes(c.peer, r3);
    var b := Names(c.scope, c.operation, c.factsDigest, c.nonce);
    var r1 := Text(b.first, Text(b.second, Text(b.third, Text(b.fourth, r2))));
    var a := Names(c.tokenId, c.instance, c.keyId, c.principal);
    TimesBack(Times(c.issued, c.expires), []);
    PeerBack(c.peer, r3);
    NamesBack(b, r2);
    NamesBack(a, r1);
    SkipBack(CapabilityDomain(), Text(a.first, Text(a.second, Text(a.third, Text(a.fourth, r1)))));
  }

  // ---------------------------------------------------------------- requests

  datatype Header = Header(version: u32, requestId: Str, operation: Str, nonce: Str, issued: i64, expires: i64)

  function HeaderBytes(h: Header, rest: Str): Str {
    U32(h.version, Text(h.requestId, Text(h.operation, Text(h.nonce, I64(h.issued, I64(h.expires, rest))))))
  }

  function TokenBytes(c: Option<Capability>): Str {
    match c
    case None => [0]
    case Some(token) => [1] + Text(CapabilityBytes(token), Text(token.signature, []))
  }

  /** What a request's MAC covers: everything but the MAC. */
  function RequestBytes(r: Request): Str {
    var header := Header(r.version, r.requestId, r.operation, r.nonce, r.issued, r.expires);
    RequestDomain() + HeaderBytes(header, Text(FactsBytes(r.facts), TokenBytes(r.capability)))
  }

  function GetHeader(s: Str): Read<Header> {
    var version := GetU32(s);
    if version.NoRead? then NoRead else
    var request := GetText(version.rest);
    if request.NoRead? then NoRead else
    var operation := GetText(request.rest);
    if operation.NoRead? then NoRead else
    var nonce := GetText(operation.rest);
    if nonce.NoRead? then NoRead else
    var times := GetTimes(nonce.rest);
    if times.NoRead? then NoRead
    else Got(Header(version.value, request.value, operation.value, nonce.value, times.value.issued,
        times.value.expires), times.rest)
  }

  function DecodeToken(s: Str): Option<Option<Capability>> {
    if s == [0] then Some(None)
    else if s == [] || s[0] != 1 then None
    else
      var body := GetText(s[1..]);
      if body.NoRead? then None else
      var token := DecodeCapability(body.value);
      var signature := GetText(body.rest);
      if token.None? || signature.NoRead? || signature.rest != [] then None
      else Some(Some(token.value.(signature := signature.value)))
  }

  /** Reads a request without its MAC. */
  function DecodeRequest(s: Str): Option<Request> {
    var body := Skip(RequestDomain(), s);
    if body.None? then None else
    var header := GetHeader(body.value);
    if header.NoRead? then None else
    var bytes := GetText(header.rest);
    if bytes.NoRead? then None else
    var facts := DecodeFacts(bytes.value);
    var token := DecodeToken(bytes.rest);
    if facts.None? || token.None? then None else
    var h := header.value;
    Some(Request(h.version, h.requestId, h.operation, h.nonce, h.issued, h.expires, facts.value, token.value, []))
  }

  predicate RequestFits(r: Request) {
    && Short(r.requestId) && Short(r.operation) && Short(r.nonce)
    && FactsFit(r.facts) && Short(FactsBytes(r.facts))
    && (r.capability.Some? ==>
          CapabilityFits(r.capability.value) && Short(CapabilityBytes(r.capability.value)) &&
              Short(r.capability.value.signature))
  }

  lemma HeaderBack(h: Header, rest: Str)
    requires Short(h.requestId) && Short(h.operation) && Short(h.nonce)
    ensures GetHeader(HeaderBytes(h, rest)) == Got(h, rest)
  {
    hide U32, GetU32, Text, GetText, I64, GetTimes;
    var r3 := I64(h.issued, I64(h.expires, rest));
    var r2 := Text(h.nonce, r3);
    var r1 := Text(h.operation, r2);
    TimesBack(Times(h.issued, h.expires), rest);
    TextBack(h.nonce, r3);
    TextBack(h.operation, r2);
    TextBack(h.requestId, r1);
    U32Back(h.version, Text(h.requestId, r1));
  }

  lemma TokenBack(c: Option<Capability>)
    requires c.Some? ==> CapabilityFits(c.value) && Short(CapabilityBytes(c.value)) && Short(c.value.signature)
    ensures DecodeToken(TokenBytes(c)) == Some(c)
  {
    if c.Some? {
      var token := c.value;
      CapabilityRoundTrip(token);
      hide Text, GetText, DecodeCapability, CapabilityBytes, CapabilityFits;
      TextBack(token.signature, []);
      TextBack(CapabilityBytes(token), Text(token.signature, []));
      assert TokenBytes(c)[1..] == Text(CapabilityBytes(token), Text(token.signature, []));
    }
  }

  /** Requests are uniquely decodable, MAC aside. */
  lemma RequestRoundTrip(r: Request)
    requires RequestFits(r)
    ensures DecodeRequest(RequestBytes(r)) == Some(r.(mac := []))
  {
    var h := Header(r.version, r.requestId, r.operation, r.nonce, r.issued, r.expires);
    hide Text, GetText, FactsBytes, TokenBytes, DecodeFacts, DecodeToken, HeaderBytes, GetHeader, Skip,
        RequestDomain, FactsFit, CapabilityFits, CapabilityBytes;
    var r1 := Text(FactsBytes(r.facts), TokenBytes(r.capability));
    FactsRoundTrip(r.facts);
    TokenBack(r.capability);
    SkipBack(RequestDomain(), HeaderBytes(h, r1));
    HeaderBack(h, r1);
    TextBack(FactsBytes(r.facts), TokenBytes(r.capability));
  }

  // ---------------------------------------------------------------- cancel intents

  function CancelBytes(c: Cancel): Str {
    var header := Header(c.version, c.requestId, c.operation, c.nonce, c.issued, c.expires);
    CancelDomain()
    + HeaderBytes(header, Text(c.targetRequest, Text(c.targetOperation, Text(c.targetNonce, Text(c.targetDigest, [])))))
  }

  function DecodeCancel(s: Str): Option<Cancel> {
    var body := Skip(CancelDomain(), s);
    if body.None? then None else
    var header := GetHeader(body.value);
    if header.NoRead? then None else
    var target := GetNames(header.rest);
    if target.NoRead? || target.rest != [] then None else
    var h, t := header.value, target.value;
    Some(Cancel(h.version, h.requestId, h.operation, h.nonce, h.issued, h.expires, t.first, t.second, t.third,
        t.fourth, []))
  }

  predicate CancelFits(c: Cancel) {
    && Short(c.requestId) && Short(c.operation) && Short(c.nonce)
    && Short(c.targetRequest) && Short(c.targetOperation) && Short(c.targetNonce) && Short(c.targetDigest)
  }

  /** Cancel intents are uniquely decodable, MAC aside. */
  lemma CancelRoundTrip(c: Cancel)
    requires CancelFits(c)
    ensures DecodeCancel(CancelBytes(c)) == Some(c.(mac := []))
  {
    var h := Header(c.version, c.requestId, c.operation, c.nonce, c.issued, c.expires);
    var t := Names(c.targetRequest, c.targetOperation, c.targetNonce, c.targetDigest);
    var r1 := Text(t.first, Text(t.second, Text(t.third, Text(t.fourth, []))));
    hide Text, GetNames, HeaderBytes, GetHeader, Skip, CancelDomain;
    SkipBack(CancelDomain(), HeaderBytes(h, r1));
    HeaderBack(h, r1);
    NamesBack(t, []);
  }

  // ---------------------------------------------------------------- domain separation

  /**
    Under one MAC secret no first-version request (its tag, whatever follows), second-version request
    or cancel intent can be taken for another kind.
  */
  lemma KindsNeverCollide(legacy: Str, r: Request, c: Cancel)
    ensures LegacyRequestDomain() + legacy != RequestBytes(r)
    ensures LegacyRequestDomain() + legacy != CancelBytes(c)
    ensures RequestBytes(r) != CancelBytes(c)
  {
    hide Text, HeaderBytes, FactsBytes, TokenBytes;
    assert (LegacyRequestDomain() + legacy)[24] == '1' as int && (LegacyRequestDomain() + legacy)[7] == '-' as int;
    assert RequestBytes(r)[24] == '2' as int && RequestBytes(r)[7] == '-' as int;
    assert CancelBytes(c)[7] == '.' as int;
  }

  /** What is signed, what is digested and what is authenticated never begin alike, whatever follows. */
  lemma TagsNeverCollide(a: Str, b: Str, c: Str)
    ensures FactsDomain() + a != CapabilityDomain() + b
    ensures FactsDomain() + a != RequestDomain() + c && FactsDomain() + a != CancelDomain() + c
    ensures CapabilityDomain() + b != RequestDomain() + c && CapabilityDomain() + b != CancelDomain() + c
  {
    assert (FactsDomain() + a)[15] == 'o' as int && (FactsDomain() + a)[7] == '-' as int;
    assert (CapabilityDomain() + b)[15] == 'c' as int && (CapabilityDomain() + b)[7] == '-' as int;
    assert (RequestDomain() + c)[15] == 'r' as int && (CancelDomain() + c)[7] == '.' as int;
  }

  // ---------------------------------------------------------------- the encoder as the code runs it

  /** Append one length-prefixed string. */
  method PutText(buf: Str, s: Str, ghost rest: Str) returns (out: Str)
    ensures out + rest == buf + Text(s, rest)
  {
    out := buf + Little(4, |s|) + s;
    assert out + rest == buf + (Little(4, |s|) + (s + rest));
  }

  /** Append one unsigned integer of `k` octets. */
  method PutLittle(buf: Str, k: nat, n: nat, ghost rest: Str) returns (out: Str)
    ensures out + rest == buf + (Little(k, n) + rest)
  {
    out := buf + Little(k, n);
  }

  /** Append the argument count and the arguments. */
  method PutList(buf: Str, items: seq<Str>, ghost rest: Str) returns (out: Str)
    ensures out + rest == buf + List(items, rest)
  {
    out := PutLittle(buf, 4, Saturated(|items|), Texts(items, rest));
    var i := 0;
    while i < |items|
      invariant 0 <= i <= |items|
      invariant out + Texts(items[i..], rest) == buf + List(items, rest)
    {
      assert items[i..][1..] == items[i + 1..];
      out := PutText(out, items[i], Texts(items[i + 1..], rest));
      i := i + 1;
    }
    assert items[i..] == [];
  }

  /** Append the environment in ascending order of its names. */
  method PutMap(buf: Str, env: map<Str, Str>, ghost rest: Str) returns (out: Str)
    ensures out + rest == buf + EnvBytes(env, rest)
  {
    out := PutLittle(buf, 4, Saturated(|env|), Texts(Flat(env), rest));
    var left := env;
    while left != map[]
      invariant out + Texts(Flat(left), rest) == buf + EnvBytes(env, rest)
      decreases |left|
    {
      var k := First(left);
      assert (left - {k}).Keys == left.Keys - {k};
      ghost var tail := Texts(Flat(left - {k}), rest);
      assert Texts(Flat(left), rest) == Text(k, Text(left[k], tail)) by {
        assert Flat(left)[1..][1..] == Flat(left - {k});
      }
      out := PutText(out, k, Text(left[k], tail));
      out := PutText(out, left[k], tail);
      left := left - {k};
    }
  }

  /** The facts encoder, field by field into one buffer. */
  method EncodeFacts(f: Facts) returns (out: Str)
    ensures out == FactsBytes(f)
  {
    hide Text, List, Maybe, EnvBytes, ExecutableBytes, Little;
    ghost var r10 := ExecutableBytes(f.executable, []);
    ghost var r9 := EnvBytes(f.env, r10);
    ghost var r8 := Maybe(f.cwd, r9);
    ghost var r7 := List(f.argv, r8);
    ghost var r5 := Text(f.device, Text(f.workspace, r7));
    ghost var r4 := U32(Saturated(f.maxOutput), r5);
    ghost var r3 := U64(f.generation, U64(f.timeoutMs, r4));
    out := FactsDomain();
    out := PutText(out, f.operation, Text(f.payloadSha256, Text(f.principal, Text(f.tenant, r3))));
    out := PutText(out, f.payloadSha256, Text(f.principal, Text(f.tenant, r3)));
    out := PutText(out, f.principal, Text(f.tenant, r3));
    out := PutText(out, f.tenant, r3);
    out := PutLittle(out, 8, f.generation, U64(f.timeoutMs, r4));
    out := PutLittle(out, 8, f.timeoutMs, r4);
    out := PutLittle(out, 4, Saturated(f.maxOutput), r5);
    out := PutText(out, f.device, Text(f.workspace, r7));
    out := PutText(out, f.workspace, r7);
    out := PutList(out, f.argv, r8);
    out := PutMaybe(out, f.cwd, r9);
    out := PutMap(out, f.env, r10);
    out := PutExecutable(out, f.executable);
  }

  method PutMaybe(buf: Str, s: Option<Str>, ghost rest: Str) returns (out: Str)
    ensures out + rest == buf + Maybe(s, rest)
  {
    if s.Some? {
      out := PutText(buf + [1], s.value, rest);
      assert out + rest == buf + ([1] + Text(s.value, rest));
    } else {
      out := buf + [0];
      assert out + rest == buf + ([0] + rest);
    }
  }

  method PutExecutable(buf: Str, e: Executable) returns (out: Str)
    ensures out == buf + ExecutableBytes(e, [])
  {
    out := PutText(buf, e.path, Text(e.sha256, U64(e.size, [])));
    out := PutText(out, e.sha256, U64(e.size, []));
    out := PutLittle(out, 8, e.size, []);
    assert out == out + [];
  }
}
