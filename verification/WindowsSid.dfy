/**
  The two spellings of a Windows security identifier in a trust record: `S-1-…` text for the pipe and
  `sid:` plus hexadecimal for the token.
*/
module WindowsSid {
  import opened Basics
  import opened Wire
  import Hex

  const MAX_AUTHORITY := 0xffff_ffff_ffff
  const MAX_COUNT := 15
  const DASH: byte := 45

  // ---------------------------------------------------------------- decimal numbers

  function Decimal(n: nat): (s: Str)
    ensures |s| > 0
    ensures forall i :: 0 <= i < |s| ==> IsDigit(s[i])
  {
    if n < 10 then [48 + n] else Decimal(n / 10) + [48 + n % 10]
  }

  predicate AllDigits(s: Str) {
    forall i :: 0 <= i < |s| ==> IsDigit(s[i])
  }

  function Value(s: Str): nat
    requires AllDigits(s)
  {
    if s == [] then 0 else 10 * Value(s[..|s| - 1]) + (s[|s| - 1] - 48)
  }

  /** No empty text, no leading zero, digits only, 64 bits. */
  function ParseDecimal(s: Str): (r: Option<nat>)
    ensures r.Some? ==> r.value <= U64_MAX
  {
    if s == [] || (|s| > 1 && s[0] == 48) || !AllDigits(s) then None
    else if Value(s) > U64_MAX then None
    else Some(Value(s))
  }

  lemma {:induction false} ValueOfDecimal(n: nat)
    ensures Value(Decimal(n)) == n
    ensures |Decimal(n)| > 1 ==> Decimal(n)[0] != 48
    ensures n > 0 ==> Decimal(n)[0] != 48
  {
    if n >= 10 {
      ValueOfDecimal(n / 10);
      assert Decimal(n)[..|Decimal(n)| - 1] == Decimal(n / 10);
    }
  }

  lemma {:induction false} DecimalOfValue(s: Str)
    requires s != [] && AllDigits(s) && (|s| > 1 ==> s[0] != 48)
    ensures Decimal(Value(s)) == s
    ensures s[0] != 48 ==> Value(s) > 0
  {
    var head, last := s[..|s| - 1], s[|s| - 1];
    if head == [] {
      assert Value(s) == 10 * Value([]) + (last - 48);
      assert s == [last];
    } else {
      DecimalOfValue(head);
      assert s == head + [last];
      assert Value(s) / 10 == Value(head) && Value(s) % 10 == last - 48;
    }
  }

  lemma DecimalExactly(s: Str, n: nat)
    requires n <= U64_MAX
    ensures ParseDecimal(s) == Some(n) <==> s == Decimal(n)
  {
    ValueOfDecimal(n);
    if ParseDecimal(s) == Some(n) {
      DecimalOfValue(s);
    }
  }

  function Pow10(k: nat): nat {
    if k == 0 then 1 else 10 * Pow10(k - 1)
  }

  lemma {:induction false} DecimalLength(n: nat, k: nat)
    requires k > 0 && n < Pow10(k)
    ensures |Decimal(n)| <= k
    ensures n >= Pow10(k - 1) ==> |Decimal(n)| == k
  {
    if k == 1 {
      assert Pow10(1) == 10;
    } else if n >= 10 {
      assert Pow10(k) == 10 * Pow10(k - 1) && Pow10(k - 1) == 10 * Pow10(k - 2);
      DecimalLength(n / 10, k - 1);
    } else {
      assert Pow10(k - 1) == 10 * Pow10(k - 2) && Pow10(k - 2) > 0;
    }
  }

  // ---------------------------------------------------------------- splitting at dashes

  predicate NoDash(s: Str) {
    DASH !in s
  }

  function Split(s: Str): (parts: seq<Str>)
    ensures |parts| > 0
  {
    if s == [] then [[]]
    else
      var rest := Split(s[1..]);
      if s[0] == DASH then [[]] + rest else [[s[0]] + rest[0]] + rest[1..]
  }

  function Join(parts: seq<Str>): Str
    requires |parts| > 0
  {
    if |parts| == 1 then parts[0] else parts[0] + [DASH] + Join(parts[1..])
  }

  lemma {:induction false} JoinSplit(s: Str)
    ensures Join(Split(s)) == s
    ensures forall k :: 0 <= k < |Split(s)| ==> NoDash(Split(s)[k])
  {
    if s != [] {
      JoinSplit(s[1..]);
      var rest := Split(s[1..]);
      assert s == [s[0]] + s[1..];
      if s[0] == DASH {
        assert Split(s)[1..] == rest;
      } else {
        assert Split(s)[1..] == rest[1..];
      }
    }
  }

  lemma {:induction false} SplitJoin(parts: seq<Str>)
    requires |parts| > 0 && forall k :: 0 <= k < |parts| ==> NoDash(parts[k])
    ensures Split(Join(parts)) == parts
    decreases |parts|, |parts[0]|
  {
    var text := Join(parts);
    if parts[0] != [] {
      var shorter := [parts[0][1..]] + parts[1..];
      SplitJoin(shorter);
      assert shorter[1..] == parts[1..];
      assert text[1..] == Join(shorter);
      assert parts[0] == [parts[0][0]] + parts[0][1..];
    } else if |parts| > 1 {
      SplitJoin(parts[1..]);
      assert text[1..] == Join(parts[1..]);
    }
  }

  // ---------------------------------------------------------------- octets

  /** Most significant octet first. */
  function Big(k: nat, n: nat): (r: Str)
    ensures |r| == k
  {
    if k == 0 then [] else Big(k - 1, n / 256) + [n % 256]
  }

  function FromBig(s: Str): nat {
    if s == [] then 0 else 256 * FromBig(s[..|s| - 1]) + s[|s| - 1]
  }

  lemma {:induction false} BigBack(k: nat, n: nat)
    requires n < Pow256(k)
    ensures FromBig(Big(k, n)) == n
  {
    if k > 0 {
      BigBack(k - 1, n / 256);
      assert Big(k, n)[..k - 1] == Big(k - 1, n / 256);
    }
  }

  lemma {:induction false} FromBigBack(s: Str)
    ensures FromBig(s) < Pow256(|s|) && Big(|s|, FromBig(s)) == s
  {
    if s != [] {
      FromBigBack(s[..|s| - 1]);
      assert s == s[..|s| - 1] + [s[|s| - 1]];
    }
  }

  lemma {:induction false} FromLittleBack(s: Str)
    ensures FromLittle(s) < Pow256(|s|) && Little(|s|, FromLittle(s)) == s
  {
    if s != [] {
      FromLittleBack(s[1..]);
      assert s == [s[0]] + s[1..];
    }
  }

  lemma Widths48()
    ensures Pow256(6) == MAX_AUTHORITY + 1 && Pow256(4) == U32_MAX + 1
  {
    Widths();
    assert Pow256(5) == 256 * Pow256(4);
    assert Pow256(6) == 256 * Pow256(5);
  }

  // ---------------------------------------------------------------- identifiers

  datatype Sid = Sid(authority: nat, subs: seq<nat>)

  predicate WellFormed(sid: Sid) {
    && sid.authority <= MAX_AUTHORITY && |sid.subs| <= MAX_COUNT
    && forall k :: 0 <= k < |sid.subs| ==> sid.subs[k] <= U32_MAX
  }

  function SubBytes(subs: seq<nat>): (r: Str)
    ensures |r| == 4 * |subs|
  {
    if subs == [] then [] else Little(4, subs[0]) + SubBytes(subs[1..])
  }

  function SubsOf(s: Str): (r: seq<nat>)
    requires |s| % 4 == 0
    ensures |r| == |s| / 4
  {
    if s == [] then [] else [FromLittle(s[..4])] + SubsOf(s[4..])
  }

  /** Revision, count, six authority octets, four octets a subauthority. */
  function Binary(sid: Sid): Str
    requires WellFormed(sid)
  {
    [1, |sid.subs|] + Big(6, sid.authority) + SubBytes(sid.subs)
  }

  predicate IsBinary(b: Str) {
    |b| >= 8 && b[0] == 1 && b[1] <= MAX_COUNT && |b| == 8 + 4 * b[1]
  }

  function SidOf(b: Str): Sid
    requires IsBinary(b)
  {
    Sid(FromBig(b[2..8]), SubsOf(b[8..]))
  }

  function Decimals(ns: seq<nat>): (r: seq<Str>)
    ensures |r| == |ns|
    ensures forall k :: 0 <= k < |ns| ==> r[k] == Decimal(ns[k])
  {
    seq(|ns|, k requires 0 <= k < |ns| => Decimal(ns[k]))
  }

  function Parts(sid: Sid): seq<Str> {
    [[83], [49], Decimal(sid.authority)] + Decimals(sid.subs)
  }

  function Tail(subs: seq<nat>): Str {
    if subs == [] then [] else [DASH] + Decimal(subs[0]) + Tail(subs[1..])
  }

  /** The `S-1-` text, as it is built up. */
  function SidText(sid: Sid): Str {
    [83, DASH, 49, DASH] + Decimal(sid.authority) + Tail(sid.subs)
  }

  function Render(b: Str): Option<Str> {
    if IsBinary(b) then Some(SidText(SidOf(b))) else None
  }

  /** Parse each part, or fail. */
  function ParseAll(parts: seq<Str>): Option<seq<nat>> {
    if parts == [] then Some([])
    else
      var head, tail := ParseDecimal(parts[0]), ParseAll(parts[1..]);
      if head.None? || tail.None? then None else Some([head.value] + tail.value)
  }

  predicate AllShort(ns: seq<nat>) {
    forall k :: 0 <= k < |ns| ==> ns[k] <= U32_MAX
  }

  /** Parsing up to the point where the code renders its result again and compares. */
  function ReadText(v: Str): (r: Option<Str>) {
    if |v| < 7 || |v| > 184 || !([83, DASH, 49, DASH] <= v) then None else
    var parts := Split(v);
    if |parts| < 3 || parts[0] != [83] || parts[1] != [49] then None else
    var authority, subs := ParseDecimal(parts[2]), ParseAll(parts[3..]);
    if authority.None? || authority.value > MAX_AUTHORITY || subs.None? || |subs.value| > MAX_COUNT ||
        !AllShort(subs.value) then None
    else Some(Binary(Sid(authority.value, subs.value)))
  }

  function Parse(v: Str): Option<Str> {
    var b := ReadText(v);
    if b.Some? && Render(b.value) == Some(v) then b else None
  }

  // ---------------------------------------------------------------- token form and records

  function TokenPrefix(): Str {
    [115, 105, 100, 58]
  }

  function TokenText(b: Str): Str {
    TokenPrefix() + Hex.Encode(b)
  }

  function ParseToken(v: Str): Option<Str> {
    if !(TokenPrefix() <= v) then None else
    var hex := v[4..];
    if |hex| < 16 || |hex| > 136 || |hex| % 2 != 0 ||
        !(forall i :: 0 <= i < |hex| ==> IsLowerHex(hex[i])) then None else
    var bytes := Hex.Decode(hex);
    if bytes.None? then None else
    var canonical := Render(bytes.value);
    if canonical.None? || TokenText(bytes.value) != v || Parse(canonical.value) != bytes then None else bytes
  }

  /** The identifier part of a trust record's check. */
  predicate SameIdentity(pipe: Str, token: Str) {
    Parse(pipe).Some? && ParseToken(token).Some? && Parse(pipe) == ParseToken(token)
  }
}

/** The two spellings determine each other. */
module WindowsSidTheorems {
  import opened Basics
  import opened Wire
  import opened WindowsSid
  import Hex

  // ---------------------------------------------------------------- binary form

  lemma {:induction false} SubsBack(subs: seq<nat>)
    requires AllShort(subs)
    ensures SubsOf(SubBytes(subs)) == subs
  {
    if subs != [] {
      SubsBack(subs[1..]);
      Widths48();
      LittleBack(4, subs[0]);
      assert SubBytes(subs)[..4] == Little(4, subs[0]);
      assert SubBytes(subs)[4..] == SubBytes(subs[1..]);
    }
  }

  lemma {:induction false} SubBytesBack(s: Str)
    requires |s| % 4 == 0
    ensures AllShort(SubsOf(s)) && SubBytes(SubsOf(s)) == s
  {
    if s != [] {
      SubBytesBack(s[4..]);
      Widths48();
      FromLittleBack(s[..4]);
      assert s == s[..4] + s[4..];
    }
  }

  lemma BinaryBack(sid: Sid)
    requires WellFormed(sid)
    ensures IsBinary(Binary(sid)) && SidOf(Binary(sid)) == sid
  {
    Widths48();
    BigBack(6, sid.authority);
    SubsBack(sid.subs);
    assert Binary(sid)[2..8] == Big(6, sid.authority);
    assert Binary(sid)[8..] == SubBytes(sid.subs);
  }

  lemma SidBack(b: Str)
    requires IsBinary(b)
    ensures WellFormed(SidOf(b)) && Binary(SidOf(b)) == b
  {
    Widths48();
    FromBigBack(b[2..8]);
    SubBytesBack(b[8..]);
    assert b == [1, b[1]] + b[2..8] + b[8..];
  }

  // ---------------------------------------------------------------- text form

  lemma {:induction false} TailIsJoined(head: Str, subs: seq<nat>)
    ensures Join([head] + Decimals(subs)) == head + Tail(subs)
    decreases |subs|
  {
    if subs != [] {
      TailIsJoined(Decimal(subs[0]), subs[1..]);
      assert ([head] + Decimals(subs))[1..] == [Decimal(subs[0])] + Decimals(subs[1..]);
      assert head + [DASH] + (Decimal(subs[0]) + Tail(subs[1..])) ==
          head + ([DASH] + Decimal(subs[0]) + Tail(subs[1..]));
    }
  }

  lemma TextIsJoined(sid: Sid)
    ensures SidText(sid) == Join(Parts(sid))
  {
    var last := [Decimal(sid.authority)] + Decimals(sid.subs);
    TailIsJoined(Decimal(sid.authority), sid.subs);
    assert Parts(sid)[1..] == [[49]] + last;
    assert ([[49]] + last)[1..] == last;
    var body := Decimal(sid.authority) + Tail(sid.subs);
    calc {
      Join(Parts(sid));
      [83] + [DASH] + ([49] + [DASH] + body);
      [83, DASH, 49, DASH] + body;
      SidText(sid);
    }
  }

  lemma {:induction false} ParseAllExactly(parts: seq<Str>, ns: seq<nat>)
    requires AllShort(ns)
    ensures ParseAll(parts) == Some(ns) <==> parts == Decimals(ns)
  {
    if parts != [] && ns != [] {
      ParseAllExactly(parts[1..], ns[1..]);
      DecimalExactly(parts[0], ns[0]);
      hide ParseDecimal, Decimal, Decimals;
      ConsSame(parts, [Decimal(ns[0])] + Decimals(ns[1..]));
      DecimalsCons(ns);
      var head, tail := ParseDecimal(parts[0]), ParseAll(parts[1..]);
      if head.Some? && tail.Some? {
        assert ParseAll(parts) == Some([head.value] + tail.value);
        ConsSame([head.value] + tail.value, ns);
        assert ([head.value] + tail.value)[1..] == tail.value;
      }
    }
  }

  lemma DecimalsCons(ns: seq<nat>)
    requires ns != []
    ensures Decimals(ns) == [Decimal(ns[0])] + Decimals(ns[1..])
  {
  }

  lemma ConsSame<T>(a: seq<T>, b: seq<T>)
    requires a != [] && b != []
    ensures a == b <==> a[0] == b[0] && a[1..] == b[1..]
  {
    assert a == [a[0]] + a[1..] && b == [b[0]] + b[1..];
  }

  lemma PartsHaveNoDash(sid: Sid)
    ensures forall k :: 0 <= k < |Parts(sid)| ==> NoDash(Parts(sid)[k])
  {
    forall k | 0 <= k < |Parts(sid)| ensures NoDash(Parts(sid)[k]) {
      if k >= 3 {
        assert Parts(sid)[k] == Decimal(sid.subs[k - 3]);
      }
    }
  }

  lemma {:induction false} TailLength(subs: seq<nat>)
    requires AllShort(subs)
    ensures 2 * |subs| <= |Tail(subs)| <= 11 * |subs|
  {
    if subs != [] {
      TailLength(subs[1..]);
      assert Pow10(1) == 10 && Pow10(2) == 100 && Pow10(3) == 1000 && Pow10(4) == 10000 && Pow10(5) == 100000;
      assert Pow10(6) == 1000000 && Pow10(7) == 10000000 && Pow10(8) == 100000000 && Pow10(9) == 1000000000;
      assert Pow10(10) == 10000000000;
      DecimalLength(subs[0], 10);
    }
  }

  lemma AuthorityLength(a: nat)
    requires a <= MAX_AUTHORITY
    ensures |Decimal(a)| <= 15
    ensures |Decimal(a)| >= 3 <==> a >= 100
  {
    assert Pow10(1) == 10 && Pow10(2) == 100 && Pow10(3) == 1000 && Pow10(4) == 10000 && Pow10(5) == 100000;
    assert Pow10(6) == 1000000 && Pow10(7) == 10000000 && Pow10(8) == 100000000 && Pow10(9) == 1000000000;
    assert Pow10(10) == 10000000000 && Pow10(11) == 100000000000 && Pow10(12) == 1000000000000;
    assert Pow10(13) == 10000000000000 && Pow10(14) == 100000000000000 && Pow10(15) == 1000000000000000;
    DecimalLength(a, 15);
    if a < 100 {
      DecimalLength(a, 2);
    } else {
      assert |Decimal(a)| == |Decimal(a / 10)| + 1 && |Decimal(a / 10)| == |Decimal(a / 100)| + 1;
    }
  }

  /** Every rendering fits the bound the parser sets, and is long enough for it except in one case. */
  lemma TextBounds(sid: Sid)
    requires WellFormed(sid)
    ensures |SidText(sid)| <= 184
    ensures |SidText(sid)| >= 7 <==> sid.subs != [] || sid.authority >= 100
  {
    AuthorityLength(sid.authority);
    TailLength(sid.subs);
  }

  /** The parser reads a text as an identifier exactly when it is that identifier's rendering. */
  lemma ReadExactly(v: Str, sid: Sid)
    requires WellFormed(sid)
    ensures ReadText(v) == Some(Binary(sid)) <==> v == SidText(sid) && |v| >= 7
  {
    TextBounds(sid);
    TextIsJoined(sid);
    PartsHaveNoDash(sid);
    SplitJoin(Parts(sid));
    JoinSplit(v);
    DecimalExactly(Parts(sid)[2], sid.authority);
    ParseAllExactly(Parts(sid)[3..], sid.subs);
    assert Parts(sid)[3..] == Decimals(sid.subs);
    if ReadText(v) == Some(Binary(sid)) {
      ReadIsCanonical(v);
      BinaryBack(sid);
    }
  }

  /** Whatever the parser reads renders back to the same text: the comparison afterwards never fails. */
  lemma ReadIsCanonical(v: Str)
    requires ReadText(v).Some?
    ensures Render(ReadText(v).value) == Some(v)
  {
    var parts := Split(v);
    var authority, subs := ParseDecimal(parts[2]).value, ParseAll(parts[3..]).value;
    var sid := Sid(authority, subs);
    BinaryBack(sid);
    JoinSplit(v);
    DecimalExactly(parts[2], authority);
    ParseAllExactly(parts[3..], subs);
    assert parts == [parts[0], parts[1], parts[2]] + parts[3..];
    assert parts == Parts(sid);
    TextIsJoined(sid);
  }

  /** Accepted text is canonical, with or without the run-time comparison. */
  lemma ParseNeedsNoRecheck(v: Str)
    ensures Parse(v) == ReadText(v)
    ensures Parse(v).Some? ==> Render(Parse(v).value) == Some(v)
  {
    if ReadText(v).Some? {
      ReadIsCanonical(v);
    }
  }

  /**
    A binary identifier survives rendering and parsing exactly when it has a subauthority or a
    three-digit authority; shorter texts are refused as too short.
  */
  lemma ParseOfRender(b: Str)
    requires IsBinary(b)
    ensures Parse(SidText(SidOf(b))) == Some(b) <==> b[1] >= 1 || FromBig(b[2..8]) >= 100
  {
    var sid := SidOf(b);
    SidBack(b);
    TextBounds(sid);
    ReadExactly(SidText(sid), sid);
    ParseNeedsNoRecheck(SidText(sid));
  }

  // ---------------------------------------------------------------- records

  lemma ParsedIsBinary(v: Str)
    requires Parse(v).Some?
    ensures IsBinary(Parse(v).value)
  {
    ParseNeedsNoRecheck(v);
  }

  /** A token text names an identifier exactly when it is its hexadecimal form and that identifier
      survives rendering. */
  lemma TokenExactly(token: Str, b: Str)
    ensures ParseToken(token) == Some(b) <==>
      token == TokenText(b) && IsBinary(b) && (b[1] >= 1 || FromBig(b[2..8]) >= 100)
  {
    if IsBinary(b) {
      ParseOfRender(b);
    }
    hide SidText, SidOf, Parse, FromBig;
    Hex.DecodeEncode(b);
    assert TokenText(b)[4..] == Hex.Encode(b);
  }

  /** A record is accepted exactly when its token names the octets of its pipe identifier. */
  lemma RecordNamesOneIdentity(pipe: Str, token: Str)
    ensures SameIdentity(pipe, token) <==> Parse(pipe).Some? && token == TokenText(Parse(pipe).value)
  {
    if Parse(pipe).Some? {
      var b := Parse(pipe).value;
      ParsedIsBinary(pipe);
      ParseNeedsNoRecheck(pipe);
      ParseOfRender(b);
      TokenExactly(token, b);
    }
  }

  // ---------------------------------------------------------------- rendering as the code does it

  /** Decode the header, then append one subauthority after another. */
  method RenderSid(b: Str) returns (r: Option<Str>)
    ensures r == Render(b)
  {
    if |b| < 8 || b[0] != 1 { return None; }
    var count := b[1];
    if count > MAX_COUNT || |b| != 8 + 4 * count { return None; }
    var rendered := [83, DASH, 49, DASH] + Decimal(FromBig(b[2..8]));
    ghost var start := rendered;
    var i := 8;
    while i < |b|
      invariant 8 <= i <= |b| && (|b| - i) % 4 == 0
      invariant rendered + Tail(SubsOf(b[i..])) == start + Tail(SubsOf(b[8..]))
    {
      var sub := FromLittle(b[i..i + 4]);
      assert b[i..][..4] == b[i..i + 4] && b[i..][4..] == b[i + 4..];
      assert Tail(SubsOf(b[i..])) == [DASH] + Decimal(sub) + Tail(SubsOf(b[i + 4..])) by {
        assert SubsOf(b[i..])[1..] == SubsOf(b[i + 4..]);
      }
      rendered := rendered + ([DASH] + Decimal(sub));
      i := i + 4;
    }
    assert b[i..] == [];
    assert rendered + [] == rendered;
    return Some(rendered);
  }
}
