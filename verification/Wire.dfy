/**
  The primitive fields of a canonical encoding and their readers.

  Each writer takes the octets that follow, so that an encoding reads in field order; each reader
  returns the value and what it left.
*/
module Wire {
  import opened Basics

  datatype Read<+T> = NoRead | Got(value: T, rest: Str)

  // ---------------------------------------------------------------- fixed-width integers

  /** `n` modulo 256^k as k octets, least significant first. */
  function Little(k: nat, n: nat): (r: Str)
    ensures |r| == k
  {
    if k == 0 then [] else [n % 256] + Little(k - 1, n / 256)
  }

  function FromLittle(s: Str): nat {
    if s == [] then 0 else s[0] + 256 * FromLittle(s[1..])
  }

  function Pow256(k: nat): nat {
    if k == 0 then 1 else 256 * Pow256(k - 1)
  }

  lemma {:induction false} LittleBack(k: nat, n: nat)
    requires n < Pow256(k)
    ensures FromLittle(Little(k, n)) == n
  {
    if k > 0 {
      LittleBack(k - 1, n / 256);
      assert Little(k, n)[1..] == Little(k - 1, n / 256);
    }
  }

  lemma Widths()
    ensures Pow256(4) == U32_MAX + 1 && Pow256(8) == U64_MAX + 1
  {
    assert Pow256(1) == 256;
    assert Pow256(2) == 65536;
    assert Pow256(3) == 0x100_0000;
    assert Pow256(4) == 0x1_0000_0000;
    assert Pow256(5) == 0x100_0000_0000;
    assert Pow256(6) == 0x1_0000_0000_0000;
    assert Pow256(7) == 0x100_0000_0000_0000;
  }

  function U32(n: nat, rest: Str): Str {
    Little(4, n) + rest
  }

  function U64(n: nat, rest: Str): Str {
    Little(8, n) + rest
  }

  /** Two's complement. */
  function I32(n: i32, rest: Str): Str {
    Little(4, if n < 0 then n + U32_MAX + 1 else n) + rest
  }

  function I64(n: i64, rest: Str): Str {
    Little(8, if n < 0 then n + U64_MAX + 1 else n) + rest
  }

  function GetU32(s: Str): (r: Read<u32>)
    ensures r.Got? ==> |r.rest| < |s|
  {
    if |s| < 4 then NoRead else
    var n := FromLittle(s[..4]);
    if n > U32_MAX then NoRead else Got(n, s[4..])
  }

  function GetU64(s: Str): Read<u64> {
    if |s| < 8 then NoRead else
    var n := FromLittle(s[..8]);
    if n > U64_MAX then NoRead else Got(n, s[8..])
  }

  function GetI32(s: Str): Read<i32> {
    match GetU32(s)
    case NoRead => NoRead
    case Got(n, rest) => Got(if n > 0x7fff_ffff then n - U32_MAX - 1 else n, rest)
  }

  function GetI64(s: Str): Read<i64> {
    match GetU64(s)
    case NoRead => NoRead
    case Got(n, rest) => Got(if n > I64_MAX then n - U64_MAX - 1 else n, rest)
  }

  lemma U32Back(n: u32, rest: Str)
    ensures GetU32(U32(n, rest)) == Got(n, rest)
  {
    Widths();
    LittleBack(4, n);
    assert U32(n, rest)[..4] == Little(4, n);
  }

  lemma U64Back(n: u64, rest: Str)
    ensures GetU64(U64(n, rest)) == Got(n, rest)
  {
    Widths();
    LittleBack(8, n);
    assert U64(n, rest)[..8] == Little(8, n);
  }

  lemma I32Back(n: i32, rest: Str)
    ensures GetI32(I32(n, rest)) == Got(n, rest)
  {
    U32Back(if n < 0 then n + U32_MAX + 1 else n, rest);
  }

  lemma I64Back(n: i64, rest: Str)
    ensures GetI64(I64(n, rest)) == Got(n, rest)
  {
    U64Back(if n < 0 then n + U64_MAX + 1 else n, rest);
  }

  // ---------------------------------------------------------------- octet strings

  /** The length, truncated to 32 bits, then the octets. */
  function Text(s: Str, rest: Str): Str {
    U32(|s|, s + rest)
  }

  function GetText(s: Str): (r: Read<Str>)
    ensures r.Got? ==> |r.rest| < |s|
  {
    match GetU32(s)
    case NoRead => NoRead
    case Got(n, rest) => if |rest| < n then NoRead else Got(rest[..n], rest[n..])
  }

  predicate Short(s: Str) {
    |s| <= U32_MAX
  }

  lemma TextBack(s: Str, rest: Str)
    requires Short(s)
    ensures GetText(Text(s, rest)) == Got(s, rest)
  {
    U32Back(|s|, s + rest);
  }

  /** `count` as the encoders write it: saturated, not truncated. */
  function Saturated(count: nat): nat {
    Min(count, U32_MAX)
  }

  function Texts(items: seq<Str>, rest: Str): Str {
    if items == [] then rest else Text(items[0], Texts(items[1..], rest))
  }

  function GetTexts(n: nat, s: Str): Read<seq<Str>> {
    if n == 0 then Got([], s) else
    match GetText(s)
    case NoRead => NoRead
    case Got(head, rest) =>
      (match GetTexts(n - 1, rest)
       case NoRead => NoRead
       case Got(tail, left) => Got([head] + tail, left))
  }

  lemma {:induction false} TextsBack(items: seq<Str>, rest: Str)
    requires forall k :: 0 <= k < |items| ==> Short(items[k])
    ensures GetTexts(|items|, Texts(items, rest)) == Got(items, rest)
  {
    if items != [] {
      TextBack(items[0], Texts(items[1..], rest));
      TextsBack(items[1..], rest);
      assert items == [items[0]] + items[1..];
    }
  }

  /** A counted list. */
  function List(items: seq<Str>, rest: Str): Str {
    U32(Saturated(|items|), Texts(items, rest))
  }

  function GetList(s: Str): Read<seq<Str>> {
    match GetU32(s)
    case NoRead => NoRead
    case Got(n, rest) => GetTexts(n, rest)
  }

  predicate ShortList(items: seq<Str>) {
    |items| <= U32_MAX && forall k :: 0 <= k < |items| ==> Short(items[k])
  }

  lemma ListBack(items: seq<Str>, rest: Str)
    requires ShortList(items)
    ensures GetList(List(items, rest)) == Got(items, rest)
  {
    hide U32, GetU32, Texts, GetTexts;
    U32Back(|items|, Texts(items, rest));
    TextsBack(items, rest);
  }

  /** A tag octet, then the text if there is one. */
  function Maybe(s: Option<Str>, rest: Str): Str {
    match s
    case None => [0] + rest
    case Some(text) => [1] + Text(text, rest)
  }

  function GetMaybe(s: Str): Read<Option<Str>> {
    if s == [] || s[0] > 1 then NoRead
    else if s[0] == 0 then Got(None, s[1..])
    else
      match GetText(s[1..])
      case NoRead => NoRead
      case Got(text, rest) => Got(Some(text), rest)
  }

  lemma MaybeBack(s: Option<Str>, rest: Str)
    requires s.Some? ==> Short(s.value)
    ensures GetMaybe(Maybe(s, rest)) == Got(s, rest)
  {
    if s.Some? {
      TextBack(s.value, rest);
      assert Maybe(s, rest)[1..] == Text(s.value, rest);
    }
  }

  // ---------------------------------------------------------------- lengths

  lemma Times(a: nat, n: nat)
    ensures a * (n + 1) == a * n + a
  {
  }

  lemma {:induction false} TextsLength(items: seq<Str>, rest: Str, bound: nat)
    requires forall k :: 0 <= k < |items| ==> |items[k]| <= bound
    ensures |Texts(items, rest)| <= (4 + bound) * |items| + |rest|
  {
    if items != [] {
      TextsLength(items[1..], rest, bound);
      Times(4 + bound, |items[1..]|);
    }
  }
}

/** The ascending order in which a sorted map is iterated. */
module SortedMap {
  import opened Basics

  /** Octet-wise lexicographic order. */
  predicate AtMost(a: Str, b: Str) {
    a == [] || (b != [] && (a[0] < b[0] || (a[0] == b[0] && AtMost(a[1..], b[1..]))))
  }

  lemma {:induction false} AtMostTotal(a: Str, b: Str)
    ensures AtMost(a, b) || AtMost(b, a)
  {
    if a != [] && b != [] {
      AtMostTotal(a[1..], b[1..]);
    }
  }

  lemma {:induction false} AtMostAntisymmetric(a: Str, b: Str)
    requires AtMost(a, b) && AtMost(b, a)
    ensures a == b
  {
    if a != [] {
      AtMostAntisymmetric(a[1..], b[1..]);
      assert a == [a[0]] + a[1..] && b == [b[0]] + b[1..];
    }
  }

  lemma {:induction false} AtMostTransitive(a: Str, b: Str, c: Str)
    requires AtMost(a, b) && AtMost(b, c)
    ensures AtMost(a, c)
  {
    if a != [] && a[0] == b[0] == c[0] {
      AtMostTransitive(a[1..], b[1..], c[1..]);
    }
  }

  predicate IsLeast(k: Str, keys: set<Str>) {
    k in keys && forall j :: j in keys ==> AtMost(k, j)
  }

  lemma {:induction false} LeastExists(keys: set<Str>)
    requires keys != {}
    ensures exists k :: IsLeast(k, keys)
    decreases |keys|
  {
    var x :| x in keys;
    var rest := keys - {x};
    AtMostTotal(x, x);
    if rest == {} {
      forall j | j in keys ensures AtMost(x, j) {
        assert j in rest || j == x;
      }
      assert IsLeast(x, keys);
    } else {
      LeastExists(rest);
      var y :| IsLeast(y, rest);
      AtMostTotal(x, y);
      if AtMost(y, x) {
        assert IsLeast(y, keys);
      } else {
        forall j | j in keys ensures AtMost(x, j) {
          if j != x {
            assert AtMost(y, j);
            AtMostTransitive(x, y, j);
          }
        }
        assert IsLeast(x, keys);
      }
    }
  }

  lemma LeastUnique(keys: set<Str>)
    ensures forall a, b :: IsLeast(a, keys) && IsLeast(b, keys) ==> a == b
  {
    forall a, b | IsLeast(a, keys) && IsLeast(b, keys) ensures a == b {
      AtMostAntisymmetric(a, b);
    }
  }

  /** Keys and values in ascending key order, key before value. */
  function Flat(m: map<Str, Str>): seq<Str>
    decreases |m|
  {
    if m == map[] then [] else
    var k := First(m);
    assert (m - {k}).Keys == m.Keys - {k};
    [k, m[k]] + Flat(m - {k})
  }

  function First(m: map<Str, Str>): (k: Str)
    requires m != map[]
    ensures IsLeast(k, m.Keys)
  {
    LeastExists(m.Keys);
    LeastUnique(m.Keys);
    var k :| k in m.Keys && IsLeast(k, m.Keys);
    k
  }

  /** The map a list of keys and values describes. */
  function Pairs(items: seq<Str>): map<Str, Str> {
    if |items| < 2 then map[] else Pairs(items[2..])[items[0] := items[1]]
  }

  lemma {:induction false} FlatBack(m: map<Str, Str>)
    ensures |Flat(m)| == 2 * |m| && Pairs(Flat(m)) == m
    ensures forall i :: 0 <= i < |Flat(m)| ==> Flat(m)[i] in m.Keys + m.Values
    decreases |m|
  {
    if m != map[] {
      var k := First(m);
      var rest := m - {k};
      assert rest.Keys == m.Keys - {k};
      FlatBack(rest);
      assert Flat(m)[2..] == Flat(rest);
      assert rest[k := m[k]] == m;
      forall i | 0 <= i < |Flat(m)| ensures Flat(m)[i] in m.Keys + m.Values {
        if i >= 2 {
          assert Flat(m)[i] == Flat(rest)[i - 2];
          assert Flat(rest)[i - 2] in rest.Keys + rest.Values;
        }
      }
    }
  }
}
