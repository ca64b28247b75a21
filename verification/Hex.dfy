/** Hexadecimal text, and the comparison of authentication codes written in it. */
module Hex {
  import opened Basics

  function Digit(n: int): (r: byte)
    requires 0 <= n < 16
    ensures IsLowerHex(r)
  {
    if n < 10 then 48 + n else 87 + n
  }

  /** Either case is read. */
  function FromDigit(b: byte): (r: Option<int>)
    ensures r.Some? ==> 0 <= r.value < 16
  {
    if IsDigit(b) then Some(b - 48)
    else if 97 <= b <= 102 then Some(b - 87)
    else if 65 <= b <= 70 then Some(b - 55)
    else None
  }

  function Encode(s: Str): (r: Str)
    ensures |r| == 2 * |s|
    ensures forall i :: 0 <= i < |r| ==> IsLowerHex(r[i])
  {
    if s == [] then [] else [Digit(s[0] / 16), Digit(s[0] % 16)] + Encode(s[1..])
  }

  function Decode(s: Str): Option<Str> {
    if s == [] then Some([])
    else if |s| < 2 then None
    else
      var high, low, tail := FromDigit(s[0]), FromDigit(s[1]), Decode(s[2..]);
      if high.None? || low.None? || tail.None? then None
      else Some([16 * high.value + low.value] + tail.value)
  }

  lemma {:induction false} DecodeEncode(s: Str)
    ensures Decode(Encode(s)) == Some(s)
  {
    if s != [] {
      DecodeEncode(s[1..]);
      assert Encode(s)[2..] == Encode(s[1..]);
      assert s == [s[0]] + s[1..];
    }
  }

  lemma {:induction false} LowerHexReads(s: Str)
    requires |s| % 2 == 0 && forall i :: 0 <= i < |s| ==> IsLowerHex(s[i])
    ensures Decode(s).Some?
  {
    if s != [] {
      LowerHexReads(s[2..]);
    }
  }

  lemma OctetBack(high: int, low: int)
    requires 0 <= high < 16 && 0 <= low < 16
    ensures (16 * high + low) / 16 == high && (16 * high + low) % 16 == low
  {
  }

  /** Lower-case text is the only text `Encode` produces. */
  lemma {:induction false} EncodeDecode(s: Str)
    requires Decode(s).Some? && forall i :: 0 <= i < |s| ==> IsLowerHex(s[i])
    ensures Encode(Decode(s).value) == s
  {
    if s != [] {
      var high, low, tail := FromDigit(s[0]).value, FromDigit(s[1]).value, Decode(s[2..]).value;
      EncodeDecode(s[2..]);
      OctetBack(high, low);
      calc {
        Encode(Decode(s).value);
        { assert Decode(s).value == [16 * high + low] + tail; }
        Encode([16 * high + low] + tail);
        { assert ([16 * high + low] + tail)[1..] == tail; }
        [Digit(high), Digit(low)] + Encode(tail);
        { assert s == [s[0], s[1]] + s[2..]; }
        s;
      }
    }
  }

  function Lowered(s: Str): (r: Str)
    ensures |r| == |s|
  {
    if s == [] then [] else [if 65 <= s[0] <= 90 then s[0] + 32 else s[0]] + Lowered(s[1..])
  }

  /** Octet by octet, the two digits are the high and the low half. */
  lemma {:induction false} EncodeAt(s: Str, k: nat)
    requires k < |s|
    ensures Encode(s)[2 * k] as char == "0123456789abcdef"[s[k] / 16]
    ensures Encode(s)[2 * k + 1] as char == "0123456789abcdef"[s[k] % 16]
  {
    if k > 0 {
      EncodeAt(s[1..], k - 1);
      assert Encode(s)[2..] == Encode(s[1..]);
    }
  }

  lemma DigitExactly(b: byte, n: int)
    requires 0 <= n < 16
    ensures FromDigit(b) == Some(n) <==> (if 65 <= b <= 90 then b + 32 else b) == Digit(n)
  {
  }

  /** A text spells some octets exactly when, in lower case, it is their encoding. */
  lemma {:induction false} DecodeExactly(text: Str, s: Str)
    ensures Decode(text) == Some(s) <==> Lowered(text) == Encode(s)
  {
    if |text| >= 2 && s != [] {
      var a, b := Lowered(text)[0], Lowered(text)[1];
      assert Lowered(text) == [a, b] + Lowered(text[2..]) by {
        assert text[1..][1..] == text[2..];
      }
      DecodeExactly(text[2..], s[1..]);
      DigitExactly(text[0], s[0] / 16);
      DigitExactly(text[1], s[0] % 16);
      assert s == [s[0]] + s[1..];
      if Decode(text) == Some(s) {
        var high, low := FromDigit(text[0]).value, FromDigit(text[1]).value;
        OctetBack(high, low);
        assert Decode(text[2..]) == Some(s[1..]) && s[0] == 16 * high + low;
      }
      if Lowered(text) == Encode(s) {
        assert Lowered(text)[2..] == Lowered(text[2..]) && Encode(s)[2..] == Encode(s[1..]);
        assert Encode(s)[0] == a && Encode(s)[1] == b;
      }
    }
  }

  /** Compare two codes by the octets they spell, or as text when either spells none. */
  predicate SameCode(a: Str, b: Str) {
    var x, y := Decode(a), Decode(b);
    if x.Some? && y.Some? then x.value == y.value else a == b
  }

  /** A computed code is matched exactly by the texts that spell it, in either case. */
  lemma SameCodeExactly(code: Str, text: Str)
    ensures SameCode(Encode(code), text) <==> Decode(text) == Some(code)
  {
    DecodeEncode(code);
  }

  /** Two lower-case codes matched by one text are the same code. */
  lemma SameCodeUnique(a: Str, b: Str, text: Str)
    requires IsDigest(a) && IsDigest(b) && SameCode(a, text) && SameCode(b, text)
    ensures a == b
  {
    LowerHexReads(a);
    LowerHexReads(b);
    EncodeDecode(a);
    EncodeDecode(b);
    hide Encode, Decode;
  }
}
