/**
 UTF-8 (RFC 3629): encoding, decoding that ignores malformed bytes, and the effect of cutting an encoded text at
 a byte budget. A `char` is a Unicode scalar value, so every text here can be encoded.
 */
module Utf8 {
  import opened Common

  type Byte = b: int | 0 <= b < 256

  function EncodeChar(c: char): (r: seq<Byte>)
    ensures 1 <= |r| <= 4
  {
    var v := c as int;
    if v < 0x80 then [v]
    else if v < 0x800 then [0xC0 + v / 64, 0x80 + v % 64]
    else if v < 0x10000 then [0xE0 + v / 4096, 0x80 + v / 64 % 64, 0x80 + v % 64]
    else [0xF0 + v / 262144, 0x80 + v / 4096 % 64, 0x80 + v / 64 % 64, 0x80 + v % 64]
  }

  function Encode(s: string): seq<Byte> {
    if s == "" then [] else EncodeChar(s[0]) + Encode(s[1..])
  }

  function ByteLen(s: string): nat {
    |Encode(s)|
  }

  function Value2(b: int, b1: int): int {
    (b - 0xC0) * 64 + (b1 - 0x80)
  }

  function Value3(b: int, b1: int, b2: int): int {
    (b - 0xE0) * 4096 + (b1 - 0x80) * 64 + (b2 - 0x80)
  }

  function Value4(b: int, b1: int, b2: int, b3: int): int {
    (b - 0xF0) * 262144 + (b1 - 0x80) * 4096 + (b2 - 0x80) * 64 + (b3 - 0x80)
  }

  predicate IsTail(b: int) {
    0x80 <= b < 0xC0
  }

  predicate IsScalar(v: int) {
    0 <= v < 0xD800 || 0xE000 <= v < 0x110000
  }

  /** The scalar value at the start of `bs` and its width, if a well-formed sequence starts there. */
  function DecodeAt(bs: seq<Byte>): (r: Option<(char, nat)>)
    requires bs != []
    ensures r.Some? ==> 1 <= r.value.1 <= |bs|
  {
    var b: int := bs[0];
    var b1: int := if |bs| >= 2 then bs[1] else 0;
    var b2: int := if |bs| >= 3 then bs[2] else 0;
    var b3: int := if |bs| >= 4 then bs[3] else 0;
    if b < 0x80 then Some((b as char, 1))
    else if 0xC2 <= b < 0xE0 && IsTail(b1) then
      Some((Value2(b, b1) as char, 2))
    else if 0xE0 <= b < 0xF0 && IsTail(b1) && IsTail(b2) then
      var v := Value3(b, b1, b2);
      if v >= 0x800 && IsScalar(v) then Some((v as char, 3)) else None
    else if 0xF0 <= b < 0xF5 && IsTail(b1) && IsTail(b2) && IsTail(b3) then
      var v := Value4(b, b1, b2, b3);
      if v >= 0x10000 && IsScalar(v) then Some((v as char, 4)) else None
    else None
  }

  /** `bytes.decode("utf-8", errors="ignore")`: bytes that start no well-formed sequence are dropped. */
  function DecodeIgnore(bs: seq<Byte>): string
    decreases |bs|
  {
    if bs == [] then ""
    else
      match DecodeAt(bs)
      case Some((c, n)) => [c] + DecodeIgnore(bs[n..])
      case None => DecodeIgnore(bs[1..])
  }

  // ----- round trip -----

  lemma SplitSixBits(v: nat)
    ensures v == v / 64 * 64 + v % 64
    ensures v / 4096 == v / 64 / 64 && v / 262144 == v / 64 / 64 / 64
    ensures v / 64 == v / 4096 * 64 + v / 64 % 64
    ensures v / 4096 == v / 262144 * 64 + v / 4096 % 64
  {}

  lemma DecodeEncodedChar(c: char, rest: seq<Byte>)
    ensures DecodeAt(EncodeChar(c) + rest) == Some((c, |EncodeChar(c)|))
  {
    var v := c as int;
    var head, bs := EncodeChar(c), EncodeChar(c) + rest;
    SplitSixBits(v);
    if v < 0x800 {
    } else if v < 0x10000 {
      assert bs[0] == head[0] && bs[1] == head[1] && bs[2] == head[2];
      assert Value3(head[0], head[1], head[2]) == v;
    } else {
      assert bs[0] == head[0] && bs[1] == head[1] && bs[2] == head[2] && bs[3] == head[3];
      assert Value4(head[0], head[1], head[2], head[3]) == v;
    }
  }

  lemma {:induction false} RoundTrip(s: string)
    ensures DecodeIgnore(Encode(s)) == s
  {
    if s != "" {
      var head := EncodeChar(s[0]);
      DecodeEncodedChar(s[0], Encode(s[1..]));
      assert (head + Encode(s[1..]))[|head|..] == Encode(s[1..]);
      RoundTrip(s[1..]);
    }
  }

  lemma EncodeIsInjective(s: string, t: string)
    requires Encode(s) == Encode(t)
    ensures s == t
  {
    RoundTrip(s);
    RoundTrip(t);
  }

  lemma {:induction false} EncodeConcat(s: string, t: string)
    ensures Encode(s + t) == Encode(s) + Encode(t)
  {
    if s == "" {
      assert s + t == t;
    } else {
      EncodeConcat(s[1..], t);
      assert (s + t)[1..] == s[1..] + t;
      var a, b, c := EncodeChar(s[0]), Encode(s[1..]), Encode(t);
      assert a + (b + c) == (a + b) + c;
    }
  }

  // ----- cutting at a byte budget -----

  /** The longest prefix whose encoding fits into `budget` bytes. */
  function AlignedPrefix(s: string, budget: nat): (p: string) {
    if s == "" || |EncodeChar(s[0])| > budget then ""
    else [s[0]] + AlignedPrefix(s[1..], budget - |EncodeChar(s[0])|)
  }

  /** A character cut off before its last byte decodes to nothing. */
  lemma CutCharDecodesToNothing(c: char, k: nat)
    requires k < |EncodeChar(c)|
    ensures DecodeIgnore(EncodeChar(c)[..k]) == ""
  {
    var bs := EncodeChar(c)[..k];
    if k >= 1 {
      assert DecodeAt(bs).None?;
      TailsDecodeToNothing(bs[1..]);
    }
  }

  lemma {:induction false} TailsDecodeToNothing(bs: seq<Byte>)
    requires forall b :: b in bs ==> IsTail(b)
    ensures DecodeIgnore(bs) == ""
  {
    if bs != [] {
      assert IsTail(bs[0]);
      TailsDecodeToNothing(bs[1..]);
    }
  }

  /** Cutting the bytes at the budget and ignoring the torn character yields the longest prefix that fits. */
  lemma {:induction false} CutIsAlignedPrefix(s: string, budget: nat)
    ensures DecodeIgnore(Take(Encode(s), budget)) == AlignedPrefix(s, budget)
  {
    if s != "" {
      var head, tail := EncodeChar(s[0]), Encode(s[1..]);
      var cut := Take(head + tail, budget);
      if |head| > budget {
        assert cut == head[..budget];
        CutCharDecodesToNothing(s[0], budget);
      } else {
        var rest := Take(tail, budget - |head|);
        assert cut == head + rest;
        DecodeEncodedChar(s[0], rest);
        assert cut[|head|..] == rest;
        CutIsAlignedPrefix(s[1..], budget - |head|);
      }
    }
  }

  /** The aligned prefix fits, is all of a text that fits, and otherwise misses the budget by at most three bytes. */
  lemma {:induction false} AlignedPrefixFits(s: string, budget: nat)
    ensures AlignedPrefix(s, budget) <= s
    ensures ByteLen(AlignedPrefix(s, budget)) <= budget
    ensures ByteLen(s) <= budget ==> AlignedPrefix(s, budget) == s
    ensures ByteLen(s) > budget ==> ByteLen(AlignedPrefix(s, budget)) + 3 >= budget
  {
    if s != "" && |EncodeChar(s[0])| <= budget {
      var rest := budget - |EncodeChar(s[0])|;
      AlignedPrefixFits(s[1..], rest);
      var p := AlignedPrefix(s, budget);
      assert p[1..] == AlignedPrefix(s[1..], rest);
      assert Encode(p) == EncodeChar(s[0]) + Encode(p[1..]);
    }
  }

  /** Every prefix that fits the budget lies inside the aligned prefix, whatever follows it. */
  lemma {:induction false} AlignedPrefixIsLongest(p: string, t: string, budget: nat)
    requires ByteLen(p) <= budget
    ensures p <= AlignedPrefix(p + t, budget)
  {
    if p != "" {
      AlignedPrefixIsLongest(p[1..], t, budget - |EncodeChar(p[0])|);
      assert (p + t)[1..] == p[1..] + t;
    }
  }

  /** A prefix has no more bytes than the whole. */
  lemma PrefixHasNoMoreBytes(p: string, s: string)
    requires p <= s
    ensures ByteLen(p) <= ByteLen(s)
  {
    assert s == p + s[|p|..];
    EncodeConcat(p, s[|p|..]);
  }

  /** Once a text exceeds the budget, appending to it does not move its aligned prefix. */
  lemma AlignedPrefixIsStable(s: string, t: string, budget: nat)
    requires ByteLen(s) > budget
    ensures AlignedPrefix(s + t, budget) == AlignedPrefix(s, budget)
  {
    var p, q := AlignedPrefix(s, budget), AlignedPrefix(s + t, budget);
    AlignedPrefixFits(s, budget);
    AlignedPrefixFits(s + t, budget);
    assert s + t == p + (s[|p|..] + t);
    AlignedPrefixIsLongest(p, s[|p|..] + t, budget);
    if |q| <= |s| {
      assert s == q + s[|q|..];
      AlignedPrefixIsLongest(q, s[|q|..], budget);
    } else {
      PrefixHasNoMoreBytes(s, q);
    }
  }

  /** Characters of each width, as in the examples of section 7 of RFC 3629 and beyond. */
  lemma KnownEncodings()
    ensures EncodeChar('A') == [0x41] && EncodeChar('\U{E9}') == [0xC3, 0xA9]
    ensures EncodeChar('\U{2262}') == [0xE2, 0x89, 0xA2] && EncodeChar('\U{233B4}') == [0xF0, 0xA3, 0x8E, 0xB4]
  {}
}
