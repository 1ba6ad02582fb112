/** Base64 with the URL-safe alphabet and without padding: section 5 of RFC 4648. */
module Base64 {
  import opened Common
  import opened Utf8

  type Six = v: int | 0 <= v < 64

  // ----- bytes and six-bit values -----

  /** The six-bit values of up to three bytes: one more than there are bytes. */
  function Group(x: Byte, y: Byte, z: Byte): (g: seq<Six>)
    ensures |g| == 4
  {
    [x / 4, x % 4 * 16 + y / 16, y % 16 * 4 + z / 64, z % 64]
  }

  function Sextets(bs: seq<Byte>): seq<Six> {
    if |bs| == 0 then []
    else if |bs| == 1 then Group(bs[0], 0, 0)[..2]
    else if |bs| == 2 then Group(bs[0], bs[1], 0)[..3]
    else Group(bs[0], bs[1], bs[2]) + Sextets(bs[3..])
  }

  /** The bytes of four six-bit values. */
  function Ungroup(a: Six, b: Six, c: Six, d: Six): (g: seq<Byte>)
    ensures |g| == 3
  {
    [a * 4 + b / 16, b % 16 * 16 + c / 4, c % 4 * 64 + d]
  }

  function Bytes(ss: seq<Six>): seq<Byte> {
    if |ss| < 2 then []
    else if |ss| == 2 then Ungroup(ss[0], ss[1], 0, 0)[..1]
    else if |ss| == 3 then Ungroup(ss[0], ss[1], ss[2], 0)[..2]
    else Ungroup(ss[0], ss[1], ss[2], ss[3]) + Bytes(ss[4..])
  }

  lemma UngroupGroup(x: Byte, y: Byte, z: Byte)
    ensures var g := Group(x, y, z); Ungroup(g[0], g[1], g[2], g[3]) == [x, y, z]
  {}

  lemma FullGroup(x: Byte, y: Byte, z: Byte, rest: seq<Six>)
    ensures Bytes(Group(x, y, z) + rest) == [x, y, z] + Bytes(rest)
  {
    var g := Group(x, y, z);
    UngroupGroup(x, y, z);
    assert (g + rest)[4..] == rest;
  }

  lemma ShortGroups(x: Byte, y: Byte)
    ensures Bytes(Group(x, 0, 0)[..2]) == [x]
    ensures Bytes(Group(x, y, 0)[..3]) == [x, y]
  {
    UngroupGroup(x, 0, 0);
    UngroupGroup(x, y, 0);
    assert Ungroup(Group(x, 0, 0)[0], Group(x, 0, 0)[1], 0, 0)[..1] == [x];
    assert Ungroup(Group(x, y, 0)[0], Group(x, y, 0)[1], Group(x, y, 0)[2], 0)[..2] == [x, y];
  }

  lemma {:induction false} BytesOfSextets(bs: seq<Byte>)
    ensures Bytes(Sextets(bs)) == bs
  {
    if |bs| == 1 {
      ShortGroups(bs[0], 0);
    } else if |bs| == 2 {
      ShortGroups(bs[0], bs[1]);
    } else if |bs| > 2 {
      FullGroup(bs[0], bs[1], bs[2], Sextets(bs[3..]));
      BytesOfSextets(bs[3..]);
      assert bs == [bs[0], bs[1], bs[2]] + bs[3..];
    }
  }

  // ----- the alphabet -----

  function Letter(v: Six): char {
    if v < 26 then ('A' as int + v) as char
    else if v < 52 then ('a' as int + v - 26) as char
    else if v < 62 then ('0' as int + v - 52) as char
    else if v == 62 then '-' else '_'
  }

  /** Characters outside the alphabet read as zero. */
  function LetterValue(c: char): Six {
    if 'A' <= c <= 'Z' then c as int - 'A' as int
    else if 'a' <= c <= 'z' then c as int - 'a' as int + 26
    else if '0' <= c <= '9' then c as int - '0' as int + 52
    else if c == '-' then 62
    else if c == '_' then 63
    else 0
  }

  lemma LetterRoundTrip(v: Six)
    ensures LetterValue(Letter(v)) == v
  {}

  function Encode64(bs: seq<Byte>): string {
    Map(Letter, Sextets(bs))
  }

  function Decode64(s: string): seq<Byte> {
    Bytes(Map(LetterValue, s))
  }

  lemma RoundTrip64(bs: seq<Byte>)
    ensures Decode64(Encode64(bs)) == bs
  {
    var ss := Sextets(bs);
    forall i | 0 <= i < |ss| ensures LetterValue(Letter(ss[i])) == ss[i] {
      LetterRoundTrip(ss[i]);
    }
    assert Map(LetterValue, Map(Letter, ss)) == ss;
    BytesOfSextets(bs);
  }

  lemma Encode64IsInjective(a: seq<Byte>, b: seq<Byte>)
    requires Encode64(a) == Encode64(b)
    ensures a == b
  {
    RoundTrip64(a);
    RoundTrip64(b);
  }

  /** The letters are those of table 2 of RFC 4648, and bits are read from the most significant one on. */
  lemma LettersAreTheStandards(x: Byte, y: Byte, z: Byte, v: Six)
    ensures Letter(0) == 'A' && Letter(25) == 'Z' && Letter(26) == 'a' && Letter(51) == 'z'
    ensures Letter(52) == '0' && Letter(61) == '9' && Letter(62) == '-' && Letter(63) == '_'
    ensures v < 61 && v != 25 && v != 51 ==> Letter(v + 1) as int == Letter(v) as int + 1
    ensures var a: int, b: int, c: int, d: int := Group(x, y, z)[0], Group(x, y, z)[1], Group(x, y, z)[2], Group(x, y, z)[3];
            ((a * 64 + b) * 64 + c) * 64 + d == (x as int * 256 + y) * 256 + z
  {
    assert 16 * (y / 16) + y % 16 == y;
  }
}
