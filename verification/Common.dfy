/** Small value types and string helpers shared by the models. */
module Common {

  datatype Option<+T> = None | Some(value: T)

  datatype Result<+T, +E> = Ok(value: T) | Err(error: E)

  /** The slice `value[:n]`. */
  function Take<T>(s: seq<T>, n: nat): (r: seq<T>) {
    if |s| <= n then s else s[..n]
  }

  /** The text itself if it is no longer than `n`, and otherwise its first `n` characters. */
  predicate IsCut(cut: string, whole: string, n: nat) {
    if |whole| <= n then cut == whole else cut == whole[..n]
  }

  /** The slice `value[-n:]` for a positive `n`. */
  function Last<T>(s: seq<T>, n: nat): (r: seq<T>) {
    if |s| <= n then s else s[|s| - n..]
  }

  function Min(a: int, b: int): int {
    if a <= b then a else b
  }

  function Max(a: int, b: int): int {
    if a <= b then b else a
  }

  predicate IsSpace(c: char) {
    c in {' ', '\t', '\n', '\r', '\U{0b}', '\U{0c}', '\U{1c}', '\U{1d}', '\U{1e}', '\U{1f}', '\U{85}', '\U{a0}'}
  }

  function StripLeft(s: string): string {
    if s != "" && IsSpace(s[0]) then StripLeft(s[1..]) else s
  }

  function StripRight(s: string): string {
    if s != "" && IsSpace(s[|s| - 1]) then StripRight(s[..|s| - 1]) else s
  }

  function Strip(s: string): string {
    StripRight(StripLeft(s))
  }

  predicate AllSpace(s: string) {
    forall i :: 0 <= i < |s| ==> IsSpace(s[i])
  }

  /** What is left has no white space at its ends. */
  predicate Trimmed(s: string) {
    s != "" ==> !IsSpace(s[0]) && !IsSpace(s[|s| - 1])
  }

  lemma {:induction false} StripLeftCuts(s: string)
    ensures |StripLeft(s)| <= |s| && s[|s| - |StripLeft(s)|..] == StripLeft(s)
    ensures AllSpace(s[..|s| - |StripLeft(s)|]) && (StripLeft(s) != "" ==> !IsSpace(StripLeft(s)[0]))
  {
    if s != "" && IsSpace(s[0]) {
      StripLeftCuts(s[1..]);
      var n := |s| - |StripLeft(s)|;
      assert s[..n] == [s[0]] + s[1..][..n - 1];
    }
  }

  lemma {:induction false} StripRightCuts(s: string)
    ensures StripRight(s) <= s && AllSpace(s[|StripRight(s)|..])
    ensures StripRight(s) != "" ==> !IsSpace(StripRight(s)[|StripRight(s)| - 1])
  {
    if s != "" && IsSpace(s[|s| - 1]) {
      StripRightCuts(s[..|s| - 1]);
      var n := |StripRight(s)|;
      assert s[n..] == s[..|s| - 1][n..] + [s[|s| - 1]];
    }
  }

  /** Stripping removes white space at both ends, all of it and nothing else. */
  lemma StripCutsSpace(s: string) returns (before: string, after: string)
    ensures s == before + Strip(s) + after && AllSpace(before) && AllSpace(after) && Trimmed(Strip(s))
  {
    var mid := StripLeft(s);
    StripLeftCuts(s);
    StripRightCuts(mid);
    before, after := CutAtBothEnds(s, mid, Strip(s));
  }

  lemma CutAtBothEnds(s: string, mid: string, core: string) returns (before: string, after: string)
    requires |mid| <= |s| && s[|s| - |mid|..] == mid && AllSpace(s[..|s| - |mid|]) && (mid != "" ==> !IsSpace(mid[0]))
    requires core <= mid && AllSpace(mid[|core|..]) && (core != "" ==> !IsSpace(core[|core| - 1]))
    ensures s == before + core + after && AllSpace(before) && AllSpace(after) && Trimmed(core)
  {
    before, after := s[..|s| - |mid|], mid[|core|..];
    assert mid == core + after;
    assert s == before + mid;
    assert core != "" ==> core[0] == mid[0];
  }

  function LowerChar(c: char): char {
    if 'A' <= c <= 'Z' then ((c as int) + 32) as char else c
  }

  function Lower(s: string): (r: string)
    ensures |r| == |s|
    ensures forall i :: 0 <= i < |s| ==> r[i] == LowerChar(s[i])
  {
    seq(|s|, i requires 0 <= i < |s| => LowerChar(s[i]))
  }

  function Map<A, B>(f: A -> B, s: seq<A>): (r: seq<B>)
    ensures |r| == |s|
    ensures forall i :: 0 <= i < |s| ==> r[i] == f(s[i])
  {
    seq(|s|, i requires 0 <= i < |s| => f(s[i]))
  }

  ghost predicate Distinct<T>(s: seq<T>) {
    forall i, j :: 0 <= i < j < |s| ==> s[i] != s[j]
  }

  function SetOf<T>(s: seq<T>): set<T> {
    set x | x in s
  }

  /** A duplicate-free sequence is no longer than any set that holds its elements. */
  lemma {:induction false} DistinctLength<T>(s: seq<T>, bag: set<T>)
    requires Distinct(s)
    requires forall x :: x in s ==> x in bag
    ensures |s| <= |bag|
  {
    if s != [] {
      var x := s[|s| - 1];
      DistinctLength(s[..|s| - 1], bag - {x});
    }
  }

  /** A number above all of these. */
  lemma {:induction false} FreshNat(taken: set<nat>) returns (n: nat)
    ensures forall k :: k in taken ==> k < n
  {
    n := 0;
    if taken != {} {
      var k :| k in taken;
      var m := FreshNat(taken - {k});
      n := if k < m then m else k + 1;
      assert forall j :: j in taken ==> j == k || j in taken - {k};
    }
  }

  lemma Assoc<T>(a: seq<T>, b: seq<T>, c: seq<T>)
    ensures (a + b) + c == a + (b + c)
  {}

  lemma AppendThree<T>(s: seq<T>, a: T, b: T, c: T)
    ensures s + [a, b, c] == ((s + [a]) + [b]) + [c]
  {}

  /** The concatenation of what `f` gives for each element. */
  function Flat<A, B>(f: A -> seq<B>, s: seq<A>): seq<B> {
    if s == [] then [] else Flat(f, s[..|s| - 1]) + f(s[|s| - 1])
  }

  lemma {:induction false} FlatOfConcat<A, B>(f: A -> seq<B>, s: seq<A>, t: seq<A>)
    ensures Flat(f, s + t) == Flat(f, s) + Flat(f, t)
  {
    if t == [] {
      assert s + t == s;
    } else {
      var front, x := t[..|t| - 1], t[|t| - 1];
      FlatOfConcat(f, s, front);
      assert (s + t)[..|s + t| - 1] == s + front && (s + t)[|s + t| - 1] == x;
      Assoc(Flat(f, s), Flat(f, front), f(x));
    }
  }

  lemma LastOfLast<T>(s: seq<T>, x: T, n: nat)
    requires n > 0
    ensures Last(Last(s, n) + [x], n) == Last(s + [x], n)
  {}

  lemma MapOfLast<A, B>(f: A -> B, s: seq<A>, n: nat)
    ensures Map(f, Last(s, n)) == Last(Map(f, s), n)
  {}

  lemma MapOfConcat<A, B>(f: A -> B, s: seq<A>, t: seq<A>)
    ensures Map(f, s + t) == Map(f, s) + Map(f, t)
  {}
}
