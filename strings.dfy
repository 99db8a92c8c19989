/** The Python string operations the modelled code relies on, restricted to
    ASCII: `str.lower`, `str.upper`, `str.title`, single-character
    `str.replace`, `str.strip`, slicing `s[:n]`, `str.startswith`, the
    substring test `a in b`, `str(n)` for naturals and the ordering of
    strings used by `sorted`. */
module Strings {

  predicate IsUpperChar(c: char) { 'A' <= c <= 'Z' }

  predicate IsLowerChar(c: char) { 'a' <= c <= 'z' }

  /** Python's "cased" characters, restricted to ASCII letters. */
  predicate IsCased(c: char) { IsUpperChar(c) || IsLowerChar(c) }

  function LowerChar(c: char): char {
    if IsUpperChar(c) then (c as int + 32) as char else c
  }

  function UpperChar(c: char): char {
    if IsLowerChar(c) then (c as int - 32) as char else c
  }

  /** `s.lower()` */
  function Lower(s: string): string {
    seq(|s|, i requires 0 <= i < |s| => LowerChar(s[i]))
  }

  /** `s.upper()` */
  function Upper(s: string): string {
    seq(|s|, i requires 0 <= i < |s| => UpperChar(s[i]))
  }

  /** `s.title()`: a cased character is upper-cased when it starts a run of
      cased characters and lower-cased otherwise. */
  function Title(s: string): string {
    seq(|s|, i requires 0 <= i < |s| =>
      if i == 0 || !IsCased(s[i - 1]) then UpperChar(s[i]) else LowerChar(s[i]))
  }

  /** `s.replace(a, b)` for one-character `a` and `b`. */
  function ReplaceChar(s: string, a: char, b: char): string {
    seq(|s|, i requires 0 <= i < |s| => if s[i] == a then b else s[i])
  }

  /** The ASCII characters for which Python's `str.isspace` holds. */
  predicate IsSpace(c: char) {
    c == ' ' || '\t' <= c <= '\r' || '\U{1C}' <= c <= '\U{1F}'
  }

  function StripLeft(s: string): string {
    if s != [] && IsSpace(s[0]) then StripLeft(s[1..]) else s
  }

  function StripRight(s: string): string {
    if s != [] && IsSpace(s[|s| - 1]) then StripRight(s[..|s| - 1]) else s
  }

  /** `s.strip()` */
  function Strip(s: string): string {
    StripRight(StripLeft(s))
  }

  /** Python `s[:n]`: a negative `n` counts from the end. */
  function Prefix(s: string, n: int): string {
    if n >= 0 then s[..if n <= |s| then n else |s|]
    else s[..if |s| + n >= 0 then |s| + n else 0]
  }

  /** `s.startswith(p)` */
  predicate StartsWith(s: string, p: string) {
    |p| <= |s| && s[..|p|] == p
  }

  /** Python's substring test `needle in hay`. */
  predicate Contains(hay: string, needle: string) {
    StartsWith(hay, needle) || (hay != [] && Contains(hay[1..], needle))
  }

  function DigitChar(d: nat): char
    requires d < 10
  {
    ('0' as int + d) as char
  }

  /** `str(n)` for a natural number. */
  function NatToString(n: nat): string {
    if n < 10 then [DigitChar(n)] else NatToString(n / 10) + [DigitChar(n % 10)]
  }

  /** `int(s)` for a string of decimal digits. */
  function ParseNat(s: string): nat {
    if s == [] then 0
    else ParseNat(s[..|s| - 1]) * 10 + (if '0' <= s[|s| - 1] <= '9' then s[|s| - 1] as int - '0' as int else 0)
  }

  /** `str(n)` is a non-empty string of decimal digits that reads back as `n`. */
  lemma {:induction false} NatToStringRoundTrip(n: nat)
    ensures NatToString(n) != [] && forall i | 0 <= i < |NatToString(n)| :: '0' <= NatToString(n)[i] <= '9'
    ensures ParseNat(NatToString(n)) == n
  {
    if n >= 10 {
      NatToStringRoundTrip(n / 10);
      var s := NatToString(n);
      assert s[..|s| - 1] == NatToString(n / 10);
    }
  }

  /** Python's `<` on strings: lexicographic by code point. */
  predicate StrLt(a: string, b: string) {
    if a == [] then b != []
    else if b == [] then false
    else if a[0] == b[0] then StrLt(a[1..], b[1..])
    else a[0] < b[0]
  }

  lemma LowerIdempotent(s: string)
    ensures Lower(Lower(s)) == Lower(s)
  {
  }

  /** Title-casing changes only the case of letters. */
  lemma LowerOfTitle(s: string)
    ensures Lower(Title(s)) == Lower(s)
  {
  }

  /** Lower-casing followed by a replacement whose target is not an upper-case
      letter is idempotent (the domain-name normalisation of record repair). */
  lemma LowerThenReplaceIdempotent(s: string, a: char, b: char)
    requires LowerChar(b) == b
    ensures ReplaceChar(Lower(ReplaceChar(Lower(s), a, b)), a, b) == ReplaceChar(Lower(s), a, b)
  {
    var once := ReplaceChar(Lower(s), a, b);
    forall i | 0 <= i < |s|
      ensures ReplaceChar(Lower(once), a, b)[i] == once[i]
    {
      if LowerChar(s[i]) != a {
        assert LowerChar(LowerChar(s[i])) == LowerChar(s[i]);
      }
    }
  }

  lemma {:induction false} StrLtIrreflexive(a: string)
    ensures !StrLt(a, a)
  {
    if a != [] {
      StrLtIrreflexive(a[1..]);
    }
  }

  lemma {:induction false} StrLtTransitive(a: string, b: string, c: string)
    requires StrLt(a, b) && StrLt(b, c)
    ensures StrLt(a, c)
  {
    if a != [] && b != [] && c != [] && a[0] == b[0] && b[0] == c[0] {
      StrLtTransitive(a[1..], b[1..], c[1..]);
    }
  }

  lemma {:induction false} StrLtTotal(a: string, b: string)
    requires a != b
    ensures StrLt(a, b) || StrLt(b, a)
  {
    if a != [] && b != [] && a[0] == b[0] {
      assert a == [a[0]] + a[1..] && b == [b[0]] + b[1..];
      StrLtTotal(a[1..], b[1..]);
    }
  }

  // ---------------------------------------------------------------- sorted()

  predicate StrictlySorted(s: seq<string>) {
    forall i, j | 0 <= i < j < |s| :: StrLt(s[i], s[j])
  }

  /** `m` is the least element of `s` in Python's string order. */
  predicate IsLeast(m: string, s: set<string>) {
    m in s && forall x | x in s :: x == m || StrLt(m, x)
  }

  lemma {:induction false} LeastExists(s: set<string>)
    requires s != {}
    ensures exists m :: IsLeast(m, s)
    decreases |s|
  {
    var x :| x in s;
    if s - {x} == {} {
      assert s == {x};
      assert IsLeast(x, s);
    } else {
      LeastExists(s - {x});
      var m :| IsLeast(m, s - {x});
      if StrLt(x, m) {
        forall y | y in s ensures y == x || StrLt(x, y) {
          if y != x && y != m { StrLtTransitive(x, m, y); }
        }
        assert IsLeast(x, s);
      } else {
        StrLtTotal(x, m);
        assert IsLeast(m, s);
      }
    }
  }

  lemma LeastUnique(m1: string, m2: string, s: set<string>)
    requires IsLeast(m1, s) && IsLeast(m2, s)
    ensures m1 == m2
  {
    if m1 != m2 {
      StrLtTransitive(m1, m2, m1);
      StrLtIrreflexive(m1);
    }
  }

  ghost function Least(s: set<string>): (m: string)
    requires s != {}
    ensures IsLeast(m, s)
  {
    LeastExists(s);
    var m :| IsLeast(m, s); m
  }

  /** A strictly sorted list has no repetitions. */
  lemma StrictlySortedDistinct(s: seq<string>)
    requires StrictlySorted(s)
    ensures forall i, j | 0 <= i < j < |s| :: s[i] != s[j]
  {
    forall i, j | 0 <= i < j < |s| ensures s[i] != s[j] {
      StrLtIrreflexive(s[i]);
    }
  }

  /** `sorted(s)` for a set of strings. */
  ghost function SortedOf(s: set<string>): (r: seq<string>)
    ensures StrictlySorted(r) && |r| == |s|
    ensures forall x :: x in r <==> x in s
    decreases |s|
  {
    if s == {} then []
    else
      var m := Least(s);
      var rest := SortedOf(s - {m});
      assert forall j | 0 <= j < |rest| :: StrLt(m, rest[j]) by {
        forall j | 0 <= j < |rest| ensures StrLt(m, rest[j]) {
          assert rest[j] in s - {m};
        }
      }
      [m] + rest
  }

  /** A strictly sorted list holding exactly the elements of a set is the
      sorted order of that set. */
  lemma {:induction false} SortedUnique(r: seq<string>, s: set<string>)
    requires StrictlySorted(r) && forall x :: x in r <==> x in s
    ensures r == SortedOf(s)
    decreases |r|
  {
    if r == [] {
      assert forall x :: x !in s;
    } else {
      var m := r[0];
      SortedHeadIsLeast(r, s);
      var tail := r[1..];
      assert StrictlySorted(tail) by {
        forall i, j | 0 <= i < j < |tail| ensures StrLt(tail[i], tail[j]) {
          assert tail[i] == r[i + 1] && tail[j] == r[j + 1];
        }
      }
      SortedTailElements(r, s);
      SortedUnique(tail, s - {m});
      LeastUnique(m, Least(s), s);
      assert SortedOf(s) == [m] + SortedOf(s - {m});
      assert r == [m] + tail;
    }
  }

  lemma SortedHeadIsLeast(r: seq<string>, s: set<string>)
    requires r != [] && StrictlySorted(r) && forall x :: x in r <==> x in s
    ensures IsLeast(r[0], s)
  {
    forall x | x in s ensures x == r[0] || StrLt(r[0], x) {
      var j :| 0 <= j < |r| && r[j] == x;
    }
  }

  lemma SortedTailElements(r: seq<string>, s: set<string>)
    requires r != [] && StrictlySorted(r) && forall x :: x in r <==> x in s
    ensures forall x :: x in r[1..] <==> x in s - {r[0]}
  {
    StrLtIrreflexive(r[0]);
    forall x ensures x in r[1..] <==> x in s - {r[0]} {
      if x in r[1..] {
        var j :| 0 <= j < |r[1..]| && r[1..][j] == x;
        assert r[j + 1] == x && StrLt(r[0], r[j + 1]);
      }
      if x in s - {r[0]} {
        var j :| 0 <= j < |r| && r[j] == x;
        assert r[1..][j - 1] == x;
      }
    }
  }

  /** Taking the least element off the front of the sorted order. */
  lemma SortedStep(r: seq<string>, s: set<string>, m: string)
    requires IsLeast(m, s)
    ensures (r + [m]) + SortedOf(s - {m}) == r + SortedOf(s)
  {
    LeastUnique(m, Least(s), s);
    assert SortedOf(s) == [m] + SortedOf(s - {m});
  }

  method PickLeast(s: set<string>) returns (m: string)
    requires s != {}
    ensures IsLeast(m, s)
  {
    LeastExists(s);
    m :| IsLeast(m, s);
  }

  /** Repeatedly takes the least remaining element. */
  method Sorted(s: set<string>) returns (r: seq<string>)
    ensures r == SortedOf(s)
  {
    var rest := s;
    r := [];
    while rest != {}
      invariant r + SortedOf(rest) == SortedOf(s)
      decreases |rest|
    {
      var m := PickLeast(rest);
      SortedStep(r, rest, m);
      r := r + [m];
      rest := rest - {m};
    }
  }
}
