/** Sequence and map combinators shared by the model: list comprehensions with
    a condition (`Filter`), element-wise maps (`MapSeq`), order-preserving
    deduplication that keeps the first occurrence of every key (`DedupFrom`,
    the `seen`-set loops of the source), and a row of dictionary assignments in
    which a later assignment to the same key wins (`Assign`). */
module Seqs {

  /** `[x for x in s if p(x)]` */
  function Filter<T>(s: seq<T>, p: T -> bool): seq<T> {
    if s == [] then [] else (if p(s[0]) then [s[0]] else []) + Filter(s[1..], p)
  }

  /** `[x for x in s if key(x) == k]` */
  function FilterEq<T, K(==)>(s: seq<T>, key: T -> K, k: K): seq<T> {
    if s == [] then [] else (if key(s[0]) == k then [s[0]] else []) + FilterEq(s[1..], key, k)
  }

  /** The selection mask of `FilterEq`. */
  function EqMask<T, K(==)>(s: seq<T>, key: T -> K, k: K): (m: seq<bool>)
    ensures |m| == |s|
  {
    if s == [] then [] else [key(s[0]) == k] + EqMask(s[1..], key, k)
  }

  /** `[f(x) for x in s]` */
  function MapSeq<T, U>(s: seq<T>, f: T -> U): seq<U> {
    seq(|s|, i requires 0 <= i < |s| => f(s[i]))
  }

  /** The elements of `s` whose flag in `m` is set, in order. */
  function Select<T>(s: seq<T>, m: seq<bool>): seq<T>
    requires |m| == |s|
  {
    if s == [] then [] else (if m[0] then [s[0]] else []) + Select(s[1..], m[1..])
  }

  /** `t` is an order-preserving subsequence of `s`. */
  ghost predicate IsSubsequence<T>(t: seq<T>, s: seq<T>) {
    exists m: seq<bool> :: |m| == |s| && Select(s, m) == t
  }

  function KeySet<T, K>(s: seq<T>, key: T -> K): set<K> {
    set i | 0 <= i < |s| :: key(s[i])
  }

  predicate DistinctKeys<T, K(==)>(s: seq<T>, key: T -> K) {
    forall i, j | 0 <= i < j < |s| :: key(s[i]) != key(s[j])
  }

  /** `s[i]` is the first element of `s` with its key. */
  predicate FirstWithKey<T, K(==)>(s: seq<T>, key: T -> K, i: int)
    requires 0 <= i < |s|
  {
    forall j | 0 <= j < i :: key(s[j]) != key(s[i])
  }

  /** The loop `for x in s: if key(x) not in seen: seen.add(key(x)); out.append(x)`
      started with the given `seen` set. */
  function DedupFrom<T, K(==)>(s: seq<T>, key: T -> K, seen: set<K>): seq<T> {
    if s == [] then []
    else if key(s[0]) in seen then DedupFrom(s[1..], key, seen)
    else [s[0]] + DedupFrom(s[1..], key, seen + {key(s[0])})
  }

  /** Which elements `DedupFrom` keeps. */
  function DedupMask<T, K(==)>(s: seq<T>, key: T -> K, seen: set<K>): (m: seq<bool>)
    ensures |m| == |s|
  {
    if s == [] then []
    else if key(s[0]) in seen then [false] + DedupMask(s[1..], key, seen)
    else [true] + DedupMask(s[1..], key, seen + {key(s[0])})
  }

  /** Consecutive dictionary assignments `m[k] = v` for each `(k, v)` in order. */
  function Assign<K, V>(m: map<K, V>, entries: seq<(K, V)>): map<K, V>
    decreases |entries|
  {
    if entries == [] then m else Assign(m[entries[0].0 := entries[0].1], entries[1..])
  }

  lemma PrefixStep<T>(s: seq<T>, i: int)
    requires 0 <= i < |s|
    ensures s[..i + 1] == s[..i] + [s[i]]
  {
  }

  lemma AppendAssoc<T>(a: seq<T>, b: seq<T>, c: seq<T>)
    ensures (a + b) + c == a + (b + c)
  {
  }

  // ---------------------------------------------------------------- Filter

  lemma {:induction false} FilterAppend<T>(a: seq<T>, b: seq<T>, p: T -> bool)
    ensures Filter(a + b, p) == Filter(a, p) + Filter(b, p)
  {
    if a == [] {
      assert a + b == b;
    } else {
      var h := if p(a[0]) then [a[0]] else [];
      assert (a + b)[0] == a[0] && (a + b)[1..] == a[1..] + b;
      assert Filter(a + b, p) == h + Filter(a[1..] + b, p);
      FilterAppend(a[1..], b, p);
      assert h + (Filter(a[1..], p) + Filter(b, p)) == (h + Filter(a[1..], p)) + Filter(b, p);
    }
  }

  lemma {:induction false} FilterMembers<T>(s: seq<T>, p: T -> bool)
    ensures forall x :: x in Filter(s, p) <==> x in s && p(x)
  {
    if s != [] {
      FilterMembers(s[1..], p);
      assert s == [s[0]] + s[1..];
    }
  }

  lemma {:induction false} FilterLength<T>(s: seq<T>, p: T -> bool)
    ensures |Filter(s, p)| <= |s|
  {
    if s != [] {
      FilterLength(s[1..], p);
    }
  }

  lemma {:induction false} FilterKeepsAll<T>(s: seq<T>, p: T -> bool)
    requires forall i | 0 <= i < |s| :: p(s[i])
    ensures Filter(s, p) == s
  {
    if s != [] {
      FilterKeepsAll(s[1..], p);
    }
  }

  /** Two conditions that agree on every element select the same elements. */
  lemma {:induction false} FilterCongruent<T>(s: seq<T>, p: T -> bool, q: T -> bool)
    requires forall i | 0 <= i < |s| :: p(s[i]) == q(s[i])
    ensures Filter(s, p) == Filter(s, q)
  {
    if s != [] {
      FilterCongruent(s[1..], p, q);
    }
  }

  lemma {:induction false} FilterSubsequence<T>(s: seq<T>, p: T -> bool)
    ensures IsSubsequence(Filter(s, p), s)
  {
    var m := MapSeq(s, p);
    FilterAsSelect(s, p);
    assert |m| == |s| && Select(s, m) == Filter(s, p);
  }

  lemma {:induction false} FilterAsSelect<T>(s: seq<T>, p: T -> bool)
    ensures Select(s, MapSeq(s, p)) == Filter(s, p)
  {
    if s != [] {
      assert MapSeq(s, p)[1..] == MapSeq(s[1..], p);
      FilterAsSelect(s[1..], p);
    }
  }

  // ---------------------------------------------------------------- FilterEq

  lemma {:induction false} FilterEqMembers<T, K>(s: seq<T>, key: T -> K, k: K)
    ensures forall x :: x in FilterEq(s, key, k) <==> x in s && key(x) == k
  {
    if s != [] {
      FilterEqMembers(s[1..], key, k);
      assert s == [s[0]] + s[1..];
    }
  }

  lemma {:induction false} FilterEqAsSelect<T, K>(s: seq<T>, key: T -> K, k: K)
    ensures Select(s, EqMask(s, key, k)) == FilterEq(s, key, k)
  {
    if s != [] {
      FilterEqAsSelect(s[1..], key, k);
    }
  }

  lemma {:induction false} FilterEqAppend<T, K>(a: seq<T>, b: seq<T>, key: T -> K, k: K)
    ensures FilterEq(a + b, key, k) == FilterEq(a, key, k) + FilterEq(b, key, k)
  {
    if a == [] {
      assert a + b == b;
    } else {
      var h := if key(a[0]) == k then [a[0]] else [];
      assert (a + b)[0] == a[0] && (a + b)[1..] == a[1..] + b;
      assert FilterEq(a + b, key, k) == h + FilterEq(a[1..] + b, key, k);
      FilterEqAppend(a[1..], b, key, k);
      assert h + (FilterEq(a[1..], key, k) + FilterEq(b, key, k)) == (h + FilterEq(a[1..], key, k)) + FilterEq(b, key, k);
    }
  }

  /** The first element `FilterEq` keeps is the first element with the key. */
  lemma {:induction false} FilterEqFirst<T, K>(s: seq<T>, key: T -> K, k: K)
    ensures FilterEq(s, key, k) == [] <==> forall i | 0 <= i < |s| :: key(s[i]) != k
    ensures FilterEq(s, key, k) != [] ==> exists i | 0 <= i < |s| ::
      key(s[i]) == k && FilterEq(s, key, k)[0] == s[i] && forall j | 0 <= j < i :: key(s[j]) != k
  {
    if s != [] {
      FilterEqFirst(s[1..], key, k);
      if key(s[0]) != k {
        if FilterEq(s[1..], key, k) != [] {
          var i :| 0 <= i < |s[1..]| && key(s[1..][i]) == k && FilterEq(s[1..], key, k)[0] == s[1..][i] && forall j | 0 <= j < i :: key(s[1..][j]) != k;
          assert key(s[i + 1]) == k && FilterEq(s, key, k)[0] == s[i + 1];
          forall j | 0 <= j < i + 1 ensures key(s[j]) != k {
            if j > 0 { assert s[j] == s[1..][j - 1]; }
          }
        } else {
          forall i | 0 <= i < |s| ensures key(s[i]) != k {
            if i > 0 { assert s[i] == s[1..][i - 1]; }
          }
        }
      }
    }
  }

  /** One step of `FilterEq` at position `i` of a list. */
  lemma FilterEqStep<T, K>(s: seq<T>, key: T -> K, k: K, i: int)
    requires 0 <= i < |s|
    ensures FilterEq(s[i..], key, k) == (if key(s[i]) == k then [s[i]] else []) + FilterEq(s[i + 1..], key, k)
  {
    assert s[i..][1..] == s[i + 1..];
  }

  /** The item as the filter keeps it: alone, or not at all. */
  function KeepIf<T, K(==)>(x: T, key: T -> K, k: K): seq<T> {
    if key(x) == k then [x] else []
  }

  /** `FilterEq` on a list of five, item by item. */
  lemma FilterEqFive<T, K>(s: seq<T>, key: T -> K, k: K)
    requires |s| == 5
    ensures FilterEq(s, key, k) ==
      KeepIf(s[0], key, k) + (KeepIf(s[1], key, k) + (KeepIf(s[2], key, k) + (KeepIf(s[3], key, k) + KeepIf(s[4], key, k))))
  {
    var s1 := s[1..];
    var s2 := s1[1..];
    var s3 := s2[1..];
    var s4 := s3[1..];
    assert s4[1..] == [];
    assert FilterEq(s4, key, k) == KeepIf(s[4], key, k);
    assert FilterEq(s3, key, k) == KeepIf(s[3], key, k) + FilterEq(s4, key, k);
    assert FilterEq(s2, key, k) == KeepIf(s[2], key, k) + FilterEq(s3, key, k);
    assert FilterEq(s1, key, k) == KeepIf(s[1], key, k) + FilterEq(s2, key, k);
  }

  /** `FilterEq` on a list of seven, item by item. */
  lemma FilterEqSeven<T, K>(s: seq<T>, key: T -> K, k: K)
    requires |s| == 7
    ensures FilterEq(s, key, k) ==
      KeepIf(s[0], key, k) + (KeepIf(s[1], key, k) + FilterEq(s[2..], key, k))
    ensures FilterEq(s[2..], key, k) ==
      KeepIf(s[2], key, k) + (KeepIf(s[3], key, k) + (KeepIf(s[4], key, k) + (KeepIf(s[5], key, k) + KeepIf(s[6], key, k))))
  {
    var s1 := s[1..];
    assert s1[1..] == s[2..];
    assert FilterEq(s1, key, k) == KeepIf(s[1], key, k) + FilterEq(s[2..], key, k);
    FilterEqFive(s[2..], key, k);
  }

  /** The filter keeps the order of the list it filters. */
  lemma FilterEqSubsequence<T, K>(s: seq<T>, key: T -> K, k: K)
    ensures IsSubsequence(FilterEq(s, key, k), s)
  {
    FilterEqAsSelect(s, key, k);
  }

  lemma {:induction false} FilterEqLength<T, K>(s: seq<T>, key: T -> K, k: K)
    ensures |FilterEq(s, key, k)| <= |s|
  {
    if s != [] {
      FilterEqLength(s[1..], key, k);
    }
  }

  /** Filtering by two different values selects disjoint parts of the list. */
  lemma {:induction false} FilterEqDisjoint<T, K>(s: seq<T>, key: T -> K, a: K, b: K)
    requires a != b
    ensures |FilterEq(s, key, a)| + |FilterEq(s, key, b)| <= |s|
  {
    if s != [] {
      FilterEqDisjoint(s[1..], key, a, b);
    }
  }

  /** Filtering by each of three distinct values that every key takes splits the list. */
  lemma {:induction false} FilterEqPartition3<T, K>(s: seq<T>, key: T -> K, a: K, b: K, c: K)
    requires a != b && b != c && a != c
    requires forall i | 0 <= i < |s| :: key(s[i]) == a || key(s[i]) == b || key(s[i]) == c
    ensures |FilterEq(s, key, a)| + |FilterEq(s, key, b)| + |FilterEq(s, key, c)| == |s|
  {
    if s != [] {
      FilterEqPartition3(s[1..], key, a, b, c);
    }
  }

  /** The same for four distinct values. */
  lemma {:induction false} FilterEqPartition4<T, K>(s: seq<T>, key: T -> K, a: K, b: K, c: K, d: K)
    requires a != b && a != c && a != d && b != c && b != d && c != d
    requires forall i | 0 <= i < |s| :: key(s[i]) == a || key(s[i]) == b || key(s[i]) == c || key(s[i]) == d
    ensures |FilterEq(s, key, a)| + |FilterEq(s, key, b)| + |FilterEq(s, key, c)| + |FilterEq(s, key, d)| == |s|
  {
    if s != [] {
      FilterEqPartition4(s[1..], key, a, b, c, d);
    }
  }

  // ---------------------------------------------------------------- MapSeq

  lemma MapSeqAppend<T, U>(a: seq<T>, b: seq<T>, f: T -> U)
    ensures MapSeq(a + b, f) == MapSeq(a, f) + MapSeq(b, f)
  {
  }

  // ---------------------------------------------------------------- DedupFrom

  /** Appending nothing, or to nothing, changes nothing. */
  lemma AppendEmpty<T>(s: seq<T>)
    ensures [] + s == s && s + [] == s
  {
  }

  /** A single item is always kept. */
  lemma DedupSingleton<T, K>(x: T, key: T -> K)
    ensures DedupFrom([x], key, {}) == [x]
  {
    assert [x][1..] == [];
  }

  /** One step of a loop that keeps the first item of every key: `acc` holds
      what was kept from `s[..i]` and `seen` the keys met so far. */
  lemma DedupLoopStep<T, K>(s: seq<T>, key: T -> K, i: int, seen: set<K>, acc: seq<T>, goal: seq<T>)
    requires 0 <= i < |s|
    requires acc + DedupFrom(s[i..], key, seen) == goal
    ensures key(s[i]) in seen ==> acc + DedupFrom(s[i + 1..], key, seen) == goal
    ensures key(s[i]) !in seen ==> (acc + [s[i]]) + DedupFrom(s[i + 1..], key, seen + {key(s[i])}) == goal
  {
    assert s[i..][1..] == s[i + 1..];
  }

  lemma {:induction false} DedupAsSelect<T, K>(s: seq<T>, key: T -> K, seen: set<K>)
    ensures Select(s, DedupMask(s, key, seen)) == DedupFrom(s, key, seen)
  {
    if s != [] {
      if key(s[0]) in seen {
        DedupAsSelect(s[1..], key, seen);
      } else {
        DedupAsSelect(s[1..], key, seen + {key(s[0])});
      }
    }
  }

  /** The result is an order-preserving subsequence of the input. */
  lemma DedupSubsequence<T, K>(s: seq<T>, key: T -> K, seen: set<K>)
    ensures IsSubsequence(DedupFrom(s, key, seen), s)
  {
    DedupAsSelect(s, key, seen);
  }

  /** The keys of a non-empty sequence: its head's key and its tail's keys. */
  lemma KeySetHead<T, K>(s: seq<T>, key: T -> K)
    requires s != []
    ensures KeySet(s, key) == {key(s[0])} + KeySet(s[1..], key)
  {
    forall x | x in KeySet(s, key) ensures x in {key(s[0])} + KeySet(s[1..], key) {
      var i :| 0 <= i < |s| && key(s[i]) == x;
      if i > 0 { assert key(s[1..][i - 1]) == x; }
    }
    forall x | x in KeySet(s[1..], key) ensures x in KeySet(s, key) {
      var i :| 0 <= i < |s[1..]| && key(s[1..][i]) == x;
      assert key(s[i + 1]) == x;
    }
  }

  /** Kept keys are pairwise distinct, avoid `seen`, and are exactly the keys
      of the input that were not already seen. */
  lemma {:induction false} DedupKeys<T, K>(s: seq<T>, key: T -> K, seen: set<K>)
    ensures DistinctKeys(DedupFrom(s, key, seen), key)
    ensures forall i | 0 <= i < |DedupFrom(s, key, seen)| :: key(DedupFrom(s, key, seen)[i]) !in seen
    ensures KeySet(DedupFrom(s, key, seen), key) == KeySet(s, key) - seen
  {
    if s != [] {
      var k := key(s[0]);
      KeySetHead(s, key);
      if k in seen {
        DedupKeys(s[1..], key, seen);
      } else {
        var rest := DedupFrom(s[1..], key, seen + {k});
        DedupKeys(s[1..], key, seen + {k});
        var r := [s[0]] + rest;
        assert r == DedupFrom(s, key, seen);
        forall i, j | 0 <= i < j < |r| ensures key(r[i]) != key(r[j]) {
          if i > 0 {
            assert r[i] == rest[i - 1] && r[j] == rest[j - 1];
          } else {
            assert r[j] == rest[j - 1];
          }
        }
        KeySetHead(r, key);
        assert r[1..] == rest;
      }
    }
  }

  /** Every first occurrence of a key not already seen is kept. */
  lemma {:induction false} DedupKeepsFirst<T, K>(s: seq<T>, key: T -> K, seen: set<K>, i: int)
    requires 0 <= i < |s| && key(s[i]) !in seen && FirstWithKey(s, key, i)
    ensures s[i] in DedupFrom(s, key, seen)
  {
    if i > 0 {
      var k := key(s[0]);
      assert k != key(s[i]);
      var seen' := if k in seen then seen else seen + {k};
      assert FirstWithKey(s[1..], key, i - 1) by {
        forall j | 0 <= j < i - 1 ensures key(s[1..][j]) != key(s[1..][i - 1]) {
          assert s[1..][j] == s[j + 1];
        }
      }
      DedupKeepsFirst(s[1..], key, seen', i - 1);
    }
  }

  /** Each kept element is the first occurrence of its key. */
  lemma {:induction false} DedupOnlyFirst<T, K>(s: seq<T>, key: T -> K, seen: set<K>, x: T)
    requires x in DedupFrom(s, key, seen)
    ensures exists i | 0 <= i < |s| :: s[i] == x && FirstWithKey(s, key, i)
  {
    var k := key(s[0]);
    var rest := if k in seen then DedupFrom(s[1..], key, seen) else DedupFrom(s[1..], key, seen + {k});
    if k !in seen && x == s[0] {
      assert FirstWithKey(s, key, 0);
    } else {
      assert x in rest;
      var seen' := if k in seen then seen else seen + {k};
      DedupOnlyFirst(s[1..], key, seen', x);
      var i :| 0 <= i < |s[1..]| && s[1..][i] == x && FirstWithKey(s[1..], key, i);
      DedupKeys(s[1..], key, seen');
      var r := DedupFrom(s[1..], key, seen');
      var n :| 0 <= n < |r| && r[n] == x;
      assert key(x) !in seen';
      assert key(x) != k;
      assert FirstWithKey(s, key, i + 1) by {
        forall j | 0 <= j < i + 1 ensures key(s[j]) != key(s[i + 1]) {
          if j > 0 { assert s[j] == s[1..][j - 1]; }
        }
      }
    }
  }

  /** A sequence whose keys are distinct and unseen is left unchanged. */
  lemma {:induction false} DedupIdentity<T, K>(s: seq<T>, key: T -> K, seen: set<K>)
    requires DistinctKeys(s, key)
    requires forall i | 0 <= i < |s| :: key(s[i]) !in seen
    ensures DedupFrom(s, key, seen) == s
  {
    if s != [] {
      var k := key(s[0]);
      forall i | 0 <= i < |s[1..]| ensures key(s[1..][i]) !in seen + {k} {
        assert s[1..][i] == s[i + 1];
      }
      assert DistinctKeys(s[1..], key) by {
        forall i, j | 0 <= i < j < |s[1..]| ensures key(s[1..][i]) != key(s[1..][j]) {
          assert s[1..][i] == s[i + 1] && s[1..][j] == s[j + 1];
        }
      }
      DedupIdentity(s[1..], key, seen + {k});
    }
  }

  /** Deduplicating a concatenation deduplicates the first part, then the second
      part against everything the first part holds. */
  lemma {:induction false} DedupAppend<T, K>(a: seq<T>, b: seq<T>, key: T -> K, seen: set<K>)
    ensures DedupFrom(a + b, key, seen) == DedupFrom(a, key, seen) + DedupFrom(b, key, seen + KeySet(a, key))
  {
    if a == [] {
      assert a + b == b;
      assert KeySet(a, key) == {};
      assert seen + KeySet(a, key) == seen;
    } else {
      var k := key(a[0]);
      assert (a + b)[1..] == a[1..] + b;
      assert (a + b)[0] == a[0];
      var seen' := if k in seen then seen else seen + {k};
      DedupAppend(a[1..], b, key, seen');
      assert KeySet(a, key) == {k} + KeySet(a[1..], key) by {
        forall x | x in KeySet(a, key) ensures x in {k} + KeySet(a[1..], key) {
          var i :| 0 <= i < |a| && key(a[i]) == x;
          if i > 0 { assert key(a[1..][i - 1]) == x; }
        }
        forall x | x in KeySet(a[1..], key) ensures x in KeySet(a, key) {
          var i :| 0 <= i < |a[1..]| && key(a[1..][i]) == x;
          assert key(a[i + 1]) == x;
        }
      }
      assert seen' + KeySet(a[1..], key) == seen + KeySet(a, key);
    }
  }

  /** Deduplication is idempotent. */
  lemma DedupIdempotent<T, K>(s: seq<T>, key: T -> K, seen: set<K>)
    ensures DedupFrom(DedupFrom(s, key, seen), key, seen) == DedupFrom(s, key, seen)
  {
    DedupKeys(s, key, seen);
    DedupIdentity(DedupFrom(s, key, seen), key, seen);
  }

  /** Keys that the input never has do not affect what is kept. */
  lemma {:induction false} DedupIgnoresUnseen<T, K>(s: seq<T>, key: T -> K, seen: set<K>, extra: set<K>)
    requires forall i | 0 <= i < |s| :: key(s[i]) !in extra
    ensures DedupFrom(s, key, seen + extra) == DedupFrom(s, key, seen)
  {
    if s != [] {
      var k := key(s[0]);
      assert k !in extra;
      forall i | 0 <= i < |s[1..]| ensures key(s[1..][i]) !in extra {
        assert s[1..][i] == s[i + 1];
      }
      if k in seen {
        DedupIgnoresUnseen(s[1..], key, seen, extra);
      } else {
        assert seen + extra + {k} == (seen + {k}) + extra;
        DedupIgnoresUnseen(s[1..], key, seen + {k}, extra);
      }
    }
  }

  // ---------------------------------------------------------------- Assign

  /** One more assignment at the end. */
  lemma {:induction false} AssignSnoc<K, V>(m: map<K, V>, entries: seq<(K, V)>, k: K, v: V)
    decreases |entries|
    ensures Assign(m, entries + [(k, v)]) == Assign(m, entries)[k := v]
  {
    if entries == [] {
      assert entries + [(k, v)] == [(k, v)];
    } else {
      assert (entries + [(k, v)])[1..] == entries[1..] + [(k, v)];
      AssignSnoc(m[entries[0].0 := entries[0].1], entries[1..], k, v);
    }
  }

  /** The keys after the assignments are the old keys and every assigned key. */
  lemma {:induction false} AssignKeys<K, V>(m: map<K, V>, entries: seq<(K, V)>)
    decreases |entries|
    ensures forall k :: k in Assign(m, entries) <==> k in m || exists j | 0 <= j < |entries| :: entries[j].0 == k
  {
    if entries != [] {
      var e := entries;
      AssignKeys(m[e[0].0 := e[0].1], e[1..]);
      forall k ensures k in Assign(m, e) <==> k in m || exists j | 0 <= j < |e| :: e[j].0 == k {
        if exists j | 0 <= j < |e| :: e[j].0 == k {
          var j :| 0 <= j < |e| && e[j].0 == k;
          if j > 0 { assert e[1..][j - 1].0 == k; }
        }
        if exists j | 0 <= j < |e[1..]| :: e[1..][j].0 == k {
          var j :| 0 <= j < |e[1..]| && e[1..][j].0 == k;
          assert e[j + 1].0 == k;
        }
      }
    }
  }

  /** An assignment that no later assignment overrides determines the value. */
  lemma {:induction false} AssignLastWins<K, V>(m: map<K, V>, entries: seq<(K, V)>, i: int)
    decreases |entries|
    requires 0 <= i < |entries|
    requires forall j | i < j < |entries| :: entries[j].0 != entries[i].0
    ensures entries[i].0 in Assign(m, entries) && Assign(m, entries)[entries[i].0] == entries[i].1
  {
    var m' := m[entries[0].0 := entries[0].1];
    if i == 0 {
      AssignUntouched(m', entries[1..], entries[0].0);
    } else {
      forall j | i - 1 < j < |entries[1..]| ensures entries[1..][j].0 != entries[1..][i - 1].0 {
        assert entries[1..][j] == entries[j + 1];
      }
      AssignLastWins(m', entries[1..], i - 1);
    }
  }

  /** When every assignment writes the same value, every assigned key ends
      with that value. */
  lemma {:induction false} AssignConstant<K, V>(m: map<K, V>, entries: seq<(K, V)>, v: V)
    decreases |entries|
    requires forall j | 0 <= j < |entries| :: entries[j].1 == v
    ensures forall j | 0 <= j < |entries| :: entries[j].0 in Assign(m, entries) && Assign(m, entries)[entries[j].0] == v
  {
    if entries != [] {
      var m' := m[entries[0].0 := entries[0].1];
      var rest := entries[1..];
      AssignConstant(m', rest, v);
      forall j | 0 <= j < |entries| ensures entries[j].0 in Assign(m, entries) && Assign(m, entries)[entries[j].0] == v {
        if j > 0 {
          assert entries[j] == rest[j - 1];
        } else if exists k | 0 <= k < |rest| :: rest[k].0 == entries[0].0 {
          var k :| 0 <= k < |rest| && rest[k].0 == entries[0].0;
        } else {
          AssignUntouched(m', rest, entries[0].0);
        }
      }
    }
  }

  /** A key that is never assigned keeps its old value. */
  lemma {:induction false} AssignUntouched<K, V>(m: map<K, V>, entries: seq<(K, V)>, k: K)
    decreases |entries|
    requires k in m
    requires forall j | 0 <= j < |entries| :: entries[j].0 != k
    ensures k in Assign(m, entries) && Assign(m, entries)[k] == m[k]
  {
    if entries != [] {
      forall j | 0 <= j < |entries[1..]| ensures entries[1..][j].0 != k {
        assert entries[1..][j] == entries[j + 1];
      }
      AssignUntouched(m[entries[0].0 := entries[0].1], entries[1..], k);
    }
  }
}
