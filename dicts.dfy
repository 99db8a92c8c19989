/** Python dictionaries with string keys. They keep insertion order, so a
    dictionary is a sequence of (key, value) pairs with distinct keys;
    assigning to a present key keeps its position and assigning to a new key
    appends it. */
module Dicts {
  import opened Optional

  /** An insertion-ordered dictionary with string keys. */
  type Dict<V> = seq<(string, V)>

  predicate IsDict<V>(d: Dict<V>) {
    forall i, j | 0 <= i < j < |d| :: d[i].0 != d[j].0
  }

  /** No string occurs twice in `ks`. */
  predicate Distinct(ks: seq<string>) {
    forall i, j | 0 <= i < j < |ks| :: ks[i] != ks[j]
  }

  /** `list(d.keys())` */
  function Keys<V>(d: Dict<V>): (r: seq<string>)
    ensures |r| == |d| && forall i | 0 <= i < |d| :: r[i] == d[i].0
  {
    seq(|d|, i requires 0 <= i < |d| => d[i].0)
  }

  /** `d.get(k)`: the value of the first entry with key `k`. */
  function Get<V>(d: Dict<V>, k: string): (r: Option<V>)
    ensures r.None? <==> forall i | 0 <= i < |d| :: d[i].0 != k
    ensures r.Some? ==> exists i | 0 <= i < |d| :: d[i] == (k, r.value) && forall j | 0 <= j < i :: d[j].0 != k
  {
    if d == [] then None
    else if d[0].0 == k then Some(d[0].1)
    else
      var r := Get(d[1..], k);
      assert r.Some? ==> exists i | 1 <= i < |d| :: d[i] == (k, r.value) && forall j | 0 <= j < i :: d[j].0 != k by {
        if r.Some? {
          var i :| 0 <= i < |d[1..]| && d[1..][i] == (k, r.value) && forall j | 0 <= j < i :: d[1..][j].0 != k;
          assert d[i + 1] == (k, r.value);
          forall j | 0 <= j < i + 1 ensures d[j].0 != k {
            if j > 0 { assert d[j] == d[1..][j - 1]; }
          }
        }
      }
      r
  }

  /** The first entry with a key is what `get` finds. */
  lemma GetFirst<V>(d: Dict<V>, i: int)
    requires 0 <= i < |d|
    requires forall j | 0 <= j < i :: d[j].0 != d[i].0
    ensures Get(d, d[i].0) == Some(d[i].1)
  {
    var r := Get(d, d[i].0);
    var n :| 0 <= n < |d| && d[n] == (d[i].0, r.value) && forall j | 0 <= j < n :: d[j].0 != d[i].0;
    assert n <= i;
  }

  /** The keys of `d` as a set. */
  function KeySetOf<V>(d: Dict<V>): (r: set<string>)
    ensures forall k :: k in r <==> exists i | 0 <= i < |d| :: d[i].0 == k
  {
    if d == [] then {}
    else
      assert forall i | 0 <= i < |d[1..]| :: d[1..][i] == d[i + 1];
      {d[0].0} + KeySetOf(d[1..])
  }

  /** A dictionary's key list decides whether its keys are distinct and
      which keys it has. */
  lemma KeysListed<V>(d: Dict<V>, ks: seq<string>)
    requires Keys(d) == ks
    ensures IsDict(d) <==> Distinct(ks)
    ensures forall k :: k in KeySetOf(d) <==> k in ks
  {
  }

  lemma KeySetOfAppend<V>(d: Dict<V>, k: string, v: V)
    ensures KeySetOf(d + [(k, v)]) == KeySetOf(d) + {k}
  {
    var d' := d + [(k, v)];
    assert d'[|d|].0 == k;
    forall x | x in KeySetOf(d') ensures x in KeySetOf(d) + {k} {
      var j :| 0 <= j < |d'| && d'[j].0 == x;
      if j < |d| { assert d[j].0 == x; }
    }
    forall x | x in KeySetOf(d) ensures x in KeySetOf(d') {
      var j :| 0 <= j < |d| && d[j].0 == x;
      assert d'[j].0 == x;
    }
  }

  /** The keys of a concatenation are the keys of its parts. */
  lemma KeySetOfConcat<V>(a: Dict<V>, b: Dict<V>)
    ensures KeySetOf(a + b) == KeySetOf(a) + KeySetOf(b)
  {
    var c := a + b;
    forall k | k in KeySetOf(c) ensures k in KeySetOf(a) + KeySetOf(b) {
      var j :| 0 <= j < |c| && c[j].0 == k;
      if j < |a| { assert a[j].0 == k; } else { assert b[j - |a|].0 == k; }
    }
    forall k | k in KeySetOf(a) + KeySetOf(b) ensures k in KeySetOf(c) {
      if k in KeySetOf(a) {
        var j :| 0 <= j < |a| && a[j].0 == k;
        assert c[j].0 == k;
      } else {
        var j :| 0 <= j < |b| && b[j].0 == k;
        assert c[|a| + j].0 == k;
      }
    }
  }

  /** A key is found exactly when it is one of the keys. */
  lemma GetPresent<V>(d: Dict<V>, k: string)
    ensures Get(d, k).Some? <==> k in KeySetOf(d)
  {
  }

  /** Two dictionaries with disjoint keys concatenate to a dictionary. */
  lemma AppendDisjointDicts<V>(a: Dict<V>, b: Dict<V>)
    requires IsDict(a) && IsDict(b)
    requires forall j | 0 <= j < |b| :: b[j].0 !in KeySetOf(a)
    ensures IsDict(a + b)
  {
    var c := a + b;
    forall i, j | 0 <= i < j < |c| ensures c[i].0 != c[j].0 {
      if j >= |a| {
        assert c[j] == b[j - |a|];
        if i >= |a| {
          assert c[i] == b[i - |a|];
        } else {
          assert c[i].0 in KeySetOf(a);
        }
      }
    }
  }

  /** In a dictionary, looking up a key finds its entry. */
  lemma GetEntry<V>(d: Dict<V>, i: int)
    requires IsDict(d) && 0 <= i < |d|
    ensures Get(d, d[i].0) == Some(d[i].1)
  {
    var r := Get(d, d[i].0);
    var n :| 0 <= n < |d| && d[n] == (d[i].0, r.value) && forall j | 0 <= j < n :: d[j].0 != d[i].0;
    assert n == i;
  }

  /** In a dictionary made of two parts, an entry of the second part is
      found under its key. */
  lemma GetInSuffix<V>(a: Dict<V>, b: Dict<V>, n: int)
    requires IsDict(a + b) && 0 <= n < |b|
    ensures Get(a + b, b[n].0) == Some(b[n].1)
  {
    assert (a + b)[|a| + n] == b[n];
    GetEntry(a + b, |a| + n);
  }

  /** `d[k] = v` */
  function Put<V>(d: Dict<V>, k: string, v: V): (r: Dict<V>)
    ensures Get(r, k) == Some(v)
    ensures forall k' | k' != k :: Get(r, k') == Get(d, k')
    ensures KeySetOf(r) == KeySetOf(d) + {k}
  {
    if d == [] then [(k, v)]
    else if d[0].0 == k then [(k, v)] + d[1..]
    else
      var rest := Put(d[1..], k, v);
      assert ([d[0]] + rest)[1..] == rest;
      [d[0]] + rest
  }

  /** The entries after the first form a dictionary without the first key. */
  lemma TailIsDict<V>(d: Dict<V>)
    requires IsDict(d) && d != []
    ensures IsDict(d[1..]) && d[0].0 !in KeySetOf(d[1..])
  {
    var tail := d[1..];
    forall i, j | 0 <= i < j < |tail| ensures tail[i].0 != tail[j].0 {
      assert tail[i] == d[i + 1] && tail[j] == d[j + 1];
    }
    forall i | 0 <= i < |tail| ensures tail[i].0 != d[0].0 {
      assert tail[i] == d[i + 1];
    }
  }

  /** Assignment keeps the keys distinct. */
  lemma {:induction false} PutIsDict<V>(d: Dict<V>, k: string, v: V)
    requires IsDict(d)
    ensures IsDict(Put(d, k, v))
  {
    if d != [] && d[0].0 != k {
      var tail := d[1..];
      TailIsDict(d);
      PutIsDict(tail, k, v);
      var rest := Put(tail, k, v);
      assert KeySetOf([d[0]]) == {d[0].0};
      forall j | 0 <= j < |rest| ensures rest[j].0 !in KeySetOf([d[0]]) {
        assert rest[j].0 in KeySetOf(rest);
      }
      AppendDisjointDicts([d[0]], rest);
    }
  }

  /** Assigning to a present key keeps every key in its position. */
  lemma {:induction false} PutPresentKeys<V>(d: Dict<V>, k: string, v: V)
    requires Get(d, k).Some?
    ensures |Put(d, k, v)| == |d| && forall i | 0 <= i < |d| :: Put(d, k, v)[i].0 == d[i].0
  {
    if d[0].0 != k {
      var rest := Put(d[1..], k, v);
      PutPresentKeys(d[1..], k, v);
      assert Put(d, k, v) == [d[0]] + rest;
      forall i | 1 <= i < |d| ensures Put(d, k, v)[i].0 == d[i].0 {
        assert Put(d, k, v)[i] == rest[i - 1];
        assert d[1..][i - 1] == d[i];
      }
    }
  }

  /** Two assignments to present keys keep every key in its position. */
  lemma PutTwiceKeys<V>(d: Dict<V>, a: string, va: V, b: string, vb: V)
    requires Get(d, a).Some? && Get(d, b).Some?
    ensures var r := Put(Put(d, a, va), b, vb);
      |r| == |d| && forall i | 0 <= i < |d| :: r[i].0 == d[i].0
  {
    PutPresentKeys(d, a, va);
    PutPresentKeys(Put(d, a, va), b, vb);
  }

  /** Two assignments keep the keys distinct. */
  lemma PutTwiceIsDict<V>(d: Dict<V>, a: string, va: V, b: string, vb: V)
    requires IsDict(d)
    ensures IsDict(Put(Put(d, a, va), b, vb))
  {
    PutIsDict(d, a, va);
    PutIsDict(Put(d, a, va), b, vb);
  }

  /** A second assignment to a key overrides the first. */
  lemma {:induction false} PutOverwrite<V>(d: Dict<V>, k: string, a: V, b: V)
    ensures Put(Put(d, k, a), k, b) == Put(d, k, b)
  {
    if d != [] && d[0].0 != k {
      PutOverwrite(d[1..], k, a, b);
      assert Put(d, k, a)[1..] == Put(d[1..], k, a);
    }
  }

  /** Assigning the value a key already has changes nothing. */
  lemma {:induction false} PutSame<V>(d: Dict<V>, k: string, v: V)
    requires IsDict(d) && Get(d, k) == Some(v)
    ensures Put(d, k, v) == d
  {
    if d[0].0 != k {
      TailIsDict(d);
      PutSame(d[1..], k, v);
    }
  }

  /** Assigning to a present key replaces its entry in place. */
  lemma {:induction false} PutAt<V>(d: Dict<V>, j: int, v: V)
    requires IsDict(d) && 0 <= j < |d|
    ensures Put(d, d[j].0, v) == d[j := (d[j].0, v)]
  {
    var k := d[j].0;
    if j > 0 {
      assert d[0].0 != k;
      TailIsDict(d);
      var tail := d[1..];
      assert tail[j - 1] == d[j];
      PutAt(tail, j - 1, v);
      assert Put(d, k, v) == [d[0]] + Put(tail, k, v);
      UpdateCons(d, j, (k, v));
    }
  }

  lemma UpdateCons<T>(s: seq<T>, j: int, y: T)
    requires 0 < j < |s|
    ensures s[j := y] == [s[0]] + s[1..][j - 1 := y]
  {
  }

  /** Assigning to a missing key appends an entry. */
  lemma {:induction false} PutAbsent<V>(d: Dict<V>, k: string, v: V)
    requires Get(d, k).None?
    ensures Put(d, k, v) == d + [(k, v)]
  {
    if d != [] {
      var tail := d[1..];
      assert d[0].0 != k;
      assert Get(tail, k).None? by {
        forall i | 0 <= i < |tail| ensures tail[i].0 != k {
          assert tail[i] == d[i + 1];
        }
      }
      PutAbsent(tail, k, v);
      assert Put(d, k, v) == [d[0]] + Put(tail, k, v);
      ConsSnoc(d, (k, v));
    }
  }

  lemma ConsSnoc<T>(s: seq<T>, y: T)
    requires s != []
    ensures [s[0]] + (s[1..] + [y]) == s + [y]
  {
  }

  /** A key of a prefix is found there in the whole. */
  lemma {:induction false} GetPrefix<V>(a: Dict<V>, b: Dict<V>, k: string)
    requires a <= b && Get(a, k).Some?
    ensures Get(b, k) == Get(a, k)
  {
    if a[0].0 != k {
      assert a[1..] <= b[1..];
      GetPrefix(a[1..], b[1..], k);
    }
  }

  /** `for k in keys: d[k] = f(k)`, starting from the empty dictionary. */
  function PutEach<V>(keys: seq<string>, f: string -> V): Dict<V> {
    if keys == [] then [] else Put(PutEach(keys[..|keys| - 1], f), keys[|keys| - 1], f(keys[|keys| - 1]))
  }

  /** Every key gets its value, and no other key is present. */
  lemma {:induction false} PutEachCover<V>(keys: seq<string>, f: string -> V)
    ensures forall x :: x in KeySetOf(PutEach(keys, f)) <==> x in keys
    ensures forall j | 0 <= j < |keys| :: Get(PutEach(keys, f), keys[j]) == Some(f(keys[j]))
  {
    if keys != [] {
      var init := keys[..|keys| - 1];
      var last := keys[|keys| - 1];
      PutEachCover(init, f);
      assert keys == init + [last];
      forall j | 0 <= j < |keys| ensures Get(PutEach(keys, f), keys[j]) == Some(f(keys[j])) {
        if keys[j] != last {
          assert init[j] == keys[j];
        }
      }
    }
  }

  lemma PutEachStep<V>(keys: seq<string>, f: string -> V, i: int)
    requires 0 <= i < |keys|
    ensures PutEach(keys[..i + 1], f) == Put(PutEach(keys[..i], f), keys[i], f(keys[i]))
  {
    assert keys[..i + 1][..i] == keys[..i];
  }
}
