/** Sequence operations shared by the models: the slicing forms of JavaScript and
    Python, order-preserving filtering, and counting by key. */
module Seqs {
  import opened Wrappers

  function Min(a: int, b: int): int { if a <= b then a else b }
  function Max(a: int, b: int): int { if a >= b then a else b }

  /** `s.slice(0, n)` in JavaScript and `s[:n]` in Python for n >= 0. */
  function Take<T>(s: seq<T>, n: nat): (r: seq<T>)
    ensures |r| == Min(n, |s|)
    ensures r == s[..|r|]
  {
    if n <= |s| then s[..n] else s
  }

  /** Python `s[:k]` for any integer k: a negative k drops -k elements from the end. */
  function PyPrefix<T>(s: seq<T>, k: int): (r: seq<T>)
    ensures |r| <= |s| && r == s[..|r|]
    ensures 0 <= k ==> r == Take(s, k)
    ensures k < 0 ==> |r| == Max(0, |s| + k)
  {
    if k >= 0 then Take(s, k)
    else if -k <= |s| then s[..|s| + k] else []
  }

  /** The last n elements: JavaScript `s.slice(-n)` and Python `s[-n:]` for n > 0. */
  function Last<T>(s: seq<T>, n: nat): (r: seq<T>)
    ensures |r| == Min(n, |s|)
    ensures r == s[|s| - |r|..]
  {
    if |s| <= n then s else s[|s| - n..]
  }

  /** JavaScript `s.filter(p)` and Python `[x for x in s if p(x)]`. */
  function Filter<T>(s: seq<T>, p: T -> bool): (r: seq<T>)
    ensures |r| <= |s|
    ensures forall i :: 0 <= i < |r| ==> r[i] in s && p(r[i])
  {
    if |s| == 0 then [] else if p(s[0]) then [s[0]] + Filter(s[1..], p) else Filter(s[1..], p)
  }

  /** Filtering a sequence with a known first element. */
  lemma FilterCons<T>(x: T, s: seq<T>, p: T -> bool)
    ensures Filter([x] + s, p) == (if p(x) then [x] else []) + Filter(s, p)
  {
    assert ([x] + s)[1..] == s;
  }

  lemma {:induction false} FilterConcat<T>(a: seq<T>, b: seq<T>, p: T -> bool)
    ensures Filter(a + b, p) == Filter(a, p) + Filter(b, p)
    decreases |a|
  {
    if |a| == 0 {
      assert a + b == b;
    } else {
      assert (a + b)[1..] == a[1..] + b;
      FilterConcat(a[1..], b, p);
    }
  }

  /** The filter keeps every element that satisfies p, as many times as it occurs,
      and drops every other element. */
  lemma {:induction false} FilterMultiplicity<T>(s: seq<T>, p: T -> bool, x: T)
    ensures multiset(Filter(s, p))[x] == if p(x) then multiset(s)[x] else 0
    decreases |s|
  {
    if |s| > 0 {
      FilterMultiplicity(s[1..], p, x);
      assert s == [s[0]] + s[1..];
    }
  }

  lemma FilterMembership<T>(s: seq<T>, p: T -> bool, x: T)
    ensures x in Filter(s, p) <==> x in s && p(x)
  {
    FilterMultiplicity(s, p, x);
  }

  lemma {:induction false} FilterAll<T>(s: seq<T>, p: T -> bool)
    requires forall i :: 0 <= i < |s| ==> p(s[i])
    ensures Filter(s, p) == s
    decreases |s|
  {
    if |s| > 0 {
      FilterAll(s[1..], p);
    }
  }

  /** a can be obtained from b by deleting elements: a keeps b's order. */
  predicate IsSubsequence<T(==)>(a: seq<T>, b: seq<T>)
    decreases |b|
  {
    if |a| == 0 then true
    else if |b| == 0 then false
    else if a[0] == b[0] then IsSubsequence(a[1..], b[1..])
    else IsSubsequence(a, b[1..])
  }

  lemma {:induction false} FilterIsSubsequence<T>(s: seq<T>, p: T -> bool)
    ensures IsSubsequence(Filter(s, p), s)
    decreases |s|
  {
    if |s| > 0 {
      FilterIsSubsequence(s[1..], p);
      if !p(s[0]) {
        var f := Filter(s[1..], p);
        if |f| > 0 {
          SubsequenceSkip(f, s[1..], s[0]);
        }
      }
    }
  }

  lemma {:induction false} SubsequenceSkip<T>(a: seq<T>, b: seq<T>, x: T)
    requires IsSubsequence(a, b)
    ensures IsSubsequence(a, [x] + b)
    decreases |b|, 1
  {
    if |a| > 0 {
      assert ([x] + b)[1..] == b;
      if a[0] == x {
        SubsequenceDropHead(a, b);
      }
    }
  }

  lemma {:induction false} SubsequenceDropHead<T>(a: seq<T>, b: seq<T>)
    requires |a| > 0 && IsSubsequence(a, b)
    ensures IsSubsequence(a[1..], b)
    decreases |b|, 0
  {
    assert [b[0]] + b[1..] == b;
    if a[0] != b[0] {
      SubsequenceDropHead(a, b[1..]);
    }
    SubsequenceSkip(a[1..], b[1..], b[0]);
  }

  lemma {:induction false} TakeIsSubsequence<T>(s: seq<T>, n: nat)
    ensures IsSubsequence(Take(s, n), s)
  {
    PrefixIsSubsequence(s, |Take(s, n)|);
  }

  lemma {:induction false} PrefixIsSubsequence<T>(s: seq<T>, k: nat)
    requires k <= |s|
    ensures IsSubsequence(s[..k], s)
    decreases k
  {
    if k > 0 {
      PrefixIsSubsequence(s[1..], k - 1);
      assert s[..k][1..] == s[1..][..k - 1];
    }
  }

  lemma {:induction false} SubsequenceTransitive<T>(a: seq<T>, b: seq<T>, c: seq<T>)
    requires IsSubsequence(a, b) && IsSubsequence(b, c)
    ensures IsSubsequence(a, c)
    decreases |c|
  {
    if |a| > 0 {
      assert [c[0]] + c[1..] == c;
      if b[0] == c[0] {
        if a[0] == b[0] {
          SubsequenceTransitive(a[1..], b[1..], c[1..]);
        } else {
          SubsequenceTransitive(a, b[1..], c[1..]);
          SubsequenceSkip(a, c[1..], c[0]);
        }
      } else {
        SubsequenceTransitive(a, b, c[1..]);
        SubsequenceSkip(a, c[1..], c[0]);
      }
    }
  }

  predicate NoDup<T(==)>(s: seq<T>) {
    forall i, j :: 0 <= i < j < |s| ==> s[i] != s[j]
  }

  lemma NoDupCons<T>(x: T, s: seq<T>)
    requires NoDup(s) && x !in s
    ensures NoDup([x] + s)
  {
    forall i, j | 0 <= i < j < |[x] + s|
      ensures ([x] + s)[i] != ([x] + s)[j]
    {
      if i > 0 {
        assert ([x] + s)[i] == s[i - 1];
      }
    }
  }

  /** The distinct elements of s in order of first occurrence: the key order of a
      JavaScript object or Python dict filled by one pass over s. */
  function DistinctKeys<T(==)>(s: seq<T>): (d: seq<T>)
    ensures NoDup(d)
    ensures forall i :: 0 <= i < |s| ==> s[i] in d
    ensures forall i :: 0 <= i < |d| ==> d[i] in s
    decreases |s|
  {
    if |s| == 0 then []
    else
      var d := DistinctKeys(s[..|s| - 1]);
      assert s == s[..|s| - 1] + [s[|s| - 1]];
      if s[|s| - 1] in d then d else d + [s[|s| - 1]]
  }

  /** The number of occurrences in s of each key, added up over keys. */
  function SumOfCounts<T(==)>(keys: seq<T>, s: seq<T>): nat {
    if |keys| == 0 then 0 else multiset(s)[keys[0]] + SumOfCounts(keys[1..], s)
  }

  lemma {:induction false} SumOfCountsAppendKey<T>(keys: seq<T>, k: T, s: seq<T>)
    ensures SumOfCounts(keys + [k], s) == SumOfCounts(keys, s) + multiset(s)[k]
    decreases |keys|
  {
    if |keys| > 0 {
      assert (keys + [k])[1..] == keys[1..] + [k];
      SumOfCountsAppendKey(keys[1..], k, s);
    }
  }

  lemma {:induction false} SumOfCountsAppendElement<T>(keys: seq<T>, s: seq<T>, e: T)
    requires NoDup(keys)
    ensures SumOfCounts(keys, s + [e]) == SumOfCounts(keys, s) + (if e in keys then 1 else 0)
    decreases |keys|
  {
    if |keys| > 0 {
      assert multiset(s + [e]) == multiset(s) + multiset{e};
      SumOfCountsAppendElement(keys[1..], s, e);
      assert e in keys <==> e == keys[0] || e in keys[1..];
    }
  }

  /** Grouping by key loses nothing: the group sizes add up to the length. */
  lemma {:induction false} DistinctKeysCountsSum<T>(s: seq<T>)
    ensures SumOfCounts(DistinctKeys(s), s) == |s|
    decreases |s|
  {
    if |s| > 0 {
      var p, e := s[..|s| - 1], s[|s| - 1];
      assert s == p + [e];
      var d := DistinctKeys(p);
      DistinctKeysCountsSum(p);
      SumOfCountsAppendElement(d, p, e);
      if e !in d {
        SumOfCountsAppendKey(d, e, s);
        assert multiset(s)[e] == multiset(p)[e] + 1;
        assert multiset(p)[e] == 0;
      }
    }
  }

  /** Python `list.remove(x)` guarded by `x in s`: drop the first occurrence. */
  function RemoveFirst<T(==)>(s: seq<T>, x: T): (r: seq<T>)
    ensures x !in s ==> r == s
    ensures x in s ==> |r| == |s| - 1
    ensures multiset(r) == multiset(s) - multiset{x}
  {
    if |s| == 0 then []
    else
      assert s == [s[0]] + s[1..];
      if s[0] == x then s[1..] else [s[0]] + RemoveFirst(s[1..], x)
  }

  /** `dict.get(key)` over a table written as key/value pairs: the value of the
      first pair with that key. */
  function Find<K(==), V>(table: seq<(K, V)>, key: K): (r: Option<V>)
    ensures r.Some? <==> exists k :: 0 <= k < |table| && table[k].0 == key
    ensures r.Some? ==> exists k :: 0 <= k < |table| && table[k] == (key, r.value)
  {
    if |table| == 0 then None
    else if table[0].0 == key then Some(table[0].1)
    else
      var r := Find(table[1..], key);
      assert r.Some? ==> exists k :: 0 <= k < |table[1..]| && table[1..][k] == (key, r.value);
      assert forall k :: 1 <= k < |table| ==> table[k] == table[1..][k - 1];
      r
  }

  /** `dict.get(key, default)`. */
  function LookupOr<K(==), V>(table: seq<(K, V)>, key: K, default: V): (v: V)
    ensures (forall k :: 0 <= k < |table| ==> table[k].0 != key) ==> v == default
  {
    Find(table, key).GetOr(default)
  }

  /** The keys of a key/value table, in order. */
  function Keys<K, V>(table: seq<(K, V)>): (ks: seq<K>)
    ensures |ks| == |table| && forall k :: 0 <= k < |table| ==> ks[k] == table[k].0
  {
    seq(|table|, k requires 0 <= k < |table| => table[k].0)
  }

  /** The pair at index k is the one found for its key when no earlier pair has that key. */
  lemma {:induction false} FindAt<K, V>(table: seq<(K, V)>, k: nat)
    requires k < |table|
    requires forall j :: 0 <= j < k ==> table[j].0 != table[k].0
    ensures Find(table, table[k].0) == Some(table[k].1)
    decreases k
  {
    if k > 0 {
      FindAt(table[1..], k - 1);
    }
  }

  /** A key present in the front part of a table is found there. */
  lemma {:induction false} FindInFront<K, V>(a: seq<(K, V)>, b: seq<(K, V)>, key: K)
    requires Find(a, key).Some?
    ensures Find(a + b, key) == Find(a, key)
    decreases |a|
  {
    assert (a + b)[0] == a[0];
    if a[0].0 != key {
      assert (a + b)[1..] == a[1..] + b;
      FindInFront(a[1..], b, key);
    }
  }

  /** The first k of the elements a filter keeps are still in their original order. */
  lemma FilteredPrefixIsSubsequence<T>(s: seq<T>, p: T -> bool, k: int)
    ensures IsSubsequence(PyPrefix(Filter(s, p), k), s)
  {
    var f := Filter(s, p);
    PrefixIsSubsequence(f, |PyPrefix(f, k)|);
    FilterIsSubsequence(s, p);
    SubsequenceTransitive(PyPrefix(f, k), f, s);
  }

  /** Where a kept element lands: a match at index i is element number
      |Filter(s[..i], p)| of the filter, that is, it follows every earlier match. */
  lemma FilterPosition<T>(s: seq<T>, p: T -> bool, i: nat)
    requires i < |s| && p(s[i])
    ensures |Filter(s[..i], p)| < |Filter(s, p)|
    ensures Filter(s, p)[|Filter(s[..i], p)|] == s[i]
  {
    assert s == s[..i] + s[i..];
    FilterConcat(s[..i], s[i..], p);
    assert s[i..] == [s[i]] + s[i + 1..];
    FilterCons(s[i], s[i + 1..], p);
  }

  /** `r` lists, in order, the first |r| elements of `s` that satisfy `p`: every
      match of `s` with fewer than |r| matches before it stands in `r`, at the
      place that count gives. */
  predicate FirstMatches<T(==)>(r: seq<T>, s: seq<T>, p: T -> bool) {
    forall i :: 0 <= i < |s| && p(s[i]) && |Filter(s[..i], p)| < |r| ==> r[|Filter(s[..i], p)|] == s[i]
  }

  /** A Python-style prefix of a filter is made of the first matches. */
  lemma FilterPrefixFirstMatches<T>(s: seq<T>, p: T -> bool, k: int)
    ensures FirstMatches(PyPrefix(Filter(s, p), k), s, p)
  {
    var r := PyPrefix(Filter(s, p), k);
    forall i | 0 <= i < |s| && p(s[i]) && |Filter(s[..i], p)| < |r|
      ensures r[|Filter(s[..i], p)|] == s[i]
    {
      FilterPosition(s, p, i);
    }
  }

  /** Every element of a filter comes from some match of `s`: element number j
      is the match with exactly j matches before it. */
  lemma {:induction false} MatchOfRank<T>(s: seq<T>, p: T -> bool, j: nat) returns (i: nat)
    requires j < |Filter(s, p)|
    ensures i < |s| && p(s[i]) && |Filter(s[..i], p)| == j
    decreases |s|
  {
    assert s == [s[0]] + s[1..];
    FilterCons(s[0], s[1..], p);
    if p(s[0]) && j == 0 {
      i := 0;
      assert s[..0] == [];
    } else {
      var rest := if p(s[0]) then j - 1 else j;
      var i' := MatchOfRank(s[1..], p, rest);
      i := i' + 1;
      assert s[..i] == [s[0]] + s[1..][..i'];
      FilterCons(s[0], s[1..][..i'], p);
    }
  }

  /** FirstMatches pins the result down: with its length given, it is the
      prefix of the filter of that length. */
  lemma FirstMatchesUnique<T>(r: seq<T>, s: seq<T>, p: T -> bool)
    requires FirstMatches(r, s, p) && |r| <= |Filter(s, p)|
    ensures r == Filter(s, p)[..|r|]
  {
    forall j | 0 <= j < |r|
      ensures r[j] == Filter(s, p)[j]
    {
      var i := MatchOfRank(s, p, j);
      FilterPosition(s, p, i);
    }
  }
}
