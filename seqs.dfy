/**
 * Generic list operations that the app's array code is built from:
 * `filter`, `reduce` sums, counting, grouping into a dictionary in
 * insertion order, stable `sort` with a comparator, and `slice(0, n)`.
 * Each is a left fold, so that a loop over the first `i` elements keeps
 * the fold of `s[..i]` as its invariant.
 */
module Seqs {

  // ---- filter ----

  function Filter<T>(s: seq<T>, p: T -> bool): (r: seq<T>)
    ensures |r| <= |s|
    ensures forall i :: 0 <= i < |r| ==> p(r[i])
    decreases |s|
  {
    if s == [] then []
    else if p(s[|s| - 1]) then Filter(s[..|s| - 1], p) + [s[|s| - 1]]
    else Filter(s[..|s| - 1], p)
  }

  /** One more element of a prefix is kept exactly when it passes the test. */
  lemma FilterPrefixStep<T>(s: seq<T>, i: nat, p: T -> bool)
    requires i < |s|
    ensures Filter(s[..i + 1], p) == if p(s[i]) then Filter(s[..i], p) + [s[i]] else Filter(s[..i], p)
  {
    assert s[..i + 1][..i] == s[..i];
  }

  /** `a` is `b` with some elements left out, order kept. */
  predicate Subseq<T(==)>(a: seq<T>, b: seq<T>)
    decreases |b|
  {
    a == [] ||
    (b != [] &&
     ((a[|a| - 1] == b[|b| - 1] && Subseq(a[..|a| - 1], b[..|b| - 1])) || Subseq(a, b[..|b| - 1])))
  }

  /** A filter keeps exactly the elements that pass, in their original order. */
  lemma {:induction false} FilterSpec<T>(s: seq<T>, p: T -> bool)
    ensures Subseq(Filter(s, p), s)
    ensures forall x :: x in Filter(s, p) <==> x in s && p(x)
    decreases |s|
  {
    if s != [] {
      var init, x := s[..|s| - 1], s[|s| - 1];
      FilterSpec(init, p);
      assert s == init + [x];
      var f := Filter(s, p);
      if p(x) {
        assert f[..|f| - 1] == Filter(init, p);
      }
    }
  }

  /** What a filter keeps comes from the list and passes. */
  lemma FilterIn<T>(s: seq<T>, p: T -> bool, x: T)
    requires x in Filter(s, p)
    ensures x in s && p(x)
  {
    FilterSpec(s, p);
  }

  /** The first element a filter keeps is the first element of the list that passes. */
  lemma {:induction false} FilterFirst<T>(s: seq<T>, p: T -> bool)
    ensures Filter(s, p) != [] <==> exists i :: 0 <= i < |s| && p(s[i])
    ensures Filter(s, p) != [] ==>
              exists i :: 0 <= i < |s| && p(s[i]) && Filter(s, p)[0] == s[i] && forall j :: 0 <= j < i ==> !p(s[j])
    decreases |s|
  {
    if s != [] {
      var init := s[..|s| - 1];
      FilterFirst(init, p);
      assert forall j :: 0 <= j < |init| ==> init[j] == s[j];
      if Filter(init, p) == [] && p(s[|s| - 1]) {
        assert Filter(s, p)[0] == s[|s| - 1];
      }
    }
  }

  lemma {:induction false} FilterAppend<T>(a: seq<T>, b: seq<T>, p: T -> bool)
    ensures Filter(a + b, p) == Filter(a, p) + Filter(b, p)
    decreases |b|
  {
    if b != [] {
      var b0, y := b[..|b| - 1], b[|b| - 1];
      assert (a + b)[..|a + b| - 1] == a + b0;
      FilterAppend(a, b0, p);
    } else {
      assert a + b == a;
    }
  }

  /** A filter that every element passes keeps the whole list. */
  lemma {:induction false} FilterAll<T>(s: seq<T>, p: T -> bool)
    requires forall i :: 0 <= i < |s| ==> p(s[i])
    ensures Filter(s, p) == s
    decreases |s|
  {
    if s != [] {
      FilterAll(s[..|s| - 1], p);
    }
  }

  /** `filter(p)` then `filter(q)` is `filter(p && q)`. */
  lemma {:induction false} FilterFilter<T>(s: seq<T>, p: T -> bool, q: T -> bool)
    ensures Filter(Filter(s, p), q) == Filter(s, x => p(x) && q(x))
    decreases |s|
  {
    if s != [] {
      FilterFilter(s[..|s| - 1], p, q);
    }
  }

  // ---- sums and counts ----

  /** `s.reduce((acc, x) => acc + f(x), 0)`. */
  function Sum<T>(s: seq<T>, f: T -> real): real
    decreases |s|
  {
    if s == [] then 0.0 else Sum(s[..|s| - 1], f) + f(s[|s| - 1])
  }

  /** One more element of a prefix adds its value to the prefix's sum. */
  lemma SumPrefixStep<T>(s: seq<T>, i: nat, f: T -> real)
    requires i < |s|
    ensures Sum(s[..i + 1], f) == Sum(s[..i], f) + f(s[i])
  {
    assert s[..i + 1][..i] == s[..i];
  }

  lemma {:induction false} SumAppend<T>(a: seq<T>, b: seq<T>, f: T -> real)
    ensures Sum(a + b, f) == Sum(a, f) + Sum(b, f)
    decreases |b|
  {
    if b != [] {
      assert (a + b)[..|a + b| - 1] == a + b[..|b| - 1];
      SumAppend(a, b[..|b| - 1], f);
    } else {
      assert a + b == a;
    }
  }

  /** Summing a filtered list is summing the whole list with the rejected elements counted as 0. */
  lemma {:induction false} SumFilter<T>(s: seq<T>, p: T -> bool, f: T -> real)
    ensures Sum(Filter(s, p), f) == Sum(s, x => if p(x) then f(x) else 0.0)
    decreases |s|
  {
    if s != [] {
      SumFilter(s[..|s| - 1], p, f);
      if p(s[|s| - 1]) {
        var r := Filter(s, p);
        assert r[..|r| - 1] == Filter(s[..|s| - 1], p);
      }
    }
  }

  /** Sums of non-negative terms are non-negative. */
  lemma {:induction false} SumNonNeg<T>(s: seq<T>, f: T -> real)
    requires forall i :: 0 <= i < |s| ==> f(s[i]) >= 0.0
    ensures Sum(s, f) >= 0.0
    decreases |s|
  {
    if s != [] { SumNonNeg(s[..|s| - 1], f); }
  }

  /** Number of elements that pass `p`. */
  function Count<T>(s: seq<T>, p: T -> bool): (n: nat)
    ensures n <= |s|
    decreases |s|
  {
    if s == [] then 0 else Count(s[..|s| - 1], p) + (if p(s[|s| - 1]) then 1 else 0)
  }

  lemma {:induction false} CountFilter<T>(s: seq<T>, p: T -> bool)
    ensures Count(s, p) == |Filter(s, p)|
    decreases |s|
  {
    if s != [] { CountFilter(s[..|s| - 1], p); }
  }

  /** Counting under a predicate that splits in two adds up. */
  lemma {:induction false} CountSplit<T>(s: seq<T>, p: T -> bool, q: T -> bool)
    ensures Count(s, x => p(x) && q(x)) + Count(s, x => p(x) && !q(x)) == Count(s, p)
    decreases |s|
  {
    if s != [] { CountSplit(s[..|s| - 1], p, q); }
  }

  // ---- grouping in insertion order ----

  predicate Distinct<K(==)>(ks: seq<K>)
  {
    forall i, j :: 0 <= i < j < |ks| ==> ks[i] != ks[j]
  }

  /** The keys of `s`, each once, in order of first appearance (JS object / Map key order). */
  function Keys<T, K(==)>(s: seq<T>, key: T -> K): (ks: seq<K>)
    ensures |ks| <= |s|
    ensures Distinct(ks)
    ensures forall i :: 0 <= i < |s| ==> key(s[i]) in ks
    ensures forall k :: k in ks ==> exists i :: 0 <= i < |s| && key(s[i]) == k
    decreases |s|
  {
    if s == [] then []
    else
      var ks := Keys(s[..|s| - 1], key);
      var k := key(s[|s| - 1]);
      assert forall i :: 0 <= i < |s| - 1 ==> s[..|s| - 1][i] == s[i];
      if k in ks then ks else ks + [k]
  }

  /** One more element adds its key at the end, unless the key is already there. */
  lemma KeysSnoc<T, K>(s: seq<T>, x: T, key: T -> K)
    ensures Keys(s + [x], key) == if key(x) in Keys(s, key) then Keys(s, key) else Keys(s, key) + [key(x)]
  {
    assert (s + [x])[..|s + [x]| - 1] == s;
  }

  /** The keys of a prefix come first among the keys, in the same order: keys are listed by first appearance. */
  lemma {:induction false} KeysPrefix<T, K>(s: seq<T>, key: T -> K, n: nat)
    requires n <= |s|
    ensures Keys(s[..n], key) <= Keys(s, key)
    decreases |s|
  {
    if n < |s| {
      var init := s[..|s| - 1];
      KeysPrefix(init, key, n);
      assert init[..n] == s[..n];
    } else {
      assert s[..n] == s;
    }
  }

  /** Total of `f` over the elements whose key is `k`. */
  function KeySum<T, K(==)>(s: seq<T>, key: T -> K, f: T -> real, k: K): real
  {
    Sum(s, x => if key(x) == k then f(x) else 0.0)
  }

  /** One more element adds its value to its own key's total only. */
  lemma KeySumSnoc<T, K>(s: seq<T>, x: T, key: T -> K, f: T -> real, k: K)
    ensures KeySum(s + [x], key, f, k) == KeySum(s, key, f, k) + (if key(x) == k then f(x) else 0.0)
  {
    assert (s + [x])[..|s + [x]| - 1] == s;
  }

  /** Sum of the group totals of the keys `ks`. */
  function SumKeys<T, K(==)>(ks: seq<K>, s: seq<T>, key: T -> K, f: T -> real): real
    decreases |ks|
  {
    if ks == [] then 0.0 else SumKeys(ks[..|ks| - 1], s, key, f) + KeySum(s, key, f, ks[|ks| - 1])
  }

  lemma {:induction false} SumKeysStep<T, K>(ks: seq<K>, s: seq<T>, x: T, key: T -> K, f: T -> real)
    requires Distinct(ks)
    ensures SumKeys(ks, s + [x], key, f) == SumKeys(ks, s, key, f) + (if key(x) in ks then f(x) else 0.0)
    decreases |ks|
  {
    if ks != [] {
      var init := ks[..|ks| - 1];
      assert Distinct(init);
      SumKeysStep(init, s, x, key, f);
      assert (s + [x])[..|s + [x]| - 1] == s;
      assert key(x) in ks <==> key(x) in init || key(x) == ks[|ks| - 1];
      assert key(x) == ks[|ks| - 1] ==> key(x) !in init;
    }
  }

  lemma {:induction false} KeySumAbsent<T, K>(s: seq<T>, key: T -> K, f: T -> real, k: K)
    requires forall i :: 0 <= i < |s| ==> key(s[i]) != k
    ensures KeySum(s, key, f, k) == 0.0
    decreases |s|
  {
    if s != [] {
      KeySumAbsent(s[..|s| - 1], key, f, k);
    }
  }

  /** Conservation: the group totals of a grouping add up to the overall total. */
  lemma {:induction false} GroupTotalsSum<T, K>(s: seq<T>, key: T -> K, f: T -> real)
    ensures SumKeys(Keys(s, key), s, key, f) == Sum(s, f)
    decreases |s|
  {
    if s != [] {
      var init, x := s[..|s| - 1], s[|s| - 1];
      assert s == init + [x];
      var ks := Keys(init, key);
      GroupTotalsSum(init, key, f);
      SumKeysStep(ks, init, x, key, f);
      if key(x) !in ks {
        KeySumAbsent(init, key, f, key(x));
        assert (init + [x])[..|init + [x]| - 1] == init;
        assert (ks + [key(x)])[..|ks + [key(x)]| - 1] == ks;
      }
    }
  }

  /** Concatenation regrouped to the right. */
  lemma AppendAssoc<T>(a: seq<T>, b: seq<T>, c: seq<T>)
    ensures a + b + c == a + (b + c)
  {
  }

  /** The dictionary `{key: total}` as insertion-ordered entries. */
  function Entries<T, K(==)>(s: seq<T>, key: T -> K, f: T -> real): (es: seq<(K, real)>)
    ensures |es| == |Keys(s, key)|
    ensures forall i :: 0 <= i < |es| ==> es[i] == (Keys(s, key)[i], KeySum(s, key, f, Keys(s, key)[i]))
  {
    var ks := Keys(s, key);
    seq(|ks|, i requires 0 <= i < |ks| => (ks[i], KeySum(s, key, f, ks[i])))
  }

  /** The keys of a list of entries, in order. */
  function Labels<K, V>(es: seq<(K, V)>): (ks: seq<K>)
    ensures |ks| == |es|
    ensures forall i :: 0 <= i < |es| ==> ks[i] == es[i].0
  {
    seq(|es|, i requires 0 <= i < |es| => es[i].0)
  }

  /** The dictionary has one entry per key, in order of first appearance, and every element's key among them. */
  lemma EntriesLabels<T, K>(s: seq<T>, key: T -> K, f: T -> real)
    ensures Labels(Entries(s, key, f)) == Keys(s, key)
    ensures forall x :: x in s ==> key(x) in Labels(Entries(s, key, f))
  {
    assert Labels(Entries(s, key, f)) == Keys(s, key);
    forall x | x in s ensures key(x) in Keys(s, key) {
      var j :| 0 <= j < |s| && s[j] == x;
    }
  }

  /** Sum of the values of a list of entries. */
  function SumValues<K>(es: seq<(K, real)>): real
    decreases |es|
  {
    if es == [] then 0.0 else SumValues(es[..|es| - 1]) + es[|es| - 1].1
  }

  lemma {:induction false} SumValuesAppend<K>(a: seq<(K, real)>, b: seq<(K, real)>)
    ensures SumValues(a + b) == SumValues(a) + SumValues(b)
    decreases |b|
  {
    if b != [] {
      assert (a + b)[..|a + b| - 1] == a + b[..|b| - 1];
      SumValuesAppend(a, b[..|b| - 1]);
    } else {
      assert a + b == a;
    }
  }

  /** Reordering entries keeps their total. */
  lemma {:induction false} SumValuesPerm<K>(a: seq<(K, real)>, b: seq<(K, real)>)
    requires multiset(a) == multiset(b)
    ensures SumValues(a) == SumValues(b)
    decreases |a|
  {
    if a == [] {
      assert |b| == |multiset(b)| == 0;
    } else {
      var init, x := a[..|a| - 1], a[|a| - 1];
      assert a == init + [x];
      assert multiset(a) == multiset(init) + multiset{x};
      assert x in multiset(b);
      var j :| 0 <= j < |b| && b[j] == x;
      RemoveAt(b, j);
      SumValuesPerm(init, b[..j] + b[j + 1..]);
    }
  }

  /** Taking out the entry at `j` takes it out of the multiset and its value out of the total. */
  lemma RemoveAt<K>(b: seq<(K, real)>, j: nat)
    requires j < |b|
    ensures multiset(b[..j] + b[j + 1..]) == multiset(b) - multiset{b[j]}
    ensures SumValues(b) == SumValues(b[..j] + b[j + 1..]) + b[j].1
  {
    var left, x, right := b[..j], b[j], b[j + 1..];
    SplitAt(b, j);
    assert multiset(b) == multiset(left + [x]) + multiset(right);
    SumValuesSnoc(left, x);
    SumValuesAppend(left + [x], right);
    SumValuesAppend(left, right);
  }

  lemma SplitAt<T>(b: seq<T>, j: nat)
    requires j < |b|
    ensures b == (b[..j] + [b[j]]) + b[j + 1..]
  {
    assert b == b[..j] + b[j..];
    assert b[j..] == [b[j]] + b[j + 1..];
  }

  lemma SumValuesSnoc<K>(a: seq<(K, real)>, x: (K, real))
    ensures SumValues(a + [x]) == SumValues(a) + x.1
  {
    assert (a + [x])[..|a|] == a;
  }

  /** Position of the first entry with key `k`, or |es|. */
  function Find<K(==), V>(es: seq<(K, V)>, k: K): (j: nat)
    ensures j <= |es|
    ensures j < |es| ==> es[j].0 == k
    ensures forall i :: 0 <= i < j && i < |es| ==> es[i].0 != k
  {
    if es == [] then 0 else if es[0].0 == k then 0 else 1 + Find(es[1..], k)
  }

  /** `map.set(k, (map.get(k) || 0) + v)` on insertion-ordered entries. */
  function Bump<K(==)>(es: seq<(K, real)>, k: K, v: real): seq<(K, real)>
  {
    var j := Find(es, k);
    if j < |es| then es[j := (k, es[j].1 + v)] else es + [(k, v)]
  }

  /** Adding one element's value to its key's entry gives the entries of the longer list. */
  lemma BumpEntries<T, K>(s: seq<T>, x: T, key: T -> K, f: T -> real)
    ensures Bump(Entries(s, key, f), key(x), f(x)) == Entries(s + [x], key, f)
  {
    var ks, ks' := Keys(s, key), Keys(s + [x], key);
    var es, es' := Entries(s, key, f), Entries(s + [x], key, f);
    assert (s + [x])[..|s + [x]| - 1] == s;
    forall k ensures KeySum(s + [x], key, f, k) == KeySum(s, key, f, k) + (if key(x) == k then f(x) else 0.0) {
    }
    var b := Bump(es, key(x), f(x));
    var j := Find(es, key(x));
    if j < |es| {
      assert ks' == ks;
      forall i | 0 <= i < |es'| ensures b[i] == es'[i] {
        if i != j { assert ks[i] != key(x); }
      }
    } else {
      assert key(x) !in ks;
      assert ks' == ks + [key(x)];
      KeySumAbsent(s, key, f, key(x));
      forall i | 0 <= i < |es'| ensures b[i] == es'[i] {
        if i < |es| { assert ks[i] != key(x); }
      }
    }
  }

  lemma {:induction false} SumValuesKeys<T, K>(ks: seq<K>, s: seq<T>, key: T -> K, f: T -> real)
    ensures SumValues(seq(|ks|, i requires 0 <= i < |ks| => (ks[i], KeySum(s, key, f, ks[i])))) == SumKeys(ks, s, key, f)
    decreases |ks|
  {
    if ks != [] {
      var init := ks[..|ks| - 1];
      SumValuesKeys(init, s, key, f);
      var es := seq(|ks|, i requires 0 <= i < |ks| => (ks[i], KeySum(s, key, f, ks[i])));
      assert es[..|es| - 1] == seq(|init|, i requires 0 <= i < |init| => (init[i], KeySum(s, key, f, init[i])));
    }
  }

  /** Conservation: the values of the entries add up to the total of `f`. */
  lemma EntriesTotal<T, K>(s: seq<T>, key: T -> K, f: T -> real)
    ensures SumValues(Entries(s, key, f)) == Sum(s, f)
  {
    SumValuesKeys(Keys(s, key), s, key, f);
    GroupTotalsSum(s, key, f);
  }

  // ---- dictionaries holding two totals per key ----

  /** `{key: {a: total of f, b: total of g}}` as insertion-ordered entries. */
  function Entries2<T, K(==)>(s: seq<T>, key: T -> K, f: T -> real, g: T -> real): (es: seq<(K, (real, real))>)
    ensures |es| == |Keys(s, key)|
    ensures forall i :: 0 <= i < |es| ==>
              es[i] == (Keys(s, key)[i], (KeySum(s, key, f, Keys(s, key)[i]), KeySum(s, key, g, Keys(s, key)[i])))
  {
    var ks := Keys(s, key);
    seq(|ks|, i requires 0 <= i < |ks| => (ks[i], (KeySum(s, key, f, ks[i]), KeySum(s, key, g, ks[i]))))
  }

  /** `if (!m.has(k)) m.set(k, {a: 0, b: 0}); m.get(k).a += u; m.get(k).b += v`. */
  function Bump2<K(==)>(es: seq<(K, (real, real))>, k: K, u: real, v: real): seq<(K, (real, real))>
  {
    var j := Find(es, k);
    if j < |es| then es[j := (k, (es[j].1.0 + u, es[j].1.1 + v))] else es + [(k, (u, v))]
  }

  /** Adding one element to its key's pair of totals gives the entries of the longer list. */
  lemma Bump2Entries<T, K>(s: seq<T>, x: T, key: T -> K, f: T -> real, g: T -> real)
    ensures Bump2(Entries2(s, key, f, g), key(x), f(x), g(x)) == Entries2(s + [x], key, f, g)
  {
    var ks, ks' := Keys(s, key), Keys(s + [x], key);
    var es, es' := Entries2(s, key, f, g), Entries2(s + [x], key, f, g);
    assert (s + [x])[..|s + [x]| - 1] == s;
    forall k ensures KeySum(s + [x], key, f, k) == KeySum(s, key, f, k) + (if key(x) == k then f(x) else 0.0) &&
                     KeySum(s + [x], key, g, k) == KeySum(s, key, g, k) + (if key(x) == k then g(x) else 0.0) {
      KeySumSnoc(s, x, key, f, k);
      KeySumSnoc(s, x, key, g, k);
    }
    var b := Bump2(es, key(x), f(x), g(x));
    var j := Find(es, key(x));
    if j < |es| {
      assert ks' == ks;
      forall i | 0 <= i < |es'| ensures b[i] == es'[i] {
        if i != j { assert ks[i] != key(x); }
      }
    } else {
      assert key(x) !in ks;
      assert ks' == ks + [key(x)];
      KeySumAbsent(s, key, f, key(x));
      KeySumAbsent(s, key, g, key(x));
      forall i | 0 <= i < |es'| ensures b[i] == es'[i] {
        if i < |es| { assert ks[i] != key(x); }
      }
    }
  }

  /** A list whose values match an entry list's, position by position, has the entries' total. */
  lemma {:induction false} SumMatchesValues<T, K>(a: seq<T>, f: T -> real, es: seq<(K, real)>)
    requires |a| == |es| && forall i :: 0 <= i < |a| ==> f(a[i]) == es[i].1
    ensures Sum(a, f) == SumValues(es)
    decreases |a|
  {
    if a != [] {
      SumMatchesValues(a[..|a| - 1], f, es[..|es| - 1]);
    }
  }

  /** A value that is zero on every element gives every key a zero total. */
  lemma {:induction false} KeySumZero<T, K>(s: seq<T>, key: T -> K, f: T -> real, k: K)
    requires forall i :: 0 <= i < |s| ==> f(s[i]) == 0.0
    ensures KeySum(s, key, f, k) == 0.0
    decreases |s|
  {
    if s != [] {
      var init := s[..|s| - 1];
      KeySumZero(init, key, f, k);
      KeySumSnoc(init, s[|s| - 1], key, f, k);
      assert init + [s[|s| - 1]] == s;
    }
  }

  /** Two values that agree on every element give every key the same total. */
  lemma {:induction false} KeySumAgree<T, K>(s: seq<T>, key: T -> K, f: T -> real, g: T -> real, k: K)
    requires forall i :: 0 <= i < |s| ==> f(s[i]) == g(s[i])
    ensures KeySum(s, key, f, k) == KeySum(s, key, g, k)
    decreases |s|
  {
    if s != [] {
      var init := s[..|s| - 1];
      KeySumAgree(init, key, f, g, k);
      KeySumSnoc(init, s[|s| - 1], key, f, k);
      KeySumSnoc(init, s[|s| - 1], key, g, k);
      assert init + [s[|s| - 1]] == s;
    }
  }

  /** The key of a two-total entry. */
  function EntryKey<K>(e: (K, (real, real))): K { e.0 }

  /**
   * The two-total entries have distinct keys, each a key of the list with its
   * two totals, and every element's key has an entry.
   */
  lemma Entries2Spec<T, K>(s: seq<T>, key: T -> K, f: T -> real, g: T -> real)
    ensures DistinctBy(Entries2(s, key, f, g), EntryKey)
    ensures forall e :: e in Entries2(s, key, f, g) ==>
              e.0 in Keys(s, key) && e.1 == (KeySum(s, key, f, e.0), KeySum(s, key, g, e.0))
    ensures forall x :: x in s ==> exists e :: e in Entries2(s, key, f, g) && e.0 == key(x)
  {
    var es, ks := Entries2(s, key, f, g), Keys(s, key);
    forall i, j | 0 <= i < j < |es| ensures EntryKey(es[i]) != EntryKey(es[j]) {
      assert ks[i] != ks[j];
    }
    forall x | x in s ensures exists e :: e in es && e.0 == key(x) {
      var n :| 0 <= n < |s| && s[n] == x;
      assert key(s[n]) in ks;
      var k :| 0 <= k < |ks| && ks[k] == key(x);
      assert es[k] in es;
    }
  }

  /** The two totals of each key are that key's entries for `f` and for `g`. */
  lemma Entries2Parts<T, K>(s: seq<T>, key: T -> K, f: T -> real, g: T -> real)
    ensures |Entries(s, key, f)| == |Entries(s, key, g)| == |Entries2(s, key, f, g)|
    ensures forall i :: 0 <= i < |Entries2(s, key, f, g)| ==>
              Entries2(s, key, f, g)[i] == (Entries(s, key, f)[i].0, (Entries(s, key, f)[i].1, Entries(s, key, g)[i].1))
  {
    var es, ef, eg := Entries2(s, key, f, g), Entries(s, key, f), Entries(s, key, g);
    forall i | 0 <= i < |es| ensures es[i] == (ef[i].0, (ef[i].1, eg[i].1)) {
    }
  }

  // ---- grouping into lists ----

  /** The elements of `s` whose key is `k`, in order. */
  function Members<T, K(==)>(s: seq<T>, key: T -> K, k: K): seq<T>
  {
    Filter(s, x => key(x) == k)
  }

  /** The members of a key's group come from the list and have that key. */
  lemma MembersIn<T, K>(s: seq<T>, key: T -> K, k: K)
    ensures forall x :: x in Members(s, key, k) ==> x in s && key(x) == k
  {
    forall x | x in Members(s, key, k) ensures x in s && key(x) == k {
      FilterIn(s, y => key(y) == k, x);
    }
  }

  /** `{k: [elements with key k]}`, in insertion order of the keys. */
  function Groups<T, K(==)>(s: seq<T>, key: T -> K): (gs: seq<(K, seq<T>)>)
    ensures |gs| == |Keys(s, key)|
    ensures forall i :: 0 <= i < |gs| ==> gs[i] == (Keys(s, key)[i], Members(s, key, Keys(s, key)[i]))
  {
    var ks := Keys(s, key);
    seq(|ks|, i requires 0 <= i < |ks| => (ks[i], Members(s, key, ks[i])))
  }

  /** `(groups[k] ||= []).push(x)` on insertion-ordered groups. */
  function AddTo<T, K(==)>(gs: seq<(K, seq<T>)>, k: K, x: T): seq<(K, seq<T>)>
  {
    var j := Find(gs, k);
    if j < |gs| then gs[j := (k, gs[j].1 + [x])] else gs + [(k, [x])]
  }

  lemma {:induction false} MembersNone<T, K>(s: seq<T>, key: T -> K, k: K)
    requires forall i :: 0 <= i < |s| ==> key(s[i]) != k
    ensures Members(s, key, k) == []
    decreases |s|
  {
    if s != [] {
      MembersNone(s[..|s| - 1], key, k);
    }
  }

  /** Pushing one more element into its key's group gives the groups of the longer list. */
  lemma GroupsSnoc<T, K>(s: seq<T>, x: T, key: T -> K)
    ensures Groups(s + [x], key) == AddTo(Groups(s, key), key(x), x)
  {
    assert (s + [x])[..|s + [x]| - 1] == s;
    if Find(Groups(s, key), key(x)) < |Groups(s, key)| {
      GroupsSnocKnown(s, x, key);
    } else {
      GroupsSnocNew(s, x, key);
    }
  }

  /** One more element adds itself to its own key's members and to no other. */
  lemma MembersAppend<T, K>(s: seq<T>, x: T, key: T -> K, k: K)
    ensures Members(s + [x], key, k) == Members(s, key, k) + (if key(x) == k then [x] else [])
  {
    assert (s + [x])[..|s + [x]| - 1] == s;
  }

  lemma GroupsSnocKnown<T, K>(s: seq<T>, x: T, key: T -> K)
    requires Find(Groups(s, key), key(x)) < |Groups(s, key)|
    ensures Groups(s + [x], key) == AddTo(Groups(s, key), key(x), x)
  {
    var ks, ks' := Keys(s, key), Keys(s + [x], key);
    var gs, gs' := Groups(s, key), Groups(s + [x], key);
    assert (s + [x])[..|s + [x]| - 1] == s;
    var j := Find(gs, key(x));
    var b := AddTo(gs, key(x), x);
    assert ks' == ks;
    forall i | 0 <= i < |gs'| ensures b[i] == gs'[i] {
      MembersAppend(s, x, key, ks[i]);
      if i != j {
        assert ks[i] != key(x) by {
          if i > j { assert ks[i] != ks[j]; }
        }
      }
    }
  }

  lemma GroupsSnocNew<T, K>(s: seq<T>, x: T, key: T -> K)
    requires Find(Groups(s, key), key(x)) == |Groups(s, key)|
    ensures Groups(s + [x], key) == AddTo(Groups(s, key), key(x), x)
  {
    var ks, ks' := Keys(s, key), Keys(s + [x], key);
    var gs, gs' := Groups(s, key), Groups(s + [x], key);
    assert (s + [x])[..|s + [x]| - 1] == s;
    var b := AddTo(gs, key(x), x);
    assert key(x) !in ks;
    assert ks' == ks + [key(x)];
    MembersNone(s, key, key(x));
    assert b == gs + [(key(x), [x])];
    forall i | 0 <= i < |gs'| ensures b[i] == gs'[i] {
      if i < |gs| {
        assert ks[i] != key(x);
        MembersAppend(s, x, key, ks[i]);
        assert gs'[i] == (ks[i], Members(s + [x], key, ks[i]));
      } else {
        MembersAppend(s, x, key, key(x));
        assert gs'[i] == (key(x), Members(s + [x], key, key(x)));
        assert Members(s + [x], key, key(x)) == [x];
      }
    }
  }

  /** Total number of elements over all groups. */
  function SizeSum<K, T>(gs: seq<(K, seq<T>)>): nat
    decreases |gs|
  {
    if gs == [] then 0 else SizeSum(gs[..|gs| - 1]) + |gs[|gs| - 1].1|
  }

  /** Total of `f` over all groups. */
  function GroupSum<K, T>(gs: seq<(K, seq<T>)>, f: T -> real): real
    decreases |gs|
  {
    if gs == [] then 0.0 else GroupSum(gs[..|gs| - 1], f) + Sum(gs[|gs| - 1].1, f)
  }

  /** Replacing one group's list changes the totals by the difference. */
  lemma {:induction false} GroupSumsUpdate<K, T>(gs: seq<(K, seq<T>)>, j: nat, g: (K, seq<T>), f: T -> real)
    requires j < |gs|
    ensures SizeSum(gs[j := g]) == SizeSum(gs) - |gs[j].1| + |g.1|
    ensures GroupSum(gs[j := g], f) == GroupSum(gs, f) - Sum(gs[j].1, f) + Sum(g.1, f)
    decreases |gs|
  {
    var n := |gs| - 1;
    if j < n {
      GroupSumsUpdate(gs[..n], j, g, f);
      assert gs[j := g][..n] == gs[..n][j := g];
    } else {
      assert gs[j := g][..n] == gs[..n];
    }
  }

  /** Adding one element to the groups adds one to the count and its value to the total. */
  lemma AddToSums<K, T>(gs: seq<(K, seq<T>)>, k: K, x: T, f: T -> real)
    ensures SizeSum(AddTo(gs, k, x)) == SizeSum(gs) + 1
    ensures GroupSum(AddTo(gs, k, x), f) == GroupSum(gs, f) + f(x)
  {
    var j := Find(gs, k);
    if j < |gs| {
      GroupSumsUpdate(gs, j, (k, gs[j].1 + [x]), f);
      assert (gs[j].1 + [x])[..|gs[j].1|] == gs[j].1;
    } else {
      assert (gs + [(k, [x])])[..|gs|] == gs;
      assert [x][..0] == [];
      assert Sum([x], f) == f(x);
    }
  }

  /**
   * The groups partition the list: every element is in the group of its
   * key, every member of a group has that group's key, and no key has two
   * groups.
   */
  lemma GroupsPartition<T, K>(s: seq<T>, key: T -> K)
    ensures Distinct(Keys(s, key))
    ensures forall i :: 0 <= i < |s| ==> s[i] in Members(s, key, key(s[i]))
    ensures forall k, x :: x in Members(s, key, k) ==> key(x) == k
  {
    forall k ensures forall x :: x in Members(s, key, k) ==> key(x) == k {
      FilterSpec(s, y => key(y) == k);
    }
    forall i | 0 <= i < |s| ensures s[i] in Members(s, key, key(s[i])) {
      FilterSpec(s, y => key(y) == key(s[i]));
    }
  }

  /** The group sizes add up to the length, and the group totals of `f` to the total of `f`. */
  lemma {:induction false} GroupsTotals<T, K>(s: seq<T>, key: T -> K, f: T -> real)
    ensures SizeSum(Groups(s, key)) == |s|
    ensures GroupSum(Groups(s, key), f) == Sum(s, f)
    decreases |s|
  {
    if s != [] {
      var init, x := s[..|s| - 1], s[|s| - 1];
      assert s == init + [x];
      GroupsTotals(init, key, f);
      GroupsSnoc(init, x, key);
      AddToSums(Groups(init, key), key(x), x, f);
    }
  }

  /** A list whose every element weighs `c` sums to its length times `c`. */
  lemma {:induction false} SumConst<T>(s: seq<T>, f: T -> real, c: real)
    requires forall i :: 0 <= i < |s| ==> f(s[i]) == c
    ensures Sum(s, f) == |s| as real * c
    decreases |s|
  {
    if s != [] {
      SumConst(s[..|s| - 1], f, c);
    }
  }

  // ---- stable sort ----

  ghost predicate TotalPreorder<T(!new)>(le: (T, T) -> bool)
  {
    (forall a, b :: le(a, b) || le(b, a)) &&
    (forall a, b, c :: le(a, b) && le(b, c) ==> le(a, c))
  }

  ghost predicate SortedBy<T>(s: seq<T>, le: (T, T) -> bool)
  {
    forall i, j :: 0 <= i < j < |s| ==> le(s[i], s[j])
  }

  /** Put `x` before the first element it may precede. */
  function Insert<T>(x: T, s: seq<T>, le: (T, T) -> bool): (r: seq<T>)
    ensures |r| == |s| + 1
    ensures multiset(r) == multiset(s) + multiset{x}
    decreases |s|
  {
    if s == [] then [x]
    else if le(x, s[0]) then [x] + s
    else
      assert s == [s[0]] + s[1..];
      [s[0]] + Insert(x, s[1..], le)
  }

  /** Array `sort` with a comparator: a stable insertion sort. */
  function Sort<T>(s: seq<T>, le: (T, T) -> bool): (r: seq<T>)
    ensures |r| == |s|
    ensures multiset(r) == multiset(s)
    decreases |s|
  {
    if s == [] then []
    else
      assert s == [s[0]] + s[1..];
      Insert(s[0], Sort(s[1..], le), le)
  }

  lemma {:induction false} InsertSorted<T(!new)>(x: T, s: seq<T>, le: (T, T) -> bool)
    requires TotalPreorder(le) && SortedBy(s, le)
    ensures SortedBy(Insert(x, s, le), le)
    decreases |s|
  {
    if s != [] && !le(x, s[0]) {
      InsertSorted(x, s[1..], le);
      var r := Insert(x, s, le);
      var t := Insert(x, s[1..], le);
      assert r == [s[0]] + t;
      assert le(s[0], x);
      forall j | 0 <= j < |t| ensures le(s[0], t[j]) {
        assert t[j] in multiset(t);
        assert t[j] in multiset(s[1..]) + multiset{x};
        if t[j] != x {
          assert t[j] in multiset(s[1..]);
          var k :| 0 <= k < |s[1..]| && s[1..][k] == t[j];
          assert s[k + 1] == t[j];
        }
      }
    }
  }

  /** The comparator holds between every earlier and later element of the result. */
  lemma {:induction false} SortSorted<T(!new)>(s: seq<T>, le: (T, T) -> bool)
    requires TotalPreorder(le)
    ensures SortedBy(Sort(s, le), le)
    decreases |s|
  {
    if s != [] {
      SortSorted(s[1..], le);
      InsertSorted(s[0], Sort(s[1..], le), le);
    }
  }

  /**
   * The sort is stable at its head: the first element of the result is
   * the first element of the input that may precede every element; each
   * earlier one may not precede it.
   */
  lemma {:induction false} SortHead<T(!new)>(s: seq<T>, le: (T, T) -> bool)
    requires TotalPreorder(le) && s != []
    ensures exists i :: 0 <= i < |s| && Sort(s, le)[0] == s[i] && FirstLeast(s, i, le)
    decreases |s|
  {
    var x, rest := s[0], s[1..];
    if rest == [] {
      assert Sort(s, le) == [x];
      assert le(x, x);
      assert FirstLeast(s, 0, le);
    } else {
      SortHead(rest, le);
      var k :| 0 <= k < |rest| && Sort(rest, le)[0] == rest[k] && FirstLeast(rest, k, le);
      var r := Sort(rest, le);
      assert Sort(s, le) == Insert(x, r, le);
      if le(x, r[0]) {
        assert Sort(s, le)[0] == x;
        LeastFront(s, k, le);
      } else {
        assert Insert(x, r, le) == [r[0]] + Insert(x, r[1..], le);
        assert Sort(s, le)[0] == s[k + 1];
        LeastBehind(s, k, le);
      }
    }
  }

  /** `s[i]` may precede every element of `s`, and no earlier element may precede it. */
  ghost predicate FirstLeast<T>(s: seq<T>, i: int, le: (T, T) -> bool)
    requires 0 <= i < |s|
  {
    (forall j :: 0 <= j < |s| ==> le(s[i], s[j])) && (forall j :: 0 <= j < i ==> !le(s[j], s[i]))
  }

  /** A head that may precede the least element of the tail is the least of the whole. */
  lemma LeastFront<T(!new)>(s: seq<T>, k: int, le: (T, T) -> bool)
    requires TotalPreorder(le) && 0 <= k < |s| - 1 && FirstLeast(s[1..], k, le) && le(s[0], s[k + 1])
    ensures FirstLeast(s, 0, le)
  {
    forall j | 0 <= j < |s| ensures le(s[0], s[j]) {
      if j > 0 {
        assert le(s[k + 1], s[1..][j - 1]);
      }
    }
  }

  /** A head that may not precede the least element of the tail leaves it the first least of the whole. */
  lemma LeastBehind<T(!new)>(s: seq<T>, k: int, le: (T, T) -> bool)
    requires TotalPreorder(le) && 0 <= k < |s| - 1 && FirstLeast(s[1..], k, le) && !le(s[0], s[k + 1])
    ensures FirstLeast(s, k + 1, le)
  {
    forall j | 0 <= j < |s| ensures le(s[k + 1], s[j]) {
      if j > 0 {
        assert le(s[1..][k], s[1..][j - 1]);
      } else {
        assert le(s[0], s[k + 1]) || le(s[k + 1], s[0]);
      }
    }
    forall j | 0 <= j < k + 1 ensures !le(s[j], s[k + 1]) {
      if j > 0 {
        assert !le(s[1..][j - 1], s[1..][k]);
      }
    }
  }

  /** The elements with their 1-based positions (`forEach((x, index) => ... index + 1 ...)`). */
  function Numbered<T>(s: seq<T>): (r: seq<(nat, T)>)
    ensures |r| == |s|
    ensures forall i :: 0 <= i < |s| ==> r[i] == (i + 1, s[i])
  {
    seq(|s|, i requires 0 <= i < |s| => (i + 1, s[i]))
  }

  /** `slice(0, n)`. */
  function Take<T>(s: seq<T>, n: nat): (r: seq<T>)
    ensures |r| == if n < |s| then n else |s|
    ensures r <= s
  {
    if n < |s| then s[..n] else s
  }

  /** `slice(-n)`: the last `n` elements, or all of them. */
  function TakeLast<T>(s: seq<T>, n: nat): (r: seq<T>)
    ensures |r| == if n < |s| then n else |s|
    ensures forall i :: 0 <= i < |r| ==> r[i] == s[|s| - |r| + i]
  {
    if n < |s| then s[|s| - n..] else s
  }

  /** The prefix of a sorted list is sorted. */
  lemma TakeSorted<T>(s: seq<T>, n: nat, le: (T, T) -> bool)
    requires SortedBy(s, le)
    ensures SortedBy(Take(s, n), le)
  {
  }

  /** When something is left out of the first `n`, all `n` places are taken. */
  lemma TopFull<T>(s: seq<T>, n: nat, le: (T, T) -> bool)
    ensures forall x :: x in s && x !in Take(Sort(s, le), n) ==> |Take(Sort(s, le), n)| == n
  {
    if |s| <= n {
      forall x | x in s ensures x in Take(Sort(s, le), n) {
        assert x in multiset(s);
        assert x in multiset(Sort(s, le));
      }
    }
  }

  /**
   * `sort(le).slice(-n)`: at most `n` elements, in order, drawn from the
   * list, and no element left out comes after the first one kept.
   */
  lemma LastSpec<T(!new)>(s: seq<T>, n: nat, le: (T, T) -> bool)
    requires n >= 1 && TotalPreorder(le)
    ensures |TakeLast(Sort(s, le), n)| == if |s| < n then |s| else n
    ensures SortedBy(TakeLast(Sort(s, le), n), le)
    ensures forall x :: x in TakeLast(Sort(s, le), n) ==> x in s
    ensures forall x :: x in s ==> x in TakeLast(Sort(s, le), n) || le(x, TakeLast(Sort(s, le), n)[0])
  {
    SortSorted(s, le);
    SortMembers(s, le);
    TakeLastSorted(Sort(s, le), n, le);
  }

  /** Sorting keeps the same elements. */
  lemma SortMembers<T>(s: seq<T>, le: (T, T) -> bool)
    ensures forall x :: x in Sort(s, le) <==> x in s
  {
    var sorted := Sort(s, le);
    forall x ensures x in sorted <==> x in s {
      assert x in sorted <==> x in multiset(sorted);
      assert x in s <==> x in multiset(s);
    }
  }

  /** No two elements share a key. */
  predicate DistinctBy<T, K(==)>(s: seq<T>, key: T -> K)
  {
    forall i, j :: 0 <= i < j < |s| ==> key(s[i]) != key(s[j])
  }

  lemma {:induction false} InsertDistinct<T, K>(x: T, s: seq<T>, le: (T, T) -> bool, key: T -> K)
    requires DistinctBy(s, key) && forall y :: y in s ==> key(y) != key(x)
    ensures DistinctBy(Insert(x, s, le), key)
    decreases |s|
  {
    if s != [] && !le(x, s[0]) {
      var t := Insert(x, s[1..], le);
      InsertDistinct(x, s[1..], le, key);
      forall y | y in t ensures key(y) != key(s[0]) {
        assert y in multiset(t);
        if y != x {
          assert y in multiset(s[1..]);
          var k :| 0 <= k < |s[1..]| && s[1..][k] == y;
          assert s[k + 1] == y;
        }
      }
      assert Insert(x, s, le) == [s[0]] + t;
    }
  }

  /** Sorting keeps keys distinct. */
  lemma {:induction false} SortDistinct<T, K>(s: seq<T>, le: (T, T) -> bool, key: T -> K)
    requires DistinctBy(s, key)
    ensures DistinctBy(Sort(s, le), key)
    decreases |s|
  {
    if s != [] {
      var rest := Sort(s[1..], le);
      SortDistinct(s[1..], le, key);
      forall y | y in rest ensures key(y) != key(s[0]) {
        assert y in multiset(rest);
        var k :| 0 <= k < |s[1..]| && s[1..][k] == y;
        assert s[k + 1] == y;
      }
      InsertDistinct(s[0], rest, le, key);
    }
  }

  function Self<K>(k: K): K { k }

  /**
   * `[...new Set(keys)].sort()`: the keys of `s` sorted are each key once,
   * in order, and exactly the keys of its elements.
   */
  lemma SortKeysSpec<T, K(!new)>(s: seq<T>, key: T -> K, le: (K, K) -> bool)
    requires TotalPreorder(le)
    ensures var r := Sort(Keys(s, key), le);
            |r| == |Keys(s, key)| && SortedBy(r, le) && Distinct(r) &&
            forall k :: k in r <==> exists x :: x in s && key(x) == k
  {
    var ks := Keys(s, key);
    var r := Sort(ks, le);
    SortSorted(ks, le);
    assert DistinctBy(ks, Self);
    SortDistinct(ks, le, Self);
    forall i, j | 0 <= i < j < |r| ensures r[i] != r[j] {
      assert Self(r[i]) != Self(r[j]);
    }
    forall k ensures k in r <==> exists x :: x in s && key(x) == k {
      assert k in r <==> k in multiset(ks);
      if k in ks {
        var n :| 0 <= n < |s| && key(s[n]) == k;
        assert s[n] in s;
      }
      forall x | x in s && key(x) == k ensures k in ks {
        var n :| 0 <= n < |s| && s[n] == x;
      }
    }
  }

  /** Reordering a list keeps its sum. */
  lemma {:induction false} SumPerm<T>(a: seq<T>, b: seq<T>, f: T -> real)
    requires multiset(a) == multiset(b)
    ensures Sum(a, f) == Sum(b, f)
    decreases |a|
  {
    if a == [] {
      assert |b| == |multiset(b)| == 0;
    } else {
      var init, x := a[..|a| - 1], a[|a| - 1];
      assert a == init + [x];
      assert multiset(a) == multiset(init) + multiset{x};
      assert x in multiset(b);
      var j :| 0 <= j < |b| && b[j] == x;
      SumRemoveAt(b, j, f);
      SumPerm(init, b[..j] + b[j + 1..], f);
    }
  }

  /** Taking out the element at `j` takes it out of the multiset and its value out of the sum. */
  lemma SumRemoveAt<T>(b: seq<T>, j: nat, f: T -> real)
    requires j < |b|
    ensures multiset(b[..j] + b[j + 1..]) == multiset(b) - multiset{b[j]}
    ensures Sum(b, f) == Sum(b[..j] + b[j + 1..], f) + f(b[j])
  {
    var left, x, right := b[..j], b[j], b[j + 1..];
    SplitAt(b, j);
    assert multiset(b) == multiset(left + [x]) + multiset(right);
    SumAppend(left + [x], right, f);
    SumAppend(left, right, f);
    assert (left + [x])[..|left|] == left;
  }

  /** A key's total, as a function of the key. */
  function KeyTotal<T, K(==)>(s: seq<T>, key: T -> K, f: T -> real): K -> real
  {
    (k: K) => KeySum(s, key, f, k)
  }

  /** Adding up the group totals of some keys is summing those keys' totals. */
  lemma {:induction false} SumKeysIsSum<T, K>(ks: seq<K>, s: seq<T>, key: T -> K, f: T -> real)
    ensures Sum(ks, KeyTotal(s, key, f)) == SumKeys(ks, s, key, f)
    decreases |ks|
  {
    if ks != [] {
      SumKeysIsSum(ks[..|ks| - 1], s, key, f);
    }
  }

  /** The sum over a key's group is that key's total. */
  lemma {:induction false} MembersSum<T, K>(s: seq<T>, key: T -> K, f: T -> real, k: K)
    ensures Sum(Members(s, key, k), f) == KeySum(s, key, f, k)
    decreases |s|
  {
    if s != [] {
      var init := s[..|s| - 1];
      MembersSum(init, key, f, k);
      if key(s[|s| - 1]) == k {
        var r := Members(s, key, k);
        assert r[..|r| - 1] == Members(init, key, k);
      }
    }
  }

  /** The tail of a sorted list is sorted, and what it leaves out comes no later than its first element. */
  lemma TakeLastSorted<T>(sorted: seq<T>, n: nat, le: (T, T) -> bool)
    requires n >= 1 && SortedBy(sorted, le)
    ensures SortedBy(TakeLast(sorted, n), le)
    ensures forall x :: x in TakeLast(sorted, n) ==> x in sorted
    ensures forall x :: x in sorted ==> x in TakeLast(sorted, n) || le(x, TakeLast(sorted, n)[0])
  {
    var last := TakeLast(sorted, n);
    var d := |sorted| - |last|;
    assert last == sorted[d..];
    forall x | x in sorted ensures x in last || le(x, last[0]) {
      var j :| 0 <= j < |sorted| && sorted[j] == x;
      if j >= d {
        assert last[j - d] == x;
      } else {
        assert le(sorted[j], sorted[d]);
      }
    }
  }

  /**
   * `sort(le).slice(0, n)`: at most `n` elements, in order, drawn from the
   * list, and no element left out comes before the last one kept.
   */
  lemma {:induction false} TopSpec<T(!new)>(s: seq<T>, n: nat, le: (T, T) -> bool)
    requires n >= 1 && TotalPreorder(le)
    ensures |Take(Sort(s, le), n)| == if |s| < n then |s| else n
    ensures SortedBy(Take(Sort(s, le), n), le)
    ensures forall x :: x in Take(Sort(s, le), n) ==> x in s
    ensures forall x :: x in s ==> x in Take(Sort(s, le), n) || le(Take(Sort(s, le), n)[|Take(Sort(s, le), n)| - 1], x)
  {
    var sorted := Sort(s, le);
    SortSorted(s, le);
    SameMembers(sorted, s);
    TopLeftOut(sorted, n, le);
  }

  /** Two lists holding the same elements as often have the same members. */
  lemma SameMembers<T>(a: seq<T>, b: seq<T>)
    requires multiset(a) == multiset(b)
    ensures forall x :: x in a <==> x in b
  {
    forall x ensures x in a <==> x in b {
      assert x in a <==> x in multiset(a);
      assert x in b <==> x in multiset(b);
    }
  }

  /** In a sorted list, an element past the first `n` does not come before the `n`-th. */
  lemma TopLeftOut<T>(sorted: seq<T>, n: nat, le: (T, T) -> bool)
    requires n >= 1 && SortedBy(sorted, le)
    ensures forall x :: x in sorted ==> x in Take(sorted, n) || le(Take(sorted, n)[|Take(sorted, n)| - 1], x)
  {
    var top := Take(sorted, n);
    forall x | x in sorted ensures x in top || le(top[|top| - 1], x) {
      var j :| 0 <= j < |sorted| && sorted[j] == x;
      if j < |top| {
        assert top[j] == x;
      } else {
        assert le(sorted[|top| - 1], sorted[j]);
      }
    }
  }
}
