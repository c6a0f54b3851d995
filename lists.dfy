/** The array idioms the pages repeat: `reduce` into a sum, `filter`, `filter(...).length`,
    `find`, and the one-element `filter`/`map` edits that delete or replace a row by id. */
module Lists {
  import opened Wrappers

  /** `s.reduce((sum, x) => sum + f(x), 0)`. */
  function Sum<T>(s: seq<T>, f: T -> real): real
  {
    if s == [] then 0.0 else Sum(s[..|s| - 1], f) + f(s[|s| - 1])
  }

  /** Two term functions that agree on every element of a list give it the same sum. */
  lemma {:induction false} SumSameTerms<T>(s: seq<T>, f: T -> real, g: T -> real)
    requires forall i :: 0 <= i < |s| ==> f(s[i]) == g(s[i])
    ensures Sum(s, f) == Sum(s, g)
  {
    if s != [] {
      SumSameTerms(s[..|s| - 1], f, g);
    }
  }

  lemma {:induction false} SumAppend<T>(a: seq<T>, b: seq<T>, f: T -> real)
    ensures Sum(a + b, f) == Sum(a, f) + Sum(b, f)
  {
    if b != [] {
      assert (a + b)[..|a + b| - 1] == a + b[..|b| - 1];
      SumAppend(a, b[..|b| - 1], f);
    } else {
      assert a + b == a;
    }
  }

  /** Sums of non-negative terms are non-negative. */
  lemma {:induction false} SumNonNegative<T>(s: seq<T>, f: T -> real)
    requires forall i :: 0 <= i < |s| ==> f(s[i]) >= 0.0
    ensures Sum(s, f) >= 0.0
  {
    if s != [] {
      SumNonNegative(s[..|s| - 1], f);
    }
  }

  /** A sum of terms that are all non-negative is non-negative. */
  lemma SumNonNegativeWhen<T>(s: seq<T>, f: T -> real)
    ensures (forall i :: 0 <= i < |s| ==> f(s[i]) >= 0.0) ==> Sum(s, f) >= 0.0
  {
    if forall i :: 0 <= i < |s| ==> f(s[i]) >= 0.0 {
      SumNonNegative(s, f);
    }
  }

  /** Summing a difference termwise is the difference of the sums. */
  lemma {:induction false} SumDifference<T>(s: seq<T>, f: T -> real, g: T -> real, h: T -> real)
    requires forall x :: h(x) == f(x) - g(x)
    ensures Sum(s, h) == Sum(s, f) - Sum(s, g)
  {
    if s != [] {
      SumDifference(s[..|s| - 1], f, g, h);
    }
  }

  /** `s.filter(p)`: the elements satisfying `p`, in their original order. */
  function Filter<T>(s: seq<T>, p: T -> bool): (r: seq<T>)
    ensures |r| <= |s|
    ensures forall i :: 0 <= i < |r| ==> r[i] in s && p(r[i])
    ensures forall i :: 0 <= i < |s| && p(s[i]) ==> s[i] in r
  {
    if s == [] then [] else (if p(s[0]) then [s[0]] else []) + Filter(s[1..], p)
  }

  lemma {:induction false} FilterAppend<T>(a: seq<T>, b: seq<T>, p: T -> bool)
    ensures Filter(a + b, p) == Filter(a, p) + Filter(b, p)
  {
    if a == [] {
      assert a + b == b;
    } else {
      assert (a + b)[0] == a[0];
      assert (a + b)[1..] == a[1..] + b;
      FilterAppend(a[1..], b, p);
    }
  }

  /** A one-element list is kept or dropped whole. */
  lemma FilterSingle<T>(x: T, p: T -> bool)
    ensures Filter([x], p) == if p(x) then [x] else []
  {
    assert [x][1..] == [];
  }

  /** A filter every element passes changes nothing. */
  lemma {:induction false} FilterAll<T>(s: seq<T>, p: T -> bool)
    requires forall i :: 0 <= i < |s| ==> p(s[i])
    ensures Filter(s, p) == s
  {
    if s != [] {
      FilterAll(s[1..], p);
      assert [s[0]] + s[1..] == s;
    }
  }

  /** A filter no element passes leaves nothing. */
  lemma {:induction false} FilterNone<T>(s: seq<T>, p: T -> bool)
    requires forall i :: 0 <= i < |s| ==> !p(s[i])
    ensures Filter(s, p) == []
  {
    if s != [] {
      FilterNone(s[1..], p);
    }
  }

  /** `s.filter(p).length`. */
  function Count<T>(s: seq<T>, p: T -> bool): nat
  {
    |Filter(s, p)|
  }

  /** Two predicates no element satisfies together count at most `|s|` elements. */
  lemma {:induction false} CountDisjoint<T>(s: seq<T>, p: T -> bool, q: T -> bool)
    requires forall i :: 0 <= i < |s| ==> !(p(s[i]) && q(s[i]))
    ensures Count(s, p) + Count(s, q) <= |s|
  {
    if s != [] {
      CountDisjoint(s[1..], p, q);
    }
  }

  /** When every element satisfies exactly one of two predicates, their counts add up
      to `|s|`. */
  lemma {:induction false} CountPartition<T>(s: seq<T>, p: T -> bool, q: T -> bool)
    requires forall i :: 0 <= i < |s| ==> p(s[i]) != q(s[i])
    ensures Count(s, p) + Count(s, q) == |s|
  {
    if s != [] {
      CountPartition(s[1..], p, q);
    }
  }

  /** A count is at most the length; it is the length exactly when every element passes,
      and zero exactly when none does. */
  lemma {:induction false} CountBounds<T>(s: seq<T>, p: T -> bool)
    ensures Count(s, p) <= |s|
    ensures Count(s, p) == |s| <==> forall i :: 0 <= i < |s| ==> p(s[i])
    ensures Count(s, p) == 0 <==> forall i :: 0 <= i < |s| ==> !p(s[i])
  {
    if s != [] {
      CountBounds(s[1..], p);
      assert forall i :: 1 <= i < |s| ==> s[i] == s[1..][i - 1];
    }
  }

  /** An appended element adds one to the count when it passes. */
  lemma CountAppend<T>(s: seq<T>, x: T, p: T -> bool)
    ensures Count(s + [x], p) == Count(s, p) + (if p(x) then 1 else 0)
  {
    FilterAppend(s, [x], p);
    FilterSingle(x, p);
  }

  /** Filtering around one element: the parts before and after it filter separately. */
  lemma {:induction false} FilterWithout<T>(s: seq<T>, i: nat, p: T -> bool)
    requires i < |s|
    ensures Filter(s, p) == Filter(s[..i], p) + Filter([s[i]], p) + Filter(s[i + 1..], p)
    ensures Filter(s[..i] + s[i + 1..], p) == Filter(s[..i], p) + Filter(s[i + 1..], p)
  {
    var a, m, b, c := s[..i], [s[i]], s[i + 1..], s[..i + 1];
    assert c + b == s;
    assert a + m == c;
    FilterAppend(c, b, p);
    FilterAppend(a, m, p);
    FilterAppend(a, b, p);
  }

  /** Dropping row `i` lowers a count by one exactly when that row passes. */
  lemma {:induction false} CountWithout<T>(s: seq<T>, i: nat, p: T -> bool)
    requires i < |s|
    ensures Count(s[..i] + s[i + 1..], p) + (if p(s[i]) then 1 else 0) == Count(s, p)
  {
    FilterWithout(s, i, p);
    FilterSingle(s[i], p);
  }

  /** Dropping row `i` takes its term out of a filtered sum exactly when it passes. */
  lemma {:induction false} SumFilterWithout<T>(s: seq<T>, i: nat, p: T -> bool, f: T -> real)
    requires i < |s|
    ensures Sum(Filter(s[..i] + s[i + 1..], p), f) + (if p(s[i]) then f(s[i]) else 0.0) == Sum(Filter(s, p), f)
  {
    var a, b, m := Filter(s[..i], p), Filter(s[i + 1..], p), Filter([s[i]], p);
    FilterWithout(s, i, p);
    FilterSingle(s[i], p);
    SumAppend(a + m, b, f);
    SumAppend(a, m, f);
    SumAppend(a, b, f);
    assert Sum([s[i]], f) == f(s[i]);
  }

  /** `f` on the elements that pass `p`, zero on the others. */
  function Masked<T>(p: T -> bool, f: T -> real): T -> real
  {
    x => if p(x) then f(x) else 0.0
  }

  /** Summing over a filter is summing over every element, those failing the test as
      zero. */
  lemma {:induction false} SumFilter<T>(s: seq<T>, p: T -> bool, f: T -> real)
    ensures Sum(Filter(s, p), f) == Sum(s, Masked(p, f))
  {
    if s != [] {
      var n := |s| - 1;
      var init, x := s[..n], s[n];
      assert s == init + [x];
      SumFilter(init, p, f);
      FilterAppend(init, [x], p);
      FilterSingle(x, p);
      SumAppend(Filter(init, p), Filter([x], p), f);
      assert Sum([x], f) == f(x);
    }
  }

  /** `s.find(p)`: the first element satisfying `p`, if any. */
  function Find<T>(s: seq<T>, p: T -> bool): (r: Option<T>)
    ensures r.Some? <==> exists i :: 0 <= i < |s| && p(s[i])
    ensures r.Some? ==> exists i :: 0 <= i < |s| && s[i] == r.value && p(s[i])
                                    && forall j :: 0 <= j < i ==> !p(s[j])
  {
    if s == [] then None
    else if p(s[0]) then Some(s[0])
    else
      var r := Find(s[1..], p);
      assert forall i :: 1 <= i < |s| ==> s[i] == s[1..][i - 1];
      r
  }

  /** The keys of a list are pairwise distinct. */
  ghost predicate UniqueKeys<T, K>(s: seq<T>, key: T -> K)
  {
    forall i, j :: 0 <= i < j < |s| ==> key(s[i]) != key(s[j])
  }

  function KeyIs<T, K(==)>(key: T -> K, k: K): T -> bool
  {
    x => key(x) == k
  }

  /** `s.find(x => key(x) === k)`: the first row whose key is `k`. */
  function FindKey<T, K(==)>(s: seq<T>, key: T -> K, k: K): (r: Option<T>)
    ensures r.Some? <==> exists i :: 0 <= i < |s| && key(s[i]) == k
    ensures r.Some? ==> r.value in s && key(r.value) == k
    ensures r.Some? ==> exists i :: 0 <= i < |s| && s[i] == r.value && key(s[i]) == k
                                    && forall j :: 0 <= j < i ==> key(s[j]) != k
  {
    var r := Find(s, KeyIs(key, k));
    assert forall i :: 0 <= i < |s| ==> (KeyIs(key, k)(s[i]) <==> key(s[i]) == k);
    r
  }

  /** Filtering with a test that every match of `p` passes keeps the first match. */
  lemma {:induction false} FindFilter<T>(s: seq<T>, p: T -> bool, q: T -> bool)
    requires forall x :: p(x) ==> q(x)
    ensures Find(Filter(s, q), p) == Find(s, p)
  {
    if s != [] {
      FindFilter(s[1..], p, q);
      var rest := Filter(s[1..], q);
      FilterHead(s, q);
      if q(s[0]) {
        assert ([s[0]] + rest)[0] == s[0];
        assert ([s[0]] + rest)[1..] == rest;
      } else {
        assert [] + rest == rest;
      }
    }
  }

  /** Appending does not move a first match that already exists. */
  lemma {:induction false} FindAppend<T>(s: seq<T>, x: T, p: T -> bool)
    requires Find(s, p).Some?
    ensures Find(s + [x], p) == Find(s, p)
  {
    var t := s + [x];
    assert t[0] == s[0];
    if !p(s[0]) {
      assert t[1..] == s[1..] + [x];
      FindAppend(s[1..], x, p);
    }
  }

  function KeyIsNot<T, K(==)>(key: T -> K, k: K): T -> bool
  {
    x => key(x) != k
  }

  /** `s.filter(x => key(x) !== k)`: the list without the rows whose key is `k`. */
  function RemoveKey<T, K(==)>(s: seq<T>, key: T -> K, k: K): (r: seq<T>)
    ensures forall i :: 0 <= i < |r| ==> r[i] in s && key(r[i]) != k
    ensures forall i :: 0 <= i < |s| && key(s[i]) != k ==> s[i] in r
  {
    Filter(s, KeyIsNot(key, k))
  }

  /** Removing another key leaves the first row keyed `k` where it was found. */
  lemma FindKeyAfterRemove<T, K>(s: seq<T>, key: T -> K, k: K, other: K)
    requires k != other
    ensures FindKey(RemoveKey(s, key, other), key, k) == FindKey(s, key, k)
  {
    var p, q := KeyIs(key, k), KeyIsNot(key, other);
    forall x ensures p(x) ==> q(x) { }
    FindFilter(s, p, q);
  }

  /** Appending a row does not change a first row keyed `k` that already exists. */
  lemma FindKeyAfterAppend<T, K>(s: seq<T>, x: T, key: T -> K, k: K)
    requires FindKey(s, key, k).Some?
    ensures FindKey(s + [x], key, k) == FindKey(s, key, k)
  {
    FindAppend(s, x, KeyIs(key, k));
  }

  /** Removing the key that only the middle one of three rows has keeps the outer two. */
  lemma RemoveMiddle<T, K>(a: T, b: T, c: T, key: T -> K, k: K)
    requires key(a) != k && key(b) == k && key(c) != k
    ensures RemoveKey([a, b, c], key, k) == [a, c]
  {
    var p := KeyIsNot(key, k);
    assert p(a) && !p(b) && p(c);
    var s := [a, b, c];
    FilterHead(s, p);
    assert s[1..] == [b, c];
    FilterHead([b, c], p);
    assert [b, c][1..] == [c];
    FilterSingle(c, p);
  }

  /** With distinct keys, removing the key of row `i` drops exactly that row and keeps
      the others in their order. */
  lemma {:induction false} RemoveKeyAt<T, K>(s: seq<T>, key: T -> K, i: nat)
    requires i < |s| && UniqueKeys(s, key)
    ensures RemoveKey(s, key, key(s[i])) == s[..i] + s[i + 1..]
  {
    var p := KeyIsNot(key, key(s[i]));
    var tail := s[1..];
    FilterHead(s, p);
    if i == 0 {
      forall j | 0 <= j < |tail|
        ensures p(tail[j])
      {
        assert tail[j] == s[j + 1];
      }
      FilterAll(tail, p);
    } else {
      assert key(s[0]) != key(s[i]);
      UniqueKeysTail(s, key);
      assert tail[i - 1] == s[i];
      RemoveKeyAt(tail, key, i - 1);
      SlicesAfterHead(s, i);
    }
  }

  /** A non-empty list is filtered by its head, then its tail. */
  lemma FilterHead<T>(s: seq<T>, p: T -> bool)
    requires s != []
    ensures Filter(s, p) == (if p(s[0]) then [s[0]] else []) + Filter(s[1..], p)
  {
  }

  lemma UniqueKeysTail<T, K>(s: seq<T>, key: T -> K)
    requires s != [] && UniqueKeys(s, key)
    ensures UniqueKeys(s[1..], key)
  {
    var tail := s[1..];
    forall i, j | 0 <= i < j < |tail|
      ensures key(tail[i]) != key(tail[j])
    {
      assert tail[i] == s[i + 1] && tail[j] == s[j + 1];
    }
  }

  lemma SlicesAfterHead<T>(s: seq<T>, i: nat)
    requires 1 <= i < |s|
    ensures [s[0]] + (s[1..][..i - 1] + s[1..][i..]) == s[..i] + s[i + 1..]
  {
    assert s[1..][..i - 1] == s[1..i];
    assert s[1..][i..] == s[i + 1..];
    assert [s[0]] + s[1..i] == s[..i];
  }

  /** Dropping one row keeps the other keys distinct. */
  lemma UniqueKeysWithout<T, K>(s: seq<T>, key: T -> K, i: nat)
    requires i < |s| && UniqueKeys(s, key)
    ensures UniqueKeys(s[..i] + s[i + 1..], key)
  {
    var r := s[..i] + s[i + 1..];
    forall a, b | 0 <= a < b < |r|
      ensures key(r[a]) != key(r[b])
    {
      var a' := if a < i then a else a + 1;
      var b' := if b < i then b else b + 1;
      assert r[a] == s[a'] && r[b] == s[b'];
    }
  }

  /** Removing a key that no row has changes nothing. */
  lemma RemoveAbsentKey<T, K>(s: seq<T>, key: T -> K, k: K)
    requires forall i :: 0 <= i < |s| ==> key(s[i]) != k
    ensures RemoveKey(s, key, k) == s
  {
    FilterAll(s, KeyIsNot(key, k));
  }

  /** `after` is `before` without its row keyed `k`, or `before` itself when no row has
      that key. */
  ghost predicate RemovedExactly<T, K>(before: seq<T>, after: seq<T>, key: T -> K, k: K)
  {
    && (forall i :: 0 <= i < |before| && key(before[i]) == k ==> after == before[..i] + before[i + 1..])
    && ((forall i :: 0 <= i < |before| ==> key(before[i]) != k) ==> after == before)
  }

  /** With distinct keys, removing a key drops exactly the row that has it. */
  lemma RemoveUniqueKey<T, K>(s: seq<T>, key: T -> K, k: K)
    requires UniqueKeys(s, key)
    ensures RemovedExactly(s, RemoveKey(s, key, k), key, k)
  {
    forall i | 0 <= i < |s| && key(s[i]) == k
      ensures RemoveKey(s, key, k) == s[..i] + s[i + 1..]
    {
      RemoveKeyAt(s, key, i);
    }
    if forall i :: 0 <= i < |s| ==> key(s[i]) != k {
      RemoveAbsentKey(s, key, k);
    }
  }

  /** Dropping row `i` takes exactly its term out of a sum. */
  lemma SumWithout<T>(s: seq<T>, i: nat, f: T -> real)
    requires i < |s|
    ensures Sum(s[..i] + s[i + 1..], f) == Sum(s, f) - f(s[i])
  {
    var front, back := s[..i], s[i + 1..];
    var withRow := front + [s[i]];
    assert withRow[..|withRow| - 1] == front;
    assert Sum(withRow, f) == Sum(front, f) + f(s[i]);
    assert s == withRow + back;
    SumAppend(withRow, back, f);
    SumAppend(front, back, f);
  }

  /** When every element satisfies exactly one of two predicates, the sums over the two
      filters add up to the sum over all elements. */
  lemma {:induction false} SumPartition<T>(s: seq<T>, p: T -> bool, q: T -> bool, f: T -> real)
    requires forall i :: 0 <= i < |s| ==> p(s[i]) != q(s[i])
    ensures Sum(Filter(s, p), f) + Sum(Filter(s, q), f) == Sum(s, f)
  {
    if s != [] {
      SumPartition(s[1..], p, q, f);
      var hp := if p(s[0]) then [s[0]] else [];
      var hq := if q(s[0]) then [s[0]] else [];
      SumAppend(hp, Filter(s[1..], p), f);
      SumAppend(hq, Filter(s[1..], q), f);
      SumAppend([s[0]], s[1..], f);
      assert [s[0]] + s[1..] == s;
    }
  }

  /** `s.find(x => key(x) === k)?.name ?? fallback`: the name of the first row keyed
      `k`, or the fallback when there is none. */
  function NameOr<T, K(==)>(s: seq<T>, key: T -> K, name: T -> string, k: K, fallback: string): (r: string)
    ensures (forall i :: 0 <= i < |s| ==> key(s[i]) != k) ==> r == fallback
    ensures (exists i :: 0 <= i < |s| && key(s[i]) == k) ==>
              exists i :: 0 <= i < |s| && key(s[i]) == k && r == name(s[i])
                          && forall j :: 0 <= j < i ==> key(s[j]) != k
  {
    var found := Find(s, KeyIs(key, k));
    assert forall i :: 0 <= i < |s| ==> (KeyIs(key, k)(s[i]) <==> key(s[i]) == k);
    if found.Some? then name(found.value) else fallback
  }

  /** `s.map(x => key(x) === k ? v : x)`. */
  function ReplaceKey<T, K(==)>(s: seq<T>, key: T -> K, k: K, v: T): (r: seq<T>)
    ensures |r| == |s|
    ensures forall i :: 0 <= i < |s| ==> r[i] == if key(s[i]) == k then v else s[i]
  {
    if s == [] then []
    else [if key(s[0]) == k then v else s[0]] + ReplaceKey(s[1..], key, k, v)
  }

  /** `after` is `before` with its row keyed `k` replaced by `v`, or `before` itself
      when no row has that key. */
  ghost predicate ReplacedExactly<T, K>(before: seq<T>, after: seq<T>, key: T -> K, k: K, v: T)
  {
    && (forall i :: 0 <= i < |before| && key(before[i]) == k ==> after == before[i := v])
    && ((forall i :: 0 <= i < |before| ==> key(before[i]) != k) ==> after == before)
  }

  /** With distinct keys, replacing a key changes exactly the row that has it. */
  lemma ReplaceUniqueKey<T, K>(s: seq<T>, key: T -> K, k: K, v: T)
    requires UniqueKeys(s, key)
    ensures ReplacedExactly(s, ReplaceKey(s, key, k, v), key, k, v)
  {
    forall i | 0 <= i < |s| && key(s[i]) == k
      ensures ReplaceKey(s, key, k, v) == s[i := v]
    {
      ReplaceKeyAt(s, key, i, v);
    }
  }

  /** With distinct keys, replacing the key of row `i` changes that row alone. */
  lemma ReplaceKeyAt<T, K>(s: seq<T>, key: T -> K, i: nat, v: T)
    requires i < |s| && UniqueKeys(s, key)
    ensures ReplaceKey(s, key, key(s[i]), v) == s[i := v]
  {
  }
}
