/**
 * The array operations the components chain together: `filter`,
 * `slice(0, end)`, a stable `sort` by a descending key, and the
 * "first three, then `+n more`" preview of a detail list.
 */
module Lists {
  import opened Types

  /** `s.filter(p)`. */
  function Filter<T>(s: seq<T>, p: T -> bool): (r: seq<T>)
    ensures |r| <= |s|
    ensures forall i :: 0 <= i < |r| ==> p(r[i])
    ensures multiset(r) <= multiset(s)
  {
    if |s| == 0 then []
    else
      assert s == [s[0]] + s[1..];
      (if p(s[0]) then [s[0]] else []) + Filter(s[1..], p)
  }

  /** An element of `s` is kept by `filter` exactly when it satisfies the predicate. */
  lemma {:induction false} FilterMembers<T>(s: seq<T>, p: T -> bool, x: T)
    ensures x in Filter(s, p) <==> x in s && p(x)
  {
    if |s| > 0 {
      FilterMembers(s[1..], p, x);
      assert s == [s[0]] + s[1..];
    }
  }

  lemma {:induction false} FilterAppend<T>(s: seq<T>, t: seq<T>, p: T -> bool)
    ensures Filter(s + t, p) == Filter(s, p) + Filter(t, p)
  {
    if |s| == 0 {
      assert s + t == t;
    } else {
      var head := if p(s[0]) then [s[0]] else [];
      FilterAppend(s[1..], t, p);
      assert (s + t)[1..] == s[1..] + t;
      assert (s + t)[0] == s[0];
      calc {
        Filter(s + t, p);
        head + Filter(s[1..] + t, p);
        head + (Filter(s[1..], p) + Filter(t, p));
        (head + Filter(s[1..], p)) + Filter(t, p);
      }
    }
  }

  /**
   * Filtering by a weaker predicate first changes nothing: when `p` implies
   * `q`, keeping the `q` elements and then the `p` elements keeps exactly
   * the `p` elements, in their original order.
   */
  lemma {:induction false} FilterOfFilter<T>(s: seq<T>, p: T -> bool, q: T -> bool)
    requires forall x :: p(x) ==> q(x)
    ensures Filter(Filter(s, q), p) == Filter(s, p)
  {
    if |s| > 0 {
      FilterOfFilter(s[1..], p, q);
      var head := if q(s[0]) then [s[0]] else [];
      FilterAppend(head, Filter(s[1..], q), p);
      assert Filter([s[0]], p) == if p(s[0]) then [s[0]] else [];
    }
  }

  /** Filtering twice by the same predicate is filtering once. */
  lemma FilterIdempotent<T>(s: seq<T>, p: T -> bool)
    ensures Filter(Filter(s, p), p) == Filter(s, p)
  {
    FilterOfFilter(s, p, p);
  }

  /** When every element passes, `filter` returns the sequence itself. */
  lemma {:induction false} FilterAll<T>(s: seq<T>, p: T -> bool)
    requires forall i :: 0 <= i < |s| ==> p(s[i])
    ensures Filter(s, p) == s
  {
    if |s| > 0 {
      FilterAll(s[1..], p);
      assert s == [s[0]] + s[1..];
    }
  }

  /** Nothing passes a filter that every element fails. */
  lemma FilterNone<T>(s: seq<T>, p: T -> bool)
    requires forall i :: 0 <= i < |s| ==> !p(s[i])
    ensures Filter(s, p) == []
  {
  }

  /** `s.map(f)`. */
  function Map<A, B>(s: seq<A>, f: A -> B): (r: seq<B>)
    ensures |r| == |s|
    ensures forall i :: 0 <= i < |s| ==> r[i] == f(s[i])
  {
    if |s| == 0 then [] else [f(s[0])] + Map(s[1..], f)
  }

  /** The end index `slice(0, end)` stops at, `end` being absent, negative or too large. */
  function SliceEnd(len: nat, end: Option<int>): (k: nat)
    ensures k <= len
    ensures end.None? ==> k == len
    ensures end.Some? && end.value >= 0 ==> k == if end.value < len then end.value else len
    ensures end.Some? && end.value < 0 ==> k == if len + end.value > 0 then len + end.value else 0
  {
    match end
    case None => len
    case Some(n) =>
      if n >= 0 then (if n < len then n else len)
      else (if len + n > 0 then len + n else 0)
  }

  /** `s.slice(0, end)`. */
  function SliceTo<T>(s: seq<T>, end: Option<int>): (r: seq<T>)
    ensures r == s[..SliceEnd(|s|, end)]
  {
    s[..SliceEnd(|s|, end)]
  }

  /** A sort key compared lexicographically: `major` first, then `minor`. */
  datatype Key = Key(major: int, minor: int)

  predicate KeyLe(a: Key, b: Key) {
    a.major < b.major || (a.major == b.major && a.minor <= b.minor)
  }

  /** Every element is ranked at or above every later one. */
  predicate SortedDesc<T>(s: seq<T>, key: T -> Key) {
    forall i, j :: 0 <= i < j < |s| ==> KeyLe(key(s[j]), key(s[i]))
  }

  /** The elements of `s` whose key is `k`, in their order in `s`. */
  function WithKey<T>(s: seq<T>, key: T -> Key, k: Key): seq<T> {
    if |s| == 0 then [] else (if key(s[0]) == k then [s[0]] else []) + WithKey(s[1..], key, k)
  }

  /**
   * Inserts `x` in front of the first element not ranked strictly above it,
   * so that `x` stays ahead of the equal elements that follow it in the input.
   */
  function Insert<T>(x: T, s: seq<T>, key: T -> Key): (r: seq<T>)
    ensures |r| == |s| + 1
    ensures multiset(r) == multiset(s) + multiset{x}
  {
    if |s| == 0 || KeyLe(key(s[0]), key(x)) then
      [x] + s
    else
      assert s == [s[0]] + s[1..];
      [s[0]] + Insert(x, s[1..], key)
  }

  /** Inserting into a sorted sequence keeps it sorted. */
  lemma {:induction false} InsertSorted<T>(x: T, s: seq<T>, key: T -> Key)
    requires SortedDesc(s, key)
    ensures SortedDesc(Insert(x, s, key), key)
  {
    if |s| > 0 && !KeyLe(key(s[0]), key(x)) {
      var rest := Insert(x, s[1..], key);
      InsertSorted(x, s[1..], key);
      var r := [s[0]] + rest;
      forall j | 0 < j < |r| ensures KeyLe(key(r[j]), key(s[0])) {
        var y := rest[j - 1];
        assert y in multiset(rest);
        assert y == x || y in multiset(s[1..]);
        if y != x {
          var m :| 0 <= m < |s[1..]| && s[1..][m] == y;
          assert s[m + 1] == y;
        }
      }
    }
  }

  lemma WithKeyCons<T>(y: T, s: seq<T>, key: T -> Key, k: Key)
    ensures WithKey([y] + s, key, k) == (if key(y) == k then [y] else []) + WithKey(s, key, k)
  {
    assert ([y] + s)[1..] == s;
  }

  /** Inserting `x` puts it in front of the elements with its key and disturbs no other key. */
  lemma {:induction false} InsertWithKey<T>(x: T, s: seq<T>, key: T -> Key, k: Key)
    ensures WithKey(Insert(x, s, key), key, k) == if key(x) == k then [x] + WithKey(s, key, k) else WithKey(s, key, k)
  {
    if |s| == 0 || KeyLe(key(s[0]), key(x)) {
      WithKeyCons(x, s, key, k);
    } else {
      var rest := Insert(x, s[1..], key);
      assert Insert(x, s, key) == [s[0]] + rest;
      InsertWithKey(x, s[1..], key, k);
      WithKeyCons(s[0], rest, key, k);
      assert s == [s[0]] + s[1..];
      WithKeyCons(s[0], s[1..], key, k);
      var head := if key(s[0]) == k then [s[0]] else [];
      if key(x) == k {
        // s[0] is ranked strictly above x, so its key is not k
        assert head == [];
        assert WithKey(rest, key, k) == [x] + WithKey(s[1..], key, k);
      }
    }
  }

  /**
   * `[...s].sort(cmp)` for a comparator that orders by a key, largest first.
   * JavaScript's sort is stable, so elements with equal keys keep their
   * input order; a stable sort's result is determined by this key.
   */
  function SortDesc<T>(s: seq<T>, key: T -> Key): (r: seq<T>)
    ensures |r| == |s|
    ensures multiset(r) == multiset(s)
    ensures SortedDesc(r, key)
    ensures forall k :: WithKey(r, key, k) == WithKey(s, key, k)
  {
    if |s| == 0 then []
    else
      var sorted := SortDesc(s[1..], key);
      var r := Insert(s[0], sorted, key);
      assert s == [s[0]] + s[1..];
      InsertSorted(s[0], sorted, key);
      assert forall k :: WithKey(r, key, k) == WithKey(s, key, k) by {
        forall k ensures WithKey(r, key, k) == WithKey(s, key, k) {
          InsertWithKey(s[0], sorted, key, k);
          WithKeyCons(s[0], s[1..], key, k);
        }
      }
      r
  }

  /** When every element has key `k`, picking the elements with key `k` picks them all. */
  lemma {:induction false} WithKeyAll<T>(s: seq<T>, key: T -> Key, k: Key)
    requires forall i :: 0 <= i < |s| ==> key(s[i]) == k
    ensures WithKey(s, key, k) == s
  {
    if |s| > 0 {
      WithKeyAll(s[1..], key, k);
      assert s == [s[0]] + s[1..];
    }
  }

  /** Sorting elements that all rank the same leaves them in input order. */
  lemma SortEqualKeys<T>(s: seq<T>, key: T -> Key, k: Key)
    requires forall i :: 0 <= i < |s| ==> key(s[i]) == k
    ensures SortDesc(s, key) == s
  {
    var r := SortDesc(s, key);
    forall i | 0 <= i < |r| ensures key(r[i]) == k {
      assert r[i] in multiset(s);
    }
    WithKeyAll(s, key, k);
    WithKeyAll(r, key, k);
  }

  /** Picking by key from a prefix gives a prefix of picking by key from the whole. */
  lemma {:induction false} WithKeyPrefix<T>(s: seq<T>, n: nat, key: T -> Key, k: Key)
    requires n <= |s|
    ensures WithKey(s[..n], key, k) <= WithKey(s, key, k)
  {
    if n > 0 {
      WithKeyPrefix(s[1..], n - 1, key, k);
      assert s[..n][1..] == s[1..][..n - 1];
    }
  }

  /**
   * `[...s].sort(cmp).slice(0, maxItems)` for a comparator that orders by a
   * key, largest first: as many elements as the slice allows, taken from the
   * input, in order, and ranked at or above every element left out; among
   * equal keys, the ones shown are the first ones of the input, in input order.
   */
  function SortTake<T>(s: seq<T>, key: T -> Key, maxItems: Option<int>): (r: seq<T>)
    ensures |r| == SliceEnd(|s|, maxItems)
    ensures multiset(r) <= multiset(s)
    ensures SortedDesc(r, key)
    ensures forall x, y :: x in r && y in multiset(s) - multiset(r) ==> KeyLe(key(y), key(x))
    ensures forall k :: WithKey(r, key, k) <= WithKey(s, key, k)
  {
    var full := SortDesc(s, key);
    var n := SliceEnd(|s|, maxItems);
    SortedPrefix(s, full, key, n);
    full[..n]
  }

  /** Without a cut, the sorted copy holds every element. */
  lemma SortTakeAll<T>(s: seq<T>, key: T -> Key)
    ensures multiset(SortTake(s, key, None)) == multiset(s)
  {
    var full := SortDesc(s, key);
    assert SortTake(s, key, None) == full[..|s|];
    assert full[..|s|] == full;
  }

  /** The first `n` elements of a stable sort of `s` are the ones `SortTake` promises. */
  lemma SortedPrefix<T>(s: seq<T>, full: seq<T>, key: T -> Key, n: nat)
    requires n <= |full|
    requires multiset(full) == multiset(s) && SortedDesc(full, key)
    requires forall k :: WithKey(full, key, k) == WithKey(s, key, k)
    ensures multiset(full[..n]) <= multiset(s)
    ensures SortedDesc(full[..n], key)
    ensures forall x, y :: x in full[..n] && y in multiset(s) - multiset(full[..n]) ==> KeyLe(key(y), key(x))
    ensures forall k :: WithKey(full[..n], key, k) <= WithKey(s, key, k)
  {
    var r := full[..n];
    assert full == r + full[n..];
    assert multiset(full) == multiset(r) + multiset(full[n..]);
    forall x, y | x in r && y in multiset(s) - multiset(r) ensures KeyLe(key(y), key(x)) {
      var i :| 0 <= i < n && r[i] == x;
      assert y in multiset(full[n..]);
      var j :| 0 <= j < |full[n..]| && full[n..][j] == y;
      assert full[n + j] == y;
    }
    forall k ensures WithKey(r, key, k) <= WithKey(s, key, k) {
      WithKeyPrefix(full, n, key, k);
    }
  }

  /**
   * The preview of a detail list: the first three entries, and the number of
   * entries left over when there are more than three.
   */
  datatype Preview<T> = Preview(shown: seq<T>, more: Option<nat>)

  function PreviewDetails<T>(details: seq<T>): (p: Preview<T>)
    ensures |p.shown| == (if |details| < 3 then |details| else 3) && p.shown == details[..|p.shown|]
    ensures p.more.Some? <==> |details| > 3
    ensures p.more.Some? ==> p.more.value == |details| - 3 && |p.shown| + p.more.value == |details|
    ensures p.more.None? ==> p.shown == details
  {
    var shown := SliceTo(details, Some(3));
    Preview(shown, if |details| > 3 then Some(|details| - 3) else None)
  }
}
