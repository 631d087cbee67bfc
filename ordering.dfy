/**
 * Sequence operations behind the client-side "derived views" of the destination
 * catalog: a stable sort in non-increasing key order, `Array.prototype.slice(0, end)`,
 * and the bookkeeping needed to state stability and order preservation.
 */
module Ordering {

  /** `s` is in non-increasing order of `key`. */
  predicate SortedDesc<T>(s: seq<T>, key: T -> real) {
    forall i, j :: 0 <= i < j < |s| ==> key(s[i]) >= key(s[j])
  }

  /** The elements of `s` whose key is exactly `k`, in the order they occur in `s`. */
  function KeyFilter<T>(s: seq<T>, key: T -> real, k: real): seq<T> {
    if s == [] then [] else Keep(s[0], key, k) + KeyFilter(s[1..], key, k)
  }

  /** `[x]` when `x` has key `k`, otherwise nothing. */
  function Keep<T>(x: T, key: T -> real, k: real): seq<T> {
    if key(x) == k then [x] else []
  }

  /**
   * A reordering is stable when the items of each key keep their relative order.
   * Since every item has some key, this also makes `r` a permutation of `s`.
   */
  ghost predicate SameKeyOrder<T>(r: seq<T>, s: seq<T>, key: T -> real) {
    forall k :: KeyFilter(r, key, k) == KeyFilter(s, key, k)
  }

  /** `a` can be obtained from `b` by deleting elements (the order of `a` is the order in `b`). */
  predicate IsSubsequence<T(==)>(a: seq<T>, b: seq<T>)
    decreases |b|
  {
    a == [] || (b != [] && ((a[0] == b[0] && IsSubsequence(a[1..], b[1..])) || IsSubsequence(a, b[1..])))
  }

  /**
   * Inserts `x` in front of the first element whose key is not larger than its own,
   * so `x` precedes every element of `s` with the same key.
   */
  function Insert<T>(x: T, s: seq<T>, key: T -> real): (r: seq<T>)
    ensures |r| == |s| + 1
    ensures multiset(r) == multiset(s) + multiset{x}
  {
    if s == [] || key(s[0]) <= key(x) then [x] + s
    else
      assert s == [s[0]] + s[1..];
      [s[0]] + Insert(x, s[1..], key)
  }

  /** Every key of `s` is at most `b`. */
  predicate KeysAtMost<T>(s: seq<T>, key: T -> real, b: real) {
    forall i :: 0 <= i < |s| ==> key(s[i]) <= b
  }

  /** Inserting an item whose key is at most `b` keeps every key at most `b`. */
  lemma {:induction false} InsertBounded<T>(x: T, s: seq<T>, key: T -> real, b: real)
    requires key(x) <= b && KeysAtMost(s, key, b)
    ensures KeysAtMost(Insert(x, s, key), key, b)
  {
    if s != [] && key(s[0]) > key(x) {
      var rest := Insert(x, s[1..], key);
      InsertBounded(x, s[1..], key, b);
      var r := [s[0]] + rest;
      forall i | 0 <= i < |r|
        ensures key(r[i]) <= b
      {
        if i > 0 {
          assert r[i] == rest[i - 1];
        }
      }
    } else {
      var r := [x] + s;
      forall i | 0 <= i < |r|
        ensures key(r[i]) <= b
      {
        if i > 0 {
          assert r[i] == s[i - 1];
        }
      }
    }
  }

  /** Inserting into a sequence in non-increasing key order keeps it in that order. */
  lemma {:induction false} InsertSorted<T>(x: T, s: seq<T>, key: T -> real)
    requires SortedDesc(s, key)
    ensures SortedDesc(Insert(x, s, key), key)
  {
    if s != [] && key(s[0]) > key(x) {
      var rest := Insert(x, s[1..], key);
      assert SortedDesc(s[1..], key) by {
        forall i, j | 0 <= i < j < |s[1..]|
          ensures key(s[1..][i]) >= key(s[1..][j])
        {
          assert s[1..][i] == s[i + 1] && s[1..][j] == s[j + 1];
        }
      }
      InsertSorted(x, s[1..], key);
      assert KeysAtMost(s[1..], key, key(s[0])) by {
        forall i | 0 <= i < |s[1..]|
          ensures key(s[1..][i]) <= key(s[0])
        {
          assert s[1..][i] == s[i + 1];
        }
      }
      InsertBounded(x, s[1..], key, key(s[0]));
      var r := [s[0]] + rest;
      forall i, j | 0 <= i < j < |r|
        ensures key(r[i]) >= key(r[j])
      {
        assert r[j] == rest[j - 1];
        if i > 0 {
          assert r[i] == rest[i - 1];
        }
      }
    } else {
      var r := [x] + s;
      forall i, j | 0 <= i < j < |r|
        ensures key(r[i]) >= key(r[j])
      {
        assert r[j] == s[j - 1];
        if i > 0 {
          assert r[i] == s[i - 1];
        }
      }
    }
  }

  /** `KeyFilter` one element at a time. */
  lemma KeyFilterCons<T>(x: T, s: seq<T>, key: T -> real, k: real)
    ensures KeyFilter([x] + s, key, k) == Keep(x, key, k) + KeyFilter(s, key, k)
  {
  }

  /**
   * The stable descending sort: the sort the source performs with the comparator
   * `(a, b) => key(b) - key(a)` (`Array.prototype.sort` is stable since ECMAScript 2019).
   */
  function SortDesc<T>(s: seq<T>, key: T -> real): (r: seq<T>)
    ensures |r| == |s|
    ensures multiset(r) == multiset(s)
    ensures SortedDesc(r, key)
  {
    if s == [] then []
    else
      assert s == [s[0]] + s[1..];
      InsertSorted(s[0], SortDesc(s[1..], key), key);
      Insert(s[0], SortDesc(s[1..], key), key)
  }

  /** Inserting `x` adds it in front of the items of its own key and leaves the other keys alone. */
  lemma {:induction false} InsertKeyFilter<T>(x: T, s: seq<T>, key: T -> real, k: real)
    ensures KeyFilter(Insert(x, s, key), key, k) == Keep(x, key, k) + KeyFilter(s, key, k)
  {
    if s == [] || key(s[0]) <= key(x) {
      KeyFilterCons(x, s, key, k);
    } else {
      var rest := Insert(x, s[1..], key);
      assert s == [s[0]] + s[1..];
      calc {
        KeyFilter(Insert(x, s, key), key, k);
        KeyFilter([s[0]] + rest, key, k);
        { KeyFilterCons(s[0], rest, key, k); }
        Keep(s[0], key, k) + KeyFilter(rest, key, k);
        { InsertKeyFilter(x, s[1..], key, k); }
        Keep(s[0], key, k) + (Keep(x, key, k) + KeyFilter(s[1..], key, k));
        // s[0] outranks x, so at most one of the two is kept
        { assert Keep(s[0], key, k) == [] || Keep(x, key, k) == []; }
        Keep(x, key, k) + (Keep(s[0], key, k) + KeyFilter(s[1..], key, k));
        { KeyFilterCons(s[0], s[1..], key, k); }
        Keep(x, key, k) + KeyFilter(s, key, k);
      }
    }
  }

  /** The sort is stable: each key's items come out in the order they went in. */
  lemma {:induction false} SortDescStable<T>(s: seq<T>, key: T -> real, k: real)
    ensures KeyFilter(SortDesc(s, key), key, k) == KeyFilter(s, key, k)
  {
    if s != [] {
      InsertKeyFilter(s[0], SortDesc(s[1..], key), key, k);
      SortDescStable(s[1..], key, k);
    }
  }

  /** Every item that `KeyFilter` keeps is an item of the input carrying that key. */
  lemma {:induction false} KeyFilterMembers<T>(s: seq<T>, key: T -> real, k: real, y: T)
    requires y in KeyFilter(s, key, k)
    ensures y in s && key(y) == k
  {
    if s != [] {
      if y != s[0] || key(s[0]) != k {
        KeyFilterMembers(s[1..], key, k, y);
      }
    }
  }

  /** An item of `s` with key `k` shows up in `KeyFilter(s, key, k)`. */
  lemma {:induction false} KeyFilterNonEmpty<T>(s: seq<T>, key: T -> real, i: nat)
    requires i < |s|
    ensures KeyFilter(s, key, key(s[i])) != []
  {
    if i > 0 {
      KeyFilterNonEmpty(s[1..], key, i - 1);
    }
  }

  /**
   * If `lo` is in non-increasing order and holds, key by key, the same items as a
   * non-empty `hi`, then `lo` is non-empty and its head ranks at least as high as `hi`'s.
   */
  lemma HeadOutranks<T>(hi: seq<T>, lo: seq<T>, key: T -> real)
    requires hi != [] && SortedDesc(lo, key) && SameKeyOrder(hi, lo, key)
    ensures lo != [] && key(lo[0]) >= key(hi[0])
  {
    var k := key(hi[0]);
    KeyFilterNonEmpty(hi, key, 0);
    assert KeyFilter(lo, key, k) == KeyFilter(hi, key, k);
    var y := KeyFilter(lo, key, k)[0];
    KeyFilterMembers(lo, key, k, y);
    var j :| 0 <= j < |lo| && lo[j] == y;
    assert key(lo[0]) >= key(lo[j]);
  }

  /** The filter of a tail is the filter of the whole without its head's contribution. */
  lemma KeyFilterTail<T>(s: seq<T>, key: T -> real, k: real)
    requires s != []
    ensures KeyFilter(s[1..], key, k) == KeyFilter(s, key, k)[|Keep(s[0], key, k)|..]
  {
  }

  /** The filter at the head's own key starts with the head. */
  lemma KeyFilterHead<T>(s: seq<T>, key: T -> real)
    requires s != []
    ensures KeyFilter(s, key, key(s[0])) != [] && KeyFilter(s, key, key(s[0]))[0] == s[0]
  {
  }

  /** The tail of a sequence in non-increasing order is in non-increasing order. */
  lemma TailSorted<T>(s: seq<T>, key: T -> real)
    requires s != [] && SortedDesc(s, key)
    ensures SortedDesc(s[1..], key)
  {
    forall i, j | 0 <= i < j < |s| - 1
      ensures key(s[1..][i]) >= key(s[1..][j])
    {
      assert s[1..][i] == s[i + 1] && s[1..][j] == s[j + 1];
    }
  }

  /** Two sequences with the same head and the same items per key have tails with the same items per key. */
  lemma TailsSameKeyOrder<T>(r1: seq<T>, r2: seq<T>, key: T -> real)
    requires r1 != [] && r2 != [] && r1[0] == r2[0] && SameKeyOrder(r1, r2, key)
    ensures SameKeyOrder(r1[1..], r2[1..], key)
  {
    forall k | true
      ensures KeyFilter(r1[1..], key, k) == KeyFilter(r2[1..], key, k)
    {
      KeyFilterTail(r1, key, k);
      KeyFilterTail(r2, key, k);
    }
  }

  /**
   * Uniqueness: two sequences in non-increasing key order whose items of every key
   * appear in the same order are equal. Hence any stable descending sort agrees with
   * `SortDesc`, whatever algorithm the JavaScript engine uses.
   */
  lemma {:induction false} StableSortUnique<T>(r1: seq<T>, r2: seq<T>, key: T -> real)
    requires SortedDesc(r1, key) && SortedDesc(r2, key)
    requires SameKeyOrder(r1, r2, key)
    ensures r1 == r2
  {
    if r1 != [] {
      HeadOutranks(r1, r2, key);
      HeadOutranks(r2, r1, key);
      // both heads carry the largest key; the items of that key start with either head
      KeyFilterHead(r1, key);
      KeyFilterHead(r2, key);
      assert KeyFilter(r1, key, key(r1[0])) == KeyFilter(r2, key, key(r1[0]));
      TailsSameKeyOrder(r1, r2, key);
      TailSorted(r1, key);
      TailSorted(r2, key);
      StableSortUnique(r1[1..], r2[1..], key);
      assert r1 == [r1[0]] + r1[1..] && r2 == [r2[0]] + r2[1..];
    } else if r2 != [] {
      HeadOutranks(r2, r1, key);
    }
  }

  /** `SortDesc(s, key)` is exactly the stable descending sort of `s`: nothing else is. */
  lemma SortDescCharacterized<T>(s: seq<T>, r: seq<T>, key: T -> real)
    ensures r == SortDesc(s, key) <==> SortedDesc(r, key) && SameKeyOrder(r, s, key)
  {
    forall k | true
      ensures KeyFilter(SortDesc(s, key), key, k) == KeyFilter(s, key, k)
    {
      SortDescStable(s, key, k);
    }
    if SortedDesc(r, key) && SameKeyOrder(r, s, key) {
      StableSortUnique(r, SortDesc(s, key), key);
    }
  }

  /** The filter of a prefix is a prefix of the filter. */
  lemma {:induction false} KeyFilterOfPrefix<T>(s: seq<T>, m: nat, key: T -> real, k: real)
    requires m <= |s|
    ensures KeyFilter(s[..m], key, k) <= KeyFilter(s, key, k)
  {
    if m > 0 {
      assert s[..m][1..] == s[1..][..m - 1];
      KeyFilterOfPrefix(s[1..], m - 1, key, k);
    }
  }

  /**
   * The end index that `Array.prototype.slice(0, end)` uses on an array of length `n`:
   * a negative `end` counts back from the end of the array.
   */
  function SliceEnd(n: nat, end: int): (m: nat)
    ensures m <= n
    ensures end >= 0 ==> m == if end < n then end else n
    ensures end < 0 ==> m == if n + end > 0 then n + end else 0
  {
    if end < 0 then (if n + end > 0 then n + end else 0)
    else if end < n then end else n
  }

  /** `s.slice(0, end)`. */
  function Slice<T>(s: seq<T>, end: int): (r: seq<T>)
    ensures r <= s
    ensures |r| == SliceEnd(|s|, end)
  {
    s[..SliceEnd(|s|, end)]
  }

  /** The items a prefix leaves behind all rank at or below every item it keeps. */
  lemma PrefixOutranksRest<T(!new)>(t: seq<T>, m: nat, key: T -> real)
    requires m <= |t| && SortedDesc(t, key)
    ensures forall x, y :: x in t[..m] && y in multiset(t) - multiset(t[..m]) ==> key(x) >= key(y)
  {
    assert t == t[..m] + t[m..];
    assert multiset(t) - multiset(t[..m]) == multiset(t[m..]);
    forall x, y | x in t[..m] && y in multiset(t[m..])
      ensures key(x) >= key(y)
    {
      var i :| 0 <= i < m && t[i] == x;
      assert y in t[m..];
      var j :| m <= j < |t| && t[j] == y;
    }
  }

  /** A prefix of a sequence in non-increasing order is in non-increasing order. */
  lemma PrefixSorted<T>(t: seq<T>, key: T -> real, m: nat)
    requires m <= |t| && SortedDesc(t, key)
    ensures SortedDesc(t[..m], key)
  {
  }

  /** A prefix holds at most the items of the whole. */
  lemma PrefixSubMultiset<T>(t: seq<T>, m: nat)
    requires m <= |t|
    ensures multiset(t[..m]) <= multiset(t)
  {
    assert t == t[..m] + t[m..];
    assert multiset(t) == multiset(t[..m]) + multiset(t[m..]);
  }

  /** What a prefix of the sorted sequence keeps, and what it leaves behind. */
  lemma SortedPrefix<T(!new)>(s: seq<T>, key: T -> real, m: nat)
    requires m <= |s|
    ensures SortedDesc(SortDesc(s, key)[..m], key)
    ensures multiset(SortDesc(s, key)[..m]) <= multiset(s)
    ensures forall x, y :: x in SortDesc(s, key)[..m] && y in multiset(s) - multiset(SortDesc(s, key)[..m])
                           ==> key(x) >= key(y)
    ensures forall k :: KeyFilter(SortDesc(s, key)[..m], key, k) <= KeyFilter(s, key, k)
  {
    var t := SortDesc(s, key);
    PrefixSorted(t, key, m);
    PrefixSubMultiset(t, m);
    PrefixOutranksRest(t, m, key);
    forall k | true
      ensures KeyFilter(t[..m], key, k) <= KeyFilter(s, key, k)
    {
      KeyFilterOfPrefix(t, m, key, k);
      SortDescStable(s, key, k);
    }
  }

  /**
   * `s.sort((a, b) => key(b) - key(a)).slice(0, limit)`: the top `limit` items by key.
   */
  function TopByKey<T(!new)>(s: seq<T>, key: T -> real, limit: int): (r: seq<T>)
    ensures limit >= 0 ==> |r| == if limit < |s| then limit else |s|
    ensures limit < 0 ==> |r| == if |s| + limit > 0 then |s| + limit else 0
    ensures SortedDesc(r, key)
    ensures multiset(r) <= multiset(s)
    ensures forall x, y :: x in r && y in multiset(s) - multiset(r) ==> key(x) >= key(y)
    ensures forall k :: KeyFilter(r, key, k) <= KeyFilter(s, key, k)
  {
    SortedPrefix(s, key, SliceEnd(|s|, limit));
    Slice(SortDesc(s, key), limit)
  }
}
