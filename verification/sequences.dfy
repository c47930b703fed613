/**
  The collection operations the app calls on Swift arrays — `filter`, `sorted(by:)`,
  `prefix(_:)`, `remove(atOffsets:)` and `reduce(0, +)` — as functions on sequences,
  with the facts about them that the rest of the model relies on.
 */
module Sequences {

  // ---------------------------------------------------------------------------
  // filter

  /** The elements of `s` that satisfy `p`, in their original order. */
  function Filter<T>(s: seq<T>, p: T -> bool): (r: seq<T>)
    ensures |r| <= |s|
    ensures forall x {:trigger x in r} :: x in r ==> x in s && p(x)
    ensures forall x :: x in s && p(x) ==> x in r
  {
    if s == [] then []
    else (if p(s[0]) then [s[0]] else []) + Filter(s[1..], p)
  }

  /** Filtering keeps every copy of a passing value and no copy of a failing one. */
  lemma {:induction false} FilterCount<T>(s: seq<T>, p: T -> bool, x: T)
    ensures multiset(Filter(s, p))[x] == if p(x) then multiset(s)[x] else 0
    decreases |s|
  {
    if s != [] {
      FilterCount(s[1..], p, x);
      assert s == [s[0]] + s[1..];
      var head := if p(s[0]) then [s[0]] else [];
      assert multiset(Filter(s, p)) == multiset(head) + multiset(Filter(s[1..], p));
    }
  }

  /** Filtering two permutations of each other gives permutations of each other. */
  lemma {:induction false} FilterPermutation<T>(s: seq<T>, t: seq<T>, p: T -> bool)
    requires multiset(s) == multiset(t)
    ensures multiset(Filter(s, p)) == multiset(Filter(t, p))
    decreases |s|
  {
    if s == [] {
      assert |t| == |multiset(t)| == 0;
    } else {
      var x := s[0];
      assert s == [x] + s[1..];
      assert x in multiset(t);
      var j :| 0 <= j < |t| && t[j] == x;
      assert t == t[..j] + [x] + t[j + 1..];
      var rest := t[..j] + t[j + 1..];
      assert multiset(s[1..]) == multiset(s) - multiset{x};
      assert multiset(rest) == multiset(t) - multiset{x};
      FilterPermutation(s[1..], rest, p);
      FilterConcat([x], s[1..], p);
      FilterConcat(t[..j] + [x], t[j + 1..], p);
      FilterConcat(t[..j], [x], p);
      FilterConcat(t[..j], t[j + 1..], p);
    }
  }

  lemma {:induction false} FilterConcat<T>(a: seq<T>, b: seq<T>, p: T -> bool)
    ensures Filter(a + b, p) == Filter(a, p) + Filter(b, p)
  {
    if a == [] {
      assert a + b == b;
    } else {
      FilterConcat(a[1..], b, p);
      var head := if p(a[0]) then [a[0]] else [];
      assert (a + b)[0] == a[0];
      assert (a + b)[1..] == a[1..] + b;
      calc {
        Filter(a + b, p);
        head + Filter(a[1..] + b, p);
        head + (Filter(a[1..], p) + Filter(b, p));
        (head + Filter(a[1..], p)) + Filter(b, p);
        Filter(a, p) + Filter(b, p);
      }
    }
  }

  lemma {:induction false} FilterKeepsAll<T>(s: seq<T>, p: T -> bool)
    requires forall i :: 0 <= i < |s| ==> p(s[i])
    ensures Filter(s, p) == s
  {
    if s != [] {
      FilterKeepsAll(s[1..], p);
    }
  }

  lemma {:induction false} FilterDropsAll<T>(s: seq<T>, p: T -> bool)
    requires forall i :: 0 <= i < |s| ==> !p(s[i])
    ensures Filter(s, p) == []
  {
    if s != [] {
      FilterDropsAll(s[1..], p);
    }
  }

  /** Filtering a sequence whose front part all passes and whose back part all fails
      leaves exactly the front part. */
  lemma FilterFront<T>(a: seq<T>, b: seq<T>, p: T -> bool)
    requires forall i :: 0 <= i < |a| ==> p(a[i])
    requires forall i :: 0 <= i < |b| ==> !p(b[i])
    ensures Filter(a + b, p) == a
  {
    FilterConcat(a, b, p);
    FilterKeepsAll(a, p);
    FilterDropsAll(b, p);
  }

  /** The mirror image of `FilterFront`: only the back part passes. */
  lemma FilterBack<T>(a: seq<T>, b: seq<T>, p: T -> bool)
    requires forall i :: 0 <= i < |a| ==> !p(a[i])
    requires forall i :: 0 <= i < |b| ==> p(b[i])
    ensures Filter(a + b, p) == b
  {
    FilterConcat(a, b, p);
    FilterDropsAll(a, p);
    FilterKeepsAll(b, p);
  }

  /** A filtered sorted sequence is still sorted. */
  lemma {:induction false} FilterSorted<T>(s: seq<T>, p: T -> bool, key: T -> int)
    requires SortedBy(s, key)
    ensures SortedBy(Filter(s, p), key)
  {
    if s != [] {
      FilterSorted(s[1..], p, key);
      var rest := Filter(s[1..], p);
      assert forall y :: y in rest ==> key(s[0]) <= key(y) by {
        forall y | y in rest ensures key(s[0]) <= key(y) {
          var k :| 1 <= k < |s| && s[k] == y;
        }
      }
    }
  }

  // ---------------------------------------------------------------------------
  // sorted(by:)

  /** `s` is in non-decreasing order of `key`. */
  ghost predicate SortedBy<T>(s: seq<T>, key: T -> int) {
    forall i, j :: 0 <= i < j < |s| ==> key(s[i]) <= key(s[j])
  }

  /** Inserts `x` before the first element of `s` whose key is not smaller. */
  function Insert<T>(x: T, s: seq<T>, key: T -> int): (r: seq<T>)
    ensures multiset(r) == multiset(s) + multiset{x}
    ensures forall y :: y in r ==> y == x || y in s
  {
    if s == [] || key(x) <= key(s[0]) then [x] + s
    else
      assert s == [s[0]] + s[1..];
      [s[0]] + Insert(x, s[1..], key)
  }

  /** Inserting into a sorted sequence keeps it sorted. */
  lemma {:induction false} InsertSorted<T>(x: T, s: seq<T>, key: T -> int)
    requires SortedBy(s, key)
    ensures SortedBy(Insert(x, s, key), key)
  {
    if s == [] || key(x) <= key(s[0]) {
      SortedCons(x, s, key);
    } else {
      InsertSorted(x, s[1..], key);
      var rest := Insert(x, s[1..], key);
      forall k | 0 <= k < |rest| ensures key(s[0]) <= key(rest[k]) {
        assert rest[k] in rest;
      }
      SortedCons(s[0], rest, key);
    }
  }

  /** Putting an element no larger than any other in front of a sorted sequence keeps it sorted. */
  lemma SortedCons<T>(x: T, s: seq<T>, key: T -> int)
    requires SortedBy(s, key)
    requires forall k :: 0 <= k < |s| ==> key(x) <= key(s[k])
    ensures SortedBy([x] + s, key)
  {
    var r := [x] + s;
    forall i, j | 0 <= i < j < |r| ensures key(r[i]) <= key(r[j]) {
      assert r[j] == s[j - 1];
      if i > 0 {
        assert r[i] == s[i - 1];
      }
    }
  }

  /** The elements of `s`, rearranged into non-decreasing order of `key`. */
  function SortBy<T>(s: seq<T>, key: T -> int): (r: seq<T>)
    ensures SortedBy(r, key)
    ensures multiset(r) == multiset(s)
    ensures |r| == |s|
  {
    if s == [] then []
    else
      assert s == [s[0]] + s[1..];
      var sorted := SortBy(s[1..], key);
      InsertSorted(s[0], sorted, key);
      var r := Insert(s[0], sorted, key);
      assert |r| == |multiset(r)| == |multiset(s)|;
      r
  }

  // ---------------------------------------------------------------------------
  // prefix(_:)

  /** The first `n` elements of `s`, or all of `s` when it is shorter. */
  function Take<T>(s: seq<T>, n: nat): (r: seq<T>)
    ensures |r| == if n < |s| then n else |s|
    ensures r == s[..|r|]
  {
    if n < |s| then s[..n] else s
  }

  /** Taking a prefix of a sorted sequence keeps it sorted, and everything left
      out is ordered after everything kept. */
  lemma TakeSorted<T>(s: seq<T>, key: T -> int, n: nat)
    requires SortedBy(s, key)
    ensures SortedBy(Take(s, n), key)
    ensures forall x, y :: x in s && x !in Take(s, n) && y in Take(s, n) ==> key(y) <= key(x)
  {
    var r := Take(s, n);
    assert forall k :: 0 <= k < |r| ==> s[k] in r;
    forall x, y | x in s && x !in r && y in r ensures key(y) <= key(x) {
      var i :| 0 <= i < |s| && s[i] == x;
      var j :| 0 <= j < |r| && r[j] == y;
      assert s[j] == y;
    }
  }

  /** Nothing left out of the prefix occurs more often than it does in the source. */
  lemma TakeSubmultiset<T>(s: seq<T>, n: nat)
    ensures multiset(Take(s, n)) <= multiset(s)
  {
    var r := Take(s, n);
    assert s == r + s[|r|..];
  }

  // ---------------------------------------------------------------------------
  // remove(atOffsets:)

  /** The indices below `n` that are not in `offsets`, in increasing order. */
  function KeptIndices(n: nat, offsets: set<nat>): (r: seq<nat>)
    ensures forall k: nat {:trigger k in r} :: k in r <==> k < n && k !in offsets
    ensures forall i, j :: 0 <= i < j < |r| ==> r[i] < r[j]
  {
    if n == 0 then []
    else
      var front := KeptIndices(n - 1, offsets);
      assert forall i :: 0 <= i < |front| ==> front[i] in front;
      front + (if n - 1 in offsets then [] else [n - 1])
  }

  /** `s` with the elements at the given offsets removed. */
  function RemoveOffsets<T>(s: seq<T>, offsets: set<nat>): (r: seq<T>)
    ensures |r| == |KeptIndices(|s|, offsets)|
    ensures forall j :: 0 <= j < |r| ==> KeptIndices(|s|, offsets)[j] < |s| && r[j] == s[KeptIndices(|s|, offsets)[j]]
  {
    if s == [] then []
    else
      var n := |s| - 1;
      var front := RemoveOffsets(s[..n], offsets);
      assert forall j :: 0 <= j < |front| ==> KeptIndices(n, offsets)[j] < n && front[j] == s[KeptIndices(n, offsets)[j]];
      front + (if n in offsets then [] else [s[n]])
  }

  /** Offsets at or beyond the length of the sequence do not affect the kept indices. */
  lemma {:induction false} KeptIndicesBelow(n: nat, a: set<nat>, b: set<nat>)
    requires forall k: nat :: k < n ==> (k in a <==> k in b)
    ensures KeptIndices(n, a) == KeptIndices(n, b)
  {
    if n > 0 {
      KeptIndicesBelow(n - 1, a, b);
    }
  }

  /** When every offset is in range, exactly `|offsets|` elements are removed. */
  lemma {:induction false} KeptIndicesCount(n: nat, offsets: set<nat>)
    requires forall k :: k in offsets ==> k < n
    ensures |KeptIndices(n, offsets)| == n - |offsets|
  {
    if n > 0 {
      var last := n - 1;
      if last in offsets {
        var rest := offsets - {last};
        assert offsets == rest + {last};
        assert |offsets| == |rest| + 1;
        KeptIndicesBelow(last, offsets, rest);
        KeptIndicesCount(last, rest);
      } else {
        KeptIndicesCount(last, offsets);
      }
    }
  }

  /** Membership after removal: a value survives exactly when it sat at a kept index. */
  lemma RemoveOffsetsMembers<T>(s: seq<T>, offsets: set<nat>, x: T)
    ensures x in RemoveOffsets(s, offsets) <==> exists k :: 0 <= k < |s| && k !in offsets && s[k] == x
  {
    var r := RemoveOffsets(s, offsets);
    var kept := KeptIndices(|s|, offsets);
    if x in r {
      var j :| 0 <= j < |r| && r[j] == x;
      assert kept[j] in kept;
    }
    if exists k :: 0 <= k < |s| && k !in offsets && s[k] == x {
      var k :| 0 <= k < |s| && k !in offsets && s[k] == x;
      assert k in kept;
      var j :| 0 <= j < |kept| && kept[j] == k;
      assert r[j] == x;
    }
  }

  /** No two positions of `s` share a key. */
  ghost predicate KeysDistinct<T, K>(s: seq<T>, key: T -> K) {
    forall i, j :: 0 <= i < j < |s| ==> key(s[i]) != key(s[j])
  }

  /** With distinct keys, no element occurs twice. */
  lemma {:induction false} KeysDistinctOnce<T, K>(s: seq<T>, key: T -> K, x: T)
    requires KeysDistinct(s, key)
    ensures multiset(s)[x] <= 1
  {
    if s != [] {
      var n := |s| - 1;
      assert s == s[..n] + [s[n]];
      assert KeysDistinct(s[..n], key);
      KeysDistinctOnce(s[..n], key, x);
      if s[n] == x {
        assert x !in s[..n];
      }
    }
  }

  /** An element at two positions occurs at least twice. */
  lemma TwoPositions<T>(s: seq<T>, i: nat, j: nat)
    requires i < j < |s| && s[i] == s[j]
    ensures multiset(s)[s[i]] >= 2
  {
    assert s == s[..j] + [s[j]] + s[j + 1..];
    assert s[i] in s[..j];
  }

  /** Rearranging keeps keys distinct. */
  lemma KeysDistinctPermutation<T, K>(s: seq<T>, t: seq<T>, key: T -> K)
    requires multiset(s) == multiset(t)
    requires KeysDistinct(s, key)
    ensures KeysDistinct(t, key)
  {
    forall i, j | 0 <= i < j < |t| ensures key(t[i]) != key(t[j]) {
      if t[i] == t[j] {
        TwoPositions(t, i, j);
        KeysDistinctOnce(s, key, t[i]);
      } else {
        assert t[i] in multiset(s) && t[j] in multiset(s);
        var p :| 0 <= p < |s| && s[p] == t[i];
        var q :| 0 <= q < |s| && s[q] == t[j];
        assert p != q;
      }
    }
  }

  // ---------------------------------------------------------------------------
  // reduce(0) { $0 + f($1) }

  /** The sum of `f` over the elements of `s`, added left to right. */
  function Sum<T>(s: seq<T>, f: T -> int): int {
    if s == [] then 0 else Sum(s[..|s| - 1], f) + f(s[|s| - 1])
  }

  lemma {:induction false} SumConcat<T>(a: seq<T>, b: seq<T>, f: T -> int)
    ensures Sum(a + b, f) == Sum(a, f) + Sum(b, f)
  {
    if b == [] {
      assert a + b == a;
    } else {
      var n := |b| - 1;
      SumConcat(a, b[..n], f);
      assert (a + b)[..|a + b| - 1] == a + b[..n];
    }
  }

  /** Reordering the elements does not change the sum. */
  lemma {:induction false} SumPermutation<T>(s: seq<T>, t: seq<T>, f: T -> int)
    requires multiset(s) == multiset(t)
    ensures Sum(s, f) == Sum(t, f)
    decreases |s|
  {
    if s != [] {
      var n := |s| - 1;
      var x := s[n];
      assert s == s[..n] + [x];
      assert x in multiset(t);
      var j :| 0 <= j < |t| && t[j] == x;
      assert t == t[..j] + [x] + t[j + 1..];
      var rest := t[..j] + t[j + 1..];
      assert multiset(s) == multiset(s[..n]) + multiset{x};
      assert multiset(t) == multiset(t[..j]) + multiset{x} + multiset(t[j + 1..]);
      assert multiset(rest) == multiset(t[..j]) + multiset(t[j + 1..]);
      assert multiset(s[..n]) == multiset(s) - multiset{x};
      assert multiset(rest) == multiset(t) - multiset{x};
      SumPermutation(s[..n], rest, f);
      SumConcat(t[..j] + [x], t[j + 1..], f);
      SumConcat(t[..j], [x], f);
      SumConcat(t[..j], t[j + 1..], f);
      assert Sum([x], f) == f(x) by {
        assert [x][..0] == [];
      }
    }
  }

  /** When `f` is the same `c` on every element, the sum is `|s|` times `c`. */
  lemma {:induction false} SumConstant<T>(s: seq<T>, f: T -> int, c: int)
    requires forall i :: 0 <= i < |s| ==> f(s[i]) == c
    ensures Sum(s, f) == |s| * c
  {
    if s != [] {
      SumConstant(s[..|s| - 1], f, c);
    }
  }
}
