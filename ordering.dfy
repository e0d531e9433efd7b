/** The stable sorts of the allocators. Python's `sorted` is stable, so a sort
    by a key (descending or not) orders equal keys by original position; the
    model sorts positions by a lexicographic key whose last component is the
    position itself, which makes the order unique. */
module Ordering {
  import opened Model

  /** Sort key: compared by primary, then secondary, then original position. */
  datatype Key = Key(primary: real, secondary: real, index: nat)

  predicate Le(a: Key, b: Key) {
    || a.primary < b.primary
    || (a.primary == b.primary && a.secondary < b.secondary)
    || (a.primary == b.primary && a.secondary == b.secondary && a.index <= b.index)
  }

  predicate InRange(s: seq<nat>, n: nat) {
    forall k :: 0 <= k < |s| ==> s[k] < n
  }

  /** The positions in `s` are listed in ascending key order. */
  predicate SortedBy(s: seq<nat>, keys: seq<Key>)
    requires InRange(s, |keys|)
  {
    forall a, b :: 0 <= a < b < |s| ==> Le(keys[s[a]], keys[s[b]])
  }

  /** Inserts position i before the first position whose key is not below it. */
  function InsertBy(i: nat, s: seq<nat>, keys: seq<Key>): (r: seq<nat>)
    requires i < |keys| && InRange(s, |keys|)
    ensures multiset(r) == multiset(s) + multiset{i}
    ensures |r| == |s| + 1 && InRange(r, |keys|)
  {
    if s == [] then [i]
    else if Le(keys[i], keys[s[0]]) then [i] + s
    else
      assert s == [s[0]] + s[1..];
      [s[0]] + InsertBy(i, s[1..], keys)
  }

  function SortBy(s: seq<nat>, keys: seq<Key>): (r: seq<nat>)
    requires InRange(s, |keys|)
    ensures multiset(r) == multiset(s)
    ensures |r| == |s| && InRange(r, |keys|)
  {
    if s == [] then []
    else
      assert s == [s[0]] + s[1..];
      InsertBy(s[0], SortBy(s[1..], keys), keys)
  }

  /** All positions of `keys`, in ascending key order. */
  function OrderBy(keys: seq<Key>): (r: seq<nat>)
    ensures |r| == |keys| && InRange(r, |keys|)
  {
    SortBy(Range(|keys|), keys)
  }

  lemma LeTotal(a: Key, b: Key)
    ensures Le(a, b) || Le(b, a)
  {
  }

  lemma LeTrans(a: Key, b: Key, c: Key)
    requires Le(a, b) && Le(b, c)
    ensures Le(a, c)
  {
  }

  /** Prepending a position whose key is below every key of a sorted list keeps it sorted. */
  lemma ConsSorted(h: nat, rest: seq<nat>, keys: seq<Key>)
    requires h < |keys| && InRange(rest, |keys|) && SortedBy(rest, keys)
    requires forall k :: 0 <= k < |rest| ==> Le(keys[h], keys[rest[k]])
    ensures InRange([h] + rest, |keys|) && SortedBy([h] + rest, keys)
  {
    var r := [h] + rest;
    forall a, b | 0 <= a < b < |r| ensures Le(keys[r[a]], keys[r[b]]) {
      if a == 0 {
        assert r[b] == rest[b - 1];
      } else {
        assert r[a] == rest[a - 1] && r[b] == rest[b - 1];
      }
    }
  }

  lemma SortedTail(s: seq<nat>, keys: seq<Key>)
    requires s != [] && InRange(s, |keys|) && SortedBy(s, keys)
    ensures InRange(s[1..], |keys|) && SortedBy(s[1..], keys)
    ensures forall k :: 0 <= k < |s| - 1 ==> Le(keys[s[0]], keys[s[1..][k]])
  {
    var tail := s[1..];
    forall a, b | 0 <= a < b < |tail| ensures Le(keys[tail[a]], keys[tail[b]]) {
      assert tail[a] == s[a + 1] && tail[b] == s[b + 1];
    }
    forall k | 0 <= k < |tail| ensures Le(keys[s[0]], keys[tail[k]]) {
      assert tail[k] == s[k + 1];
    }
  }

  /** Every entry of a list is one of the multiset's elements. */
  lemma BoundFromMultiset(h: nat, rest: seq<nat>, tail: seq<nat>, i: nat, keys: seq<Key>)
    requires h < |keys| && i < |keys| && InRange(rest, |keys|) && InRange(tail, |keys|)
    requires multiset(rest) == multiset(tail) + multiset{i}
    requires Le(keys[h], keys[i])
    requires forall k :: 0 <= k < |tail| ==> Le(keys[h], keys[tail[k]])
    ensures forall k :: 0 <= k < |rest| ==> Le(keys[h], keys[rest[k]])
  {
    forall k | 0 <= k < |rest| ensures Le(keys[h], keys[rest[k]]) {
      var x := rest[k];
      assert x in multiset(rest);
      if x != i {
        assert x in multiset(tail);
        var m :| 0 <= m < |tail| && tail[m] == x;
      }
    }
  }

  lemma {:induction false} InsertBySorted(i: nat, s: seq<nat>, keys: seq<Key>)
    requires i < |keys| && InRange(s, |keys|) && SortedBy(s, keys)
    ensures SortedBy(InsertBy(i, s, keys), keys)
  {
    if s == [] {
    } else if Le(keys[i], keys[s[0]]) {
      forall k | 0 <= k < |s| ensures Le(keys[i], keys[s[k]]) {
        if k > 0 { LeTrans(keys[i], keys[s[0]], keys[s[k]]); }
      }
      ConsSorted(i, s, keys);
    } else {
      SortedTail(s, keys);
      var tail := s[1..];
      InsertBySorted(i, tail, keys);
      var rest := InsertBy(i, tail, keys);
      LeTotal(keys[i], keys[s[0]]);
      BoundFromMultiset(s[0], rest, tail, i, keys);
      ConsSorted(s[0], rest, keys);
    }
  }

  lemma {:induction false} SortBySorted(s: seq<nat>, keys: seq<Key>)
    requires InRange(s, |keys|)
    ensures SortedBy(SortBy(s, keys), keys)
  {
    if s != [] {
      SortBySorted(s[1..], keys);
      InsertBySorted(s[0], SortBy(s[1..], keys), keys);
    }
  }

  lemma {:induction false} RangeCount(n: nat, x: nat)
    ensures multiset(Range(n))[x] == if x < n then 1 else 0
  {
    if n > 0 {
      assert Range(n) == Range(n - 1) + [n - 1];
      RangeCount(n - 1, x);
    } else {
      assert Range(n) == [];
    }
  }

  /** A sequence holding each of 0..n-1 exactly once has no repeated entry. */
  lemma PermutationDistinct(s: seq<nat>, n: nat)
    requires multiset(s) == multiset(Range(n))
    ensures forall a, b :: 0 <= a < b < |s| ==> s[a] != s[b]
  {
    forall a, b | 0 <= a < b < |s| ensures s[a] != s[b] {
      if s[a] == s[b] {
        var x := s[a];
        assert s == s[..b] + s[b..];
        assert x in multiset(s[..b]) by { assert s[..b][a] == x; }
        assert x in multiset(s[b..]) by { assert s[b..][0] == x; }
        assert multiset(s)[x] == multiset(s[..b])[x] + multiset(s[b..])[x];
        RangeCount(n, x);
        assert false;
      }
    }
  }

  /** The order lists every position exactly once, in ascending key order. */
  lemma OrderByFacts(keys: seq<Key>)
    ensures var r := OrderBy(keys);
      && multiset(r) == multiset(Range(|keys|))
      && (forall p :: 0 <= p < |keys| ==> p in r)
      && (forall a, b :: 0 <= a < b < |r| ==> r[a] != r[b])
      && SortedBy(r, keys)
  {
    var r := OrderBy(keys);
    SortBySorted(Range(|keys|), keys);
    PermutationDistinct(r, |keys|);
    forall p | 0 <= p < |keys| ensures p in r {
      RangeCount(|keys|, p);
      assert p in multiset(r);
    }
  }

  /** The entries of `xs` at the listed positions, in list order. */
  function Select<T>(xs: seq<T>, order: seq<nat>): (r: seq<T>)
    requires InRange(order, |xs|)
    ensures |r| == |order| && forall k :: 0 <= k < |order| ==> r[k] == xs[order[k]]
  {
    seq(|order|, k requires 0 <= k < |order| => xs[order[k]])
  }

  lemma SelectConcat<T>(xs: seq<T>, a: seq<nat>, b: seq<nat>)
    requires InRange(a, |xs|) && InRange(b, |xs|)
    ensures InRange(a + b, |xs|)
    ensures Select(xs, a + b) == Select(xs, a) + Select(xs, b)
  {
    assert InRange(a + b, |xs|) by {
      forall k | 0 <= k < |a + b| ensures (a + b)[k] < |xs| {
        if k < |a| { assert (a + b)[k] == a[k]; } else { assert (a + b)[k] == b[k - |a|]; }
      }
    }
  }

  lemma SplitLast<T>(xs: seq<T>)
    requires xs != []
    ensures xs[..|xs| - 1] + [xs[|xs| - 1]] == xs
  {
  }

  /** Positions below k select the same entries from a prefix of length k. */
  lemma SelectPrefix<T>(xs: seq<T>, k: nat, order: seq<nat>)
    requires k <= |xs| && InRange(order, k)
    ensures InRange(order, |xs|) && Select(xs[..k], order) == Select(xs, order)
  {
  }

  /** Taking out the single occurrence of n - 1 from a permutation of 0..n-1
      leaves a permutation of 0..n-2. */
  lemma RemoveLargest(order: seq<nat>, n: nat, m: nat)
    requires 0 < n && multiset(order) == multiset(Range(n))
    requires m < |order| && order[m] == n - 1
    ensures multiset(order[..m] + order[m + 1..]) == multiset(Range(n - 1))
    ensures InRange(order[..m], n - 1) && InRange(order[m + 1..], n - 1)
  {
    var last := n - 1;
    var front, back := order[..m], order[m + 1..];
    var o' := front + back;
    assert order == front + [last] + back;
    assert Range(n) == Range(last) + [last];
    assert multiset(order) == multiset(front) + multiset{last} + multiset(back);
    assert multiset(Range(n)) == multiset(Range(last)) + multiset{last};
    forall y ensures multiset(o')[y] == multiset(Range(last))[y] {
      assert multiset(order)[y] == multiset(Range(n))[y];
    }
    assert multiset(o') == multiset(Range(last));
    forall k | 0 <= k < |front| ensures front[k] < last {
      assert front[k] in multiset(o');
      RangeCount(last, front[k]);
    }
    forall k | 0 <= k < |back| ensures back[k] < last {
      assert back[k] in multiset(o');
      RangeCount(last, back[k]);
    }
  }

  /** Putting the last position between two selections of the others adds
      exactly the last entry to what they select. */
  lemma SelectAroundLast<T>(xs: seq<T>, front: seq<nat>, back: seq<nat>)
    requires xs != [] && InRange(front, |xs| - 1) && InRange(back, |xs| - 1)
    requires InRange(front + back, |xs| - 1)
    requires multiset(Select(xs[..|xs| - 1], front + back)) == multiset(xs[..|xs| - 1])
    ensures InRange(front + [|xs| - 1] + back, |xs|)
    ensures multiset(Select(xs, front + [|xs| - 1] + back)) == multiset(xs)
  {
    var last := |xs| - 1;
    var xs' := xs[..last];
    SelectConcat(xs', front, back);
    SelectPrefix(xs, last, front);
    SelectPrefix(xs, last, back);
    assert Select(xs, [last]) == [xs[last]];
    SelectConcat(xs, front, [last]);
    SelectConcat(xs, front + [last], back);
    var a, b := Select(xs', front), Select(xs', back);
    assert Select(xs, front + [last] + back) == a + [xs[last]] + b;
    calc {
      multiset(Select(xs, front + [last] + back));
      multiset(a) + multiset{xs[last]} + multiset(b);
      multiset(a + b) + multiset{xs[last]};
      multiset(xs' + [xs[last]]);
      { SplitLast(xs); }
      multiset(xs);
    }
  }

  /** Selecting along a permutation of the positions rearranges the entries:
      nothing is lost and nothing is duplicated. */
  lemma {:induction false} SelectPermutation<T>(xs: seq<T>, order: seq<nat>)
    requires InRange(order, |xs|)
    requires multiset(order) == multiset(Range(|xs|))
    ensures multiset(Select(xs, order)) == multiset(xs)
  {
    var n := |xs|;
    if n == 0 {
      assert |multiset(order)| == 0;
    } else {
      var last := n - 1;
      RangeCount(n, last);
      assert last in multiset(order);
      var m :| 0 <= m < |order| && order[m] == last;
      var front, back := order[..m], order[m + 1..];
      assert order == front + [last] + back;
      RemoveLargest(order, n, m);
      SelectConcat(xs[..last], front, back);
      SelectPermutation(xs[..last], front + back);
      SelectAroundLast(xs, front, back);
    }
  }
}
