/**
 * `[...xs].sort(cmp)`: `Array.prototype.sort` is stable, so it is modelled by an
 * insertion sort that places each item, left to right, behind every earlier item
 * it does not compare below. The result is always a permutation of the input; it
 * is in comparator order whenever the comparator is sign-consistent on the items.
 */
module Sorting {

  /** Places `x` in front of the first item of `r` it compares below. */
  function Insert<T>(x: T, r: seq<T>, cmp: (T, T) -> int): (out: seq<T>)
    ensures |out| == |r| + 1
    ensures multiset(out) == multiset(r) + multiset{x}
    ensures out[0] == x || (r != [] && out[0] == r[0])
  {
    if r == [] || cmp(x, r[0]) < 0 then [x] + r
    else
      assert r == [r[0]] + r[1..];
      [r[0]] + Insert(x, r[1..], cmp)
  }

  /** `[...s].sort(cmp)`. */
  function Sort<T>(s: seq<T>, cmp: (T, T) -> int): (r: seq<T>)
    ensures |r| == |s|
    ensures multiset(r) == multiset(s)
  {
    if s == [] then []
    else
      assert s == s[..|s| - 1] + [s[|s| - 1]];
      Insert(s[|s| - 1], Sort(s[..|s| - 1], cmp), cmp)
  }

  /** Sorting neither adds nor drops a value. */
  lemma SortSameMembers<T>(s: seq<T>, cmp: (T, T) -> int)
    ensures forall x :: x in Sort(s, cmp) <==> x in s
  {
    var r := Sort(s, cmp);
    forall x ensures x in r <==> x in s {
      assert x in r <==> x in multiset(r);
      assert x in s <==> x in multiset(s);
    }
  }

  /** Every neighbouring pair is in comparator order. */
  ghost predicate Ordered<T>(r: seq<T>, cmp: (T, T) -> int)
  {
    forall i :: 0 <= i < |r| - 1 ==> cmp(r[i], r[i + 1]) <= 0
  }

  /** On the items of `s`, a comparison that is not negative one way is not positive the other way. */
  ghost predicate SignConsistent<T>(s: seq<T>, cmp: (T, T) -> int)
  {
    forall i, j :: 0 <= i < |s| && 0 <= j < |s| && cmp(s[i], s[j]) >= 0 ==> cmp(s[j], s[i]) <= 0
  }

  lemma {:induction false} InsertOrdered<T>(x: T, r: seq<T>, cmp: (T, T) -> int)
    requires Ordered(r, cmp)
    requires forall k :: 0 <= k < |r| && cmp(x, r[k]) >= 0 ==> cmp(r[k], x) <= 0
    ensures Ordered(Insert(x, r, cmp), cmp)
  {
    if r != [] && cmp(x, r[0]) >= 0 {
      InsertOrdered(x, r[1..], cmp);
      var tail := Insert(x, r[1..], cmp);
      assert Insert(x, r, cmp) == [r[0]] + tail;
      assert cmp(r[0], tail[0]) <= 0;
    }
  }

  /** The sort is in comparator order when the comparator is sign-consistent on the input. */
  lemma {:induction false} SortOrdered<T>(s: seq<T>, cmp: (T, T) -> int)
    requires SignConsistent(s, cmp)
    ensures Ordered(Sort(s, cmp), cmp)
  {
    if s != [] {
      var init, x := s[..|s| - 1], s[|s| - 1];
      assert SignConsistent(init, cmp) by {
        forall i, j | 0 <= i < |init| && 0 <= j < |init| && cmp(init[i], init[j]) >= 0
          ensures cmp(init[j], init[i]) <= 0
        {
          assert init[i] == s[i] && init[j] == s[j];
        }
      }
      SortOrdered(init, cmp);
      var r := Sort(init, cmp);
      forall k | 0 <= k < |r| && cmp(x, r[k]) >= 0 ensures cmp(r[k], x) <= 0 {
        assert r[k] in multiset(init);
        var j :| 0 <= j < |init| && init[j] == r[k];
        assert s[j] == r[k] && s[|s| - 1] == x;
      }
      InsertOrdered(x, r, cmp);
    }
  }

  /** `(a, b) => key(a) - key(b)`. */
  function AscendingBy<T>(key: T -> int): (T, T) -> int
  {
    (a, b) => key(a) - key(b)
  }

  /** `(a, b) => key(b) - key(a)`. */
  function DescendingBy<T>(key: T -> int): (T, T) -> int
  {
    (a, b) => key(b) - key(a)
  }

  lemma {:induction false} ChainAscending(ks: seq<int>)
    requires forall i :: 0 <= i < |ks| - 1 ==> ks[i] <= ks[i + 1]
    ensures forall i, j :: 0 <= i <= j < |ks| ==> ks[i] <= ks[j]
  {
    if |ks| > 1 {
      ChainAscending(ks[1..]);
      forall i, j | 0 <= i <= j < |ks| ensures ks[i] <= ks[j] {
        if i > 0 {
          assert ks[i] == ks[1..][i - 1] && ks[j] == ks[1..][j - 1];
        } else if j > 0 {
          assert ks[1] == ks[1..][0] && ks[j] == ks[1..][j - 1];
        }
      }
    }
  }

  /** Sorting by `a.key - b.key` orders the keys ascending. */
  lemma SortAscendingBy<T>(s: seq<T>, key: T -> int)
    ensures var r := Sort(s, AscendingBy(key));
      forall i, j :: 0 <= i <= j < |r| ==> key(r[i]) <= key(r[j])
  {
    var cmp := AscendingBy(key);
    assert SignConsistent(s, cmp) by {
      forall i, j | 0 <= i < |s| && 0 <= j < |s| && cmp(s[i], s[j]) >= 0 ensures cmp(s[j], s[i]) <= 0 {
        assert cmp(s[i], s[j]) == key(s[i]) - key(s[j]);
        assert cmp(s[j], s[i]) == key(s[j]) - key(s[i]);
      }
    }
    SortOrdered(s, cmp);
    var r := Sort(s, cmp);
    var ks := seq(|r|, i requires 0 <= i < |r| => key(r[i]));
    forall i | 0 <= i < |ks| - 1 ensures ks[i] <= ks[i + 1] {
      assert cmp(r[i], r[i + 1]) <= 0;
      assert cmp(r[i], r[i + 1]) == key(r[i]) - key(r[i + 1]);
    }
    ChainAscending(ks);
    forall i, j | 0 <= i <= j < |r| ensures key(r[i]) <= key(r[j]) {
      assert ks[i] == key(r[i]) && ks[j] == key(r[j]);
    }
  }

  /** Sorting by `b.key - a.key` orders the keys descending. */
  lemma SortDescendingBy<T>(s: seq<T>, key: T -> int)
    ensures var r := Sort(s, DescendingBy(key));
      forall i, j :: 0 <= i <= j < |r| ==> key(r[i]) >= key(r[j])
  {
    var cmp := DescendingBy(key);
    assert SignConsistent(s, cmp) by {
      forall i, j | 0 <= i < |s| && 0 <= j < |s| && cmp(s[i], s[j]) >= 0 ensures cmp(s[j], s[i]) <= 0 {
        assert cmp(s[i], s[j]) == key(s[j]) - key(s[i]);
        assert cmp(s[j], s[i]) == key(s[i]) - key(s[j]);
      }
    }
    SortOrdered(s, cmp);
    var r := Sort(s, cmp);
    var ks := seq(|r|, i requires 0 <= i < |r| => -key(r[i]));
    forall i | 0 <= i < |ks| - 1 ensures ks[i] <= ks[i + 1] {
      assert cmp(r[i], r[i + 1]) <= 0;
      assert cmp(r[i], r[i + 1]) == key(r[i + 1]) - key(r[i]);
    }
    ChainAscending(ks);
    forall i, j | 0 <= i <= j < |r| ensures key(r[i]) >= key(r[j]) {
      assert ks[i] == -key(r[i]) && ks[j] == -key(r[j]);
    }
  }
}
