/**
 * std::sort with a "less than" that compares one real-valued key.  std::sort
 * is not stable, so all the model promises is what std::sort promises: the
 * result is ordered by the key and is a permutation of the input.
 */
module Sorting {

  predicate SortedBy<T>(s: seq<T>, key: T -> real) {
    forall i, j :: 0 <= i < j < |s| ==> key(s[i]) <= key(s[j])
  }

  predicate AllAtLeast<T>(s: seq<T>, key: T -> real, b: real) {
    forall i :: 0 <= i < |s| ==> b <= key(s[i])
  }

  /** Inserts `x` into an ordered sequence, after every element whose key is not larger. */
  function InsertBy<T>(x: T, s: seq<T>, key: T -> real): (r: seq<T>)
    requires SortedBy(s, key)
    ensures SortedBy(r, key)
    ensures multiset(r) == multiset(s) + multiset{x}
    ensures |r| == |s| + 1
  {
    if s == [] then [x]
    else if key(x) < key(s[0]) then
      PrependSorted(x, s, key);
      [x] + s
    else
      SortedTail(s, key);
      var rest := InsertBy(x, s[1..], key);
      ConsSorted(s, rest, x, key);
      [s[0]] + rest
  }

  lemma {:induction false} SortedTail<T>(s: seq<T>, key: T -> real)
    requires s != [] && SortedBy(s, key)
    ensures SortedBy(s[1..], key) && AllAtLeast(s[1..], key, key(s[0]))
  {
    var tail := s[1..];
    assert forall i :: 0 <= i < |tail| ==> tail[i] == s[i + 1];
  }

  /** A key no larger than the first keeps the sequence ordered when put in front. */
  lemma {:induction false} PrependSorted<T>(x: T, s: seq<T>, key: T -> real)
    requires s != [] && SortedBy(s, key) && key(x) < key(s[0])
    ensures SortedBy([x] + s, key)
  {
    var r := [x] + s;
    forall i, j | 0 <= i < j < |r|
      ensures key(r[i]) <= key(r[j])
    {
      assert r[j] == s[j - 1];
      if i > 0 {
        assert r[i] == s[i - 1];
      }
    }
  }

  /** The first element stays in front of the insertion into the rest. */
  lemma {:induction false} ConsSorted<T>(s: seq<T>, rest: seq<T>, x: T, key: T -> real)
    requires s != [] && SortedBy(rest, key) && AllAtLeast(s[1..], key, key(s[0]))
    requires multiset(rest) == multiset(s[1..]) + multiset{x} && key(s[0]) <= key(x)
    ensures SortedBy([s[0]] + rest, key)
    ensures multiset([s[0]] + rest) == multiset(s) + multiset{x}
  {
    AllAtLeastOfPermutation(rest, s[1..], x, key, key(s[0]));
    var r := [s[0]] + rest;
    forall i, j | 0 <= i < j < |r|
      ensures key(r[i]) <= key(r[j])
    {
      assert r[j] == rest[j - 1];
      if i > 0 {
        assert r[i] == rest[i - 1];
      }
    }
    assert s == [s[0]] + s[1..];
  }

  /** A lower bound of `s` and of `x` bounds any rearrangement of s + [x]. */
  lemma {:induction false} AllAtLeastOfPermutation<T>(r: seq<T>, s: seq<T>, x: T, key: T -> real, b: real)
    requires multiset(r) == multiset(s) + multiset{x}
    requires AllAtLeast(s, key, b) && b <= key(x)
    ensures AllAtLeast(r, key, b)
  {
    forall i | 0 <= i < |r|
      ensures b <= key(r[i])
    {
      assert r[i] in multiset(r);
      if r[i] != x {
        assert r[i] in multiset(s);
        var j :| 0 <= j < |s| && s[j] == r[i];
      }
    }
  }

  function SortBy<T>(s: seq<T>, key: T -> real): (r: seq<T>)
    ensures SortedBy(r, key)
    ensures multiset(r) == multiset(s)
    ensures |r| == |s|
  {
    if s == [] then []
    else
      var init := s[..|s| - 1];
      assert s == init + [s[|s| - 1]];
      assert multiset(s) == multiset(init) + multiset{s[|s| - 1]};
      InsertBy(s[|s| - 1], SortBy(init, key), key)
  }

  predicate AllAtMost<T>(s: seq<T>, key: T -> real, b: real) {
    forall i :: 0 <= i < |s| ==> key(s[i]) <= b
  }

  /** Inserting an element whose key is at least every key in the sequence appends it. */
  lemma {:induction false} InsertByLast<T>(x: T, s: seq<T>, key: T -> real)
    requires SortedBy(s, key) && AllAtMost(s, key, key(x))
    ensures InsertBy(x, s, key) == s + [x]
    decreases |s|
  {
    if s != [] {
      var tail := s[1..];
      assert SortedBy(tail, key) by {
        forall i, j | 0 <= i < j < |tail|
          ensures key(tail[i]) <= key(tail[j])
        {
          assert tail[i] == s[i + 1] && tail[j] == s[j + 1];
        }
      }
      assert AllAtMost(tail, key, key(x)) by {
        forall i | 0 <= i < |tail|
          ensures key(tail[i]) <= key(x)
        {
          assert tail[i] == s[i + 1];
        }
      }
      assert !(key(x) < key(s[0]));
      InsertByLast(x, tail, key);
      assert s + [x] == [s[0]] + (tail + [x]);
    }
  }

  /** Sorting an already sorted sequence changes nothing. */
  lemma {:induction false} SortBySorted<T>(s: seq<T>, key: T -> real)
    requires SortedBy(s, key)
    ensures SortBy(s, key) == s
    decreases |s|
  {
    if s != [] {
      var init := s[..|s| - 1];
      var last := s[|s| - 1];
      assert SortedBy(init, key) by {
        forall i, j | 0 <= i < j < |init|
          ensures key(init[i]) <= key(init[j])
        {
          assert init[i] == s[i] && init[j] == s[j];
        }
      }
      assert AllAtMost(init, key, key(last)) by {
        forall i | 0 <= i < |init|
          ensures key(init[i]) <= key(last)
        {
          assert init[i] == s[i];
        }
      }
      assert SortBy(s, key) == InsertBy(last, SortBy(init, key), key);
      SortBySorted(init, key);
      InsertByLast(last, init, key);
      assert init + [last] == s;
    }
  }

  /** Adding to a sorted sequence and sorting again is sorting the extended sequence. */
  lemma {:induction false} SortBySnoc<T>(s: seq<T>, x: T, key: T -> real)
    ensures SortBy(SortBy(s, key) + [x], key) == SortBy(s + [x], key)
  {
    var sorted := SortBy(s, key);
    assert (sorted + [x])[..|sorted|] == sorted;
    assert (s + [x])[..|s|] == s;
    SortBySorted(sorted, key);
  }
}
