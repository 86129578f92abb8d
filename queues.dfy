/** List operations the scheduler applies to its queues: Python's `list.remove` and the removal of
    a whole group of entries, over lists without repeated entries. */
module Queues {

  predicate Distinct<T(==)>(xs: seq<T>) {
    forall i, j :: 0 <= i < j < |xs| ==> xs[i] != xs[j]
  }

  /** The tail of a list without repeats has none and lacks the head. */
  lemma DistinctTail<T>(xs: seq<T>)
    requires Distinct(xs) && xs != []
    ensures Distinct(xs[1..]) && xs[0] !in xs[1..]
  {
    forall k | 0 <= k < |xs[1..]|
      ensures xs[1..][k] != xs[0]
    {
      assert xs[1..][k] == xs[k + 1];
    }
  }

  /** Regrouping a concatenation; stated on its own because proving it inline in a large context is
      much more costly. */
  lemma AppendAssoc<T>(a: seq<T>, b: seq<T>, c: seq<T>)
    ensures a + b + c == a + (b + c)
  {
  }

  /** A non-empty list is its front followed by its last entry; the step of every proof by
      induction on the last entry. */
  lemma SplitLast<T>(xs: seq<T>)
    requires xs != []
    ensures xs == xs[..|xs| - 1] + [xs[|xs| - 1]]
  {
  }

  /** One more entry of a prefix, the step of every loop over a prefix. */
  lemma TakeSnoc<T>(xs: seq<T>, i: int)
    requires 0 <= i < |xs|
    ensures xs[..i + 1] == xs[..i] + [xs[i]]
  {
  }

  /** `xs.remove(x)`: the first occurrence of `x` goes (nothing happens when there is none). */
  function RemoveFirst<T(==)>(xs: seq<T>, x: T): (r: seq<T>)
    ensures x !in xs ==> r == xs
    decreases |xs|
  {
    if xs == [] then []
    else if xs[0] == x then xs[1..]
    else [xs[0]] + RemoveFirst(xs[1..], x)
  }

  /** The entries of `xs` that are not in `removed`, in order. */
  function FilterOut<T(==)>(xs: seq<T>, removed: seq<T>): (r: seq<T>)
    ensures forall k :: 0 <= k < |r| ==> r[k] in xs && r[k] !in removed
    ensures forall k :: 0 <= k < |xs| && xs[k] !in removed ==> xs[k] in r
    ensures |r| <= |xs|
    decreases |xs|
  {
    if xs == [] then []
    else (if xs[0] in removed then [] else [xs[0]]) + FilterOut(xs[1..], removed)
  }

  lemma {:induction false} FilterOutDistinct<T>(xs: seq<T>, removed: seq<T>)
    requires Distinct(xs)
    ensures Distinct(FilterOut(xs, removed))
    decreases |xs|
  {
    if xs != [] {
      assert Distinct(xs[1..]) by {
        forall i, j | 0 <= i < j < |xs[1..]| ensures xs[1..][i] != xs[1..][j] {
          assert xs[1..][i] == xs[i + 1] && xs[1..][j] == xs[j + 1];
        }
      }
      FilterOutDistinct(xs[1..], removed);
      var tail := FilterOut(xs[1..], removed);
      assert xs[0] !in xs[1..] by {
        forall k | 0 <= k < |xs[1..]| ensures xs[1..][k] != xs[0] {
          assert xs[1..][k] == xs[k + 1];
        }
      }
      assert xs[0] !in tail;
    }
  }

  /** An entry survives the filter exactly when it occurs and is not removed. */
  lemma {:induction false} FilterOutMembers<T>(xs: seq<T>, removed: seq<T>, x: T)
    ensures x in FilterOut(xs, removed) <==> x in xs && x !in removed
    decreases |xs|
  {
    if xs != [] {
      FilterOutMembers(xs[1..], removed, x);
      assert x in xs <==> x == xs[0] || x in xs[1..];
    }
  }

  /** Removing an entry that occurs shortens the list. */
  lemma {:induction false} FilterOutShrinks<T>(xs: seq<T>, removed: seq<T>, x: T)
    requires x in xs && x in removed
    ensures |FilterOut(xs, removed)| < |xs|
    decreases |xs|
  {
    if xs[0] != x {
      FilterOutShrinks(xs[1..], removed, x);
    }
  }

  /** Removing nothing keeps every entry. */
  lemma {:induction false} FilterOutNothing<T>(xs: seq<T>)
    ensures FilterOut(xs, []) == xs
    decreases |xs|
  {
    if xs != [] {
      FilterOutNothing(xs[1..]);
      assert xs == [xs[0]] + xs[1..];
    }
  }

  /** An entry that does not occur makes no difference to what is filtered out. */
  lemma {:induction false} FilterOutAbsent<T>(xs: seq<T>, removed: seq<T>, x: T)
    requires x !in xs
    ensures FilterOut(xs, removed + [x]) == FilterOut(xs, removed)
    decreases |xs|
  {
    if xs != [] {
      assert xs[0] in removed + [x] <==> xs[0] in removed;
      FilterOutAbsent(xs[1..], removed, x);
    }
  }

  /** Removing entries one at a time with `list.remove` is filtering them out, in a list without
      repeats. */
  lemma {:induction false} RemoveFirstFilterOut<T>(xs: seq<T>, removed: seq<T>, x: T)
    requires Distinct(xs) && x !in removed
    ensures RemoveFirst(FilterOut(xs, removed), x) == FilterOut(xs, removed + [x])
    decreases |xs|
  {
    if xs != [] {
      assert Distinct(xs[1..]) by {
        forall i, j | 0 <= i < j < |xs[1..]| ensures xs[1..][i] != xs[1..][j] {
          assert xs[1..][i] == xs[i + 1] && xs[1..][j] == xs[j + 1];
        }
      }
      if xs[0] == x {
        assert x !in xs[1..] by {
          forall k | 0 <= k < |xs[1..]| ensures xs[1..][k] != x {
            assert xs[1..][k] == xs[k + 1];
          }
        }
        FilterOutAbsent(xs[1..], removed, x);
      } else if xs[0] in removed {
        assert xs[0] in removed + [x];
        assert FilterOut(xs, removed) == [] + FilterOut(xs[1..], removed) == FilterOut(xs[1..], removed);
        assert FilterOut(xs, removed + [x]) == [] + FilterOut(xs[1..], removed + [x]) == FilterOut(xs[1..], removed + [x]);
        RemoveFirstFilterOut(xs[1..], removed, x);
      } else {
        RemoveFirstFilterOut(xs[1..], removed, x);
        assert xs[0] !in removed + [x];
      }
    }
  }

  /** `xs.remove(x)` on a list holding `x` once drops exactly that entry. */
  lemma RemoveFirstDrops<T>(xs: seq<T>, x: T)
    requires Distinct(xs) && x in xs
    ensures RemoveFirst(xs, x) == FilterOut(xs, [x])
    ensures |RemoveFirst(xs, x)| == |xs| - 1
    ensures Distinct(RemoveFirst(xs, x))
  {
    FilterOutNothing(xs);
    RemoveFirstFilterOut(xs, [], x);
    assert [] + [x] == [x];
    FilterOutDistinct(xs, [x]);
    RemoveFirstLength(xs, x);
  }

  lemma {:induction false} RemoveFirstLength<T>(xs: seq<T>, x: T)
    requires x in xs
    ensures |RemoveFirst(xs, x)| == |xs| - 1
    decreases |xs|
  {
    if xs[0] != x {
      RemoveFirstLength(xs[1..], x);
    }
  }

  /** The entries of `xs` whose flag in `keep` is set, in order (`keep` flags a prefix of `xs`). */
  function Picked<T>(xs: seq<T>, keep: seq<bool>): (r: seq<T>)
    requires |keep| <= |xs|
    ensures |r| <= |keep|
    decreases |keep|
  {
    if keep == [] then []
    else Picked(xs, keep[..|keep| - 1]) + (if keep[|keep| - 1] then [xs[|keep| - 1]] else [])
  }

  /** Only flagged entries of the prefix are picked. */
  lemma {:induction false} PickedFrom<T>(xs: seq<T>, keep: seq<bool>, x: T)
    requires |keep| <= |xs| && x in Picked(xs, keep)
    ensures exists k :: 0 <= k < |keep| && xs[k] == x && keep[k]
    decreases |keep|
  {
    var n := |keep| - 1;
    if x in Picked(xs, keep[..n]) {
      PickedFrom(xs, keep[..n], x);
      var k :| 0 <= k < n && xs[k] == x && keep[..n][k];
      assert keep[k];
    } else {
      assert xs[n] == x && keep[n];
    }
  }

  /** In a list without repeats, an entry of the flagged prefix is picked exactly when its flag is
      set. */
  lemma {:induction false} PickedFlags<T>(xs: seq<T>, keep: seq<bool>)
    requires |keep| <= |xs| && Distinct(xs)
    ensures forall k :: 0 <= k < |keep| ==> (xs[k] in Picked(xs, keep) <==> keep[k])
    decreases |keep|
  {
    if keep != [] {
      var n := |keep| - 1;
      PickedFlags(xs, keep[..n]);
      var prev := Picked(xs, keep[..n]);
      assert Picked(xs, keep) == prev + (if keep[n] then [xs[n]] else []);
      forall k | 0 <= k < |keep|
        ensures xs[k] in Picked(xs, keep) <==> keep[k]
      {
        if k < n {
          assert keep[..n][k] == keep[k];
          assert xs[k] != xs[n];
          assert xs[k] in Picked(xs, keep) <==> xs[k] in prev;
        } else if xs[n] in prev {
          PickedFrom(xs, keep[..n], xs[n]);
        }
      }
    }
  }

  /** What is picked from a list without repeats has none and comes from the list. */
  lemma {:induction false} PickedDistinct<T>(xs: seq<T>, keep: seq<bool>)
    requires |keep| <= |xs| && Distinct(xs)
    ensures Distinct(Picked(xs, keep)) && forall x :: x in Picked(xs, keep) ==> x in xs
    decreases |keep|
  {
    if keep != [] {
      var n := |keep| - 1;
      PickedDistinct(xs, keep[..n]);
      if xs[n] in Picked(xs, keep[..n]) {
        PickedFrom(xs, keep[..n], xs[n]);
      }
    }
  }

  /** Dropping the last entry of a list without repeats leaves one without it. */
  lemma DistinctInit<T>(xs: seq<T>)
    requires Distinct(xs) && xs != []
    ensures Distinct(xs[..|xs| - 1]) && xs[|xs| - 1] !in xs[..|xs| - 1]
  {
    var n := |xs| - 1;
    forall a | 0 <= a < n ensures xs[..n][a] != xs[n] {
      assert xs[..n][a] == xs[a];
    }
  }

  lemma DistinctSnoc<T>(xs: seq<T>, y: T)
    requires Distinct(xs) && y !in xs
    ensures Distinct(xs + [y])
  {
  }

  /** Appending a new entry to one of two disjoint lists without repeats keeps them so. */
  lemma DisjointAppend<T>(xs: seq<T>, ys: seq<T>, y: T)
    requires Distinct(xs) && Distinct(ys) && (forall x :: x in xs ==> x !in ys)
    requires y !in xs && y !in ys
    ensures Distinct(ys + [y]) && forall x :: x in xs ==> x !in ys + [y]
  {
  }
}
