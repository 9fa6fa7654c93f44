/** Sums of a number over a list, whatever the order of the list. */
module Counting {
  import opened Prelude

  function CountOf<T>(xs: seq<T>, f: T -> nat): nat {
    if xs == [] then 0 else CountOf(xs[..|xs| - 1], f) + f(xs[|xs| - 1])
  }

  lemma {:induction false} CountRemoved<T>(xs: seq<T>, j: nat, f: T -> nat)
    requires j < |xs|
    ensures CountOf(xs, f) == CountOf(Without(xs, j), f) + f(xs[j])
  {
    if j == |xs| - 1 {
      assert Without(xs, j) == xs[..|xs| - 1];
    } else {
      CountRemoved(xs[..|xs| - 1], j, f);
      WithoutLast(xs, j);
    }
  }

  lemma {:induction false} CountPermuted<T>(xs: seq<T>, ys: seq<T>, f: T -> nat)
    requires multiset(xs) == multiset(ys)
    ensures CountOf(xs, f) == CountOf(ys, f)
  {
    if xs == [] {
      assert |multiset(ys)| == 0;
    } else {
      var init, last := xs[..|xs| - 1], xs[|xs| - 1];
      assert last in multiset(ys);
      var j :| 0 <= j < |ys| && ys[j] == last;
      WithoutMultiset(ys, j);
      WithoutMultiset(xs, |xs| - 1);
      assert Without(xs, |xs| - 1) == init;
      Cancel(multiset(init), multiset(Without(ys, j)), last);
      CountPermuted(init, Without(ys, j), f);
      CountRemoved(ys, j, f);
    }
  }

  lemma CountSnoc<T>(xs: seq<T>, x: T, f: T -> nat)
    ensures CountOf(xs + [x], f) == CountOf(xs, f) + f(x)
  {
    assert (xs + [x])[..|xs|] == xs;
  }

  lemma {:induction false} CountConcat<T>(xs: seq<T>, ys: seq<T>, f: T -> nat)
    ensures CountOf(xs + ys, f) == CountOf(xs, f) + CountOf(ys, f)
  {
    if ys == [] {
      assert xs + ys == xs;
    } else {
      var init, last := ys[..|ys| - 1], ys[|ys| - 1];
      CountConcat(xs, init, f);
      CountSnoc(xs + init, last, f);
      assert xs + ys == xs + init + [last];
    }
  }
}
