/** What several modules share: options, and lists without repetition or with one element taken out. */
module Prelude {

  datatype Option<+T> = None | Some(value: T) {

    function GetOr(default: T): T {
      match this
      case None => default
      case Some(v) => v
    }
  }

  ghost predicate Distinct<T>(list: seq<T>) {
    forall i, j :: 0 <= i < j < |list| ==> list[i] != list[j]
  }

  function Without<T>(list: seq<T>, i: nat): seq<T>
    requires i < |list|
  {
    list[..i] + list[i + 1..]
  }

  lemma WithoutMultiset<T>(list: seq<T>, i: nat)
    requires i < |list|
    ensures multiset(list) == multiset(Without(list, i)) + multiset{list[i]}
  {
    assert list == list[..i] + [list[i]] + list[i + 1..];
  }

  lemma WithoutLast<T>(list: seq<T>, i: nat)
    requires i < |list| - 1
    ensures Without(list, i)[..|list| - 2] == Without(list[..|list| - 1], i)
    ensures Without(list, i)[|list| - 2] == list[|list| - 1]
  {
  }

  lemma Cancel<T>(a: multiset<T>, b: multiset<T>, x: T)
    requires a + multiset{x} == b + multiset{x}
    ensures a == b
  {
    assert a == (a + multiset{x}) - multiset{x};
  }
}
