/** The document-store semantics the view models depend on: listener
    events, the `arrayUnion` / `arrayRemove` field transforms, and the
    `orderBy("timestamp")` order of a query. Each collection itself is a
    map from document id to record, held by the view model that uses it. */
module Firestore {
  import opened Kotlin

  /** What a snapshot listener receives: documents, a null snapshot with no
      error, or an error (after which the listener delivers nothing more). */
  datatype ListenerEvent<T> = Snapshot(docs: seq<T>) | NoSnapshot | ListenError

  /** No element occurs twice. */
  ghost predicate NoDuplicates<T>(xs: seq<T>) {
    forall i, j :: 0 <= i < j < |xs| ==> xs[i] != xs[j]
  }

  /** `FieldValue.arrayUnion(x)`: appends `x` unless an equal element is
      already present. */
  function ArrayUnion<T(==)>(xs: seq<T>, x: T): (r: seq<T>)
    ensures x in r
    ensures |xs| <= |r| && r[..|xs|] == xs
    ensures x in xs ==> r == xs
    ensures x !in xs ==> r == xs + [x]
  {
    if x in xs then xs else xs + [x]
  }

  /** `FieldValue.arrayRemove(x)`: removes every element equal to `x`,
      keeping the others in order. */
  function ArrayRemove<T(==,!new)>(xs: seq<T>, x: T): (r: seq<T>)
    ensures x !in r
    ensures forall y :: y != x ==> multiset(r)[y] == multiset(xs)[y]
    ensures |r| <= |xs|
  {
    if xs == [] then []
    else
      assert xs == [xs[0]] + xs[1..];
      (if xs[0] == x then [] else [xs[0]]) + ArrayRemove(xs[1..], x)
  }

  /** A second identical `arrayUnion` changes nothing. */
  lemma ArrayUnionIdempotent<T>(xs: seq<T>, x: T)
    ensures ArrayUnion(ArrayUnion(xs, x), x) == ArrayUnion(xs, x)
  {
  }

  /** `arrayUnion` never introduces a duplicate. */
  lemma ArrayUnionNoDuplicates<T>(xs: seq<T>, x: T)
    requires NoDuplicates(xs)
    ensures NoDuplicates(ArrayUnion(xs, x))
  {
  }

  /** On a duplicate-free array, removing a present element shortens it by
      exactly one and keeps it duplicate-free. */
  lemma {:induction false} ArrayRemoveOne<T(!new)>(xs: seq<T>, x: T)
    requires NoDuplicates(xs)
    ensures NoDuplicates(ArrayRemove(xs, x))
    ensures |ArrayRemove(xs, x)| == if x in xs then |xs| - 1 else |xs|
  {
    if xs != [] {
      var tail := xs[1..];
      assert NoDuplicates(tail);
      ArrayRemoveOne(tail, x);
      var rt := ArrayRemove(tail, x);
      assert forall k :: 0 <= k < |tail| ==> tail[k] != xs[0];
      assert xs[0] !in tail;
      if xs[0] != x {
        assert multiset(rt)[xs[0]] == multiset(tail)[xs[0]] == 0;
        assert xs[0] !in rt;
      }
    }
  }

  /** Removing an element that is absent changes nothing. */
  lemma {:induction false} ArrayRemoveAbsent<T(!new)>(xs: seq<T>, x: T)
    requires x !in xs
    ensures ArrayRemove(xs, x) == xs
  {
    if xs != [] {
      ArrayRemoveAbsent(xs[1..], x);
    }
  }

  /** The order of Firestore `Timestamp?` values: null before every
      timestamp, timestamps by their time. */
  function TimeKey(t: Option<nat>): (k: int)
    ensures t.None? ==> k < 0
    ensures t.Some? ==> k == t.value
  {
    if t.None? then -1 else t.value
  }

  /** Every later element has a key no smaller than every earlier one. */
  predicate AscendingBy<T>(s: seq<T>, key: T -> int) {
    forall i, j :: 0 <= i < j < |s| ==> key(s[i]) <= key(s[j])
  }

  /** `orderBy(field, ASCENDING)` of a query: the documents, smallest key
      first. Documents with equal keys keep the order in which the store
      delivered them. */
  function OrderAscending<T>(docs: seq<T>, key: T -> int): (r: seq<T>)
    ensures multiset(r) == multiset(docs) && |r| == |docs|
    ensures AscendingBy(r, key)
  {
    var neg := (d: T) => -key(d);
    var r := SortedByDescending(docs, neg);
    assert forall i, j :: 0 <= i < j < |r| ==> neg(r[j]) <= neg(r[i]);
    r
  }

  /** `orderBy(field, DESCENDING)` of a query: the documents, largest key
      first; Kotlin's `sortedByDescending` orders the same way. */
  function OrderDescending<T>(docs: seq<T>, key: T -> int): (r: seq<T>)
    ensures multiset(r) == multiset(docs) && |r| == |docs|
    ensures DescendingBy(r, key)
  {
    SortedByDescending(docs, key)
  }
}
