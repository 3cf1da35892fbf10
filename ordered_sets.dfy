/**
 * Insertion-ordered sets kept as duplicate-free sequences: the behaviour of Java's
 * LinkedHashSet, which backs both the write cache's LinkedHashModel and the default
 * graphs of a query dataset.
 */
module OrderedSets {

  ghost predicate NoDuplicates<T>(s: seq<T>)
  {
    forall i, j :: 0 <= i < j < |s| ==> s[i] != s[j]
  }

  /** `add(x)`: appends x unless it is already present. */
  function Insert<T(==)>(s: seq<T>, x: T): (r: seq<T>)
    ensures x in s ==> r == s
    ensures x !in s ==> r == s + [x]
  {
    if x in s then s else s + [x]
  }

  /** Adds the elements of xs one after another. */
  function InsertAll<T(==)>(s: seq<T>, xs: seq<T>): seq<T>
    decreases |xs|
  {
    if xs == [] then s else InsertAll(Insert(s, xs[0]), xs[1..])
  }

  lemma InsertKeepsNoDuplicates<T>(s: seq<T>, x: T)
    requires NoDuplicates(s)
    ensures NoDuplicates(Insert(s, x))
  {
  }

  /** Inserting keeps the set duplicate-free, keeps the old elements in their order as a prefix,
      and holds exactly the old elements and the inserted ones. */
  lemma {:induction false} InsertAllFacts<T>(s: seq<T>, xs: seq<T>)
    requires NoDuplicates(s)
    ensures NoDuplicates(InsertAll(s, xs))
    ensures |s| <= |InsertAll(s, xs)| && InsertAll(s, xs)[..|s|] == s
    ensures forall y :: y in InsertAll(s, xs) <==> y in s || y in xs
    ensures |InsertAll(s, xs)| <= |s| + |xs|
    decreases |xs|
  {
    if xs != [] {
      var s' := Insert(s, xs[0]);
      InsertKeepsNoDuplicates(s, xs[0]);
      InsertAllFacts(s', xs[1..]);
      assert InsertAll(s, xs) == InsertAll(s', xs[1..]);
      assert s'[..|s|] == s;
      forall y ensures y in InsertAll(s, xs) <==> y in s || y in xs {
        assert y in xs <==> y == xs[0] || y in xs[1..] by {
          assert xs == [xs[0]] + xs[1..];
        }
      }
    }
  }

  /** Inserting only elements that are already present changes nothing. */
  lemma {:induction false} InsertAllPresent<T>(s: seq<T>, xs: seq<T>)
    requires forall y :: y in xs ==> y in s
    ensures InsertAll(s, xs) == s
    decreases |xs|
  {
    if xs != [] {
      assert xs[0] in xs;
      InsertAllPresent(s, xs[1..]);
    }
  }

  /** Adding one more element at the end is one more `add`. */
  lemma {:induction false} InsertAllSnoc<T>(s: seq<T>, xs: seq<T>, x: T)
    ensures InsertAll(s, xs + [x]) == Insert(InsertAll(s, xs), x)
    decreases |xs|
  {
    if xs == [] {
      assert [] + [x] == [x];
    } else {
      assert (xs + [x])[1..] == xs[1..] + [x];
      InsertAllSnoc(Insert(s, xs[0]), xs[1..], x);
    }
  }

  /** Inserting the same elements twice is the same as inserting them once. */
  lemma InsertAllIdempotent<T>(s: seq<T>, xs: seq<T>)
    requires NoDuplicates(s)
    ensures InsertAll(InsertAll(s, xs), xs) == InsertAll(s, xs)
  {
    InsertAllFacts(s, xs);
    InsertAllPresent(InsertAll(s, xs), xs);
  }
}
