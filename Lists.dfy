/** Facts about the lists the particle systems keep: a list of objects in
    which no object occurs twice, and the growth of a list by appending. */
module Lists {

  /** No object occurs twice in the list. */
  predicate Distinct<T(==)>(s: seq<T>)
  {
    forall i, j :: 0 <= i < j < |s| ==> Apart(s, i, j)
  }

  /** Positions i and j hold different objects. */
  predicate Apart<T(==)>(s: seq<T>, i: nat, j: nat)
    requires i < |s| && j < |s|
  {
    s[i] != s[j]
  }

  /** Pushing an object not in the list keeps it free of duplicates. */
  lemma DistinctPush<T>(s: seq<T>, p: T)
    requires Distinct(s) && p !in s
    ensures Distinct(s + [p])
  {
    var t := s + [p];
    forall i, j | 0 <= i < j < |t|
      ensures Apart(t, i, j)
    {
      if j < |s| {
        assert Apart(s, i, j);
      }
    }
  }

  /** A list free of duplicates holds each object at one position only. */
  lemma DistinctAt<T>(s: seq<T>, i: nat, j: nat)
    requires Distinct(s) && i < |s| && j < |s| && i != j
    ensures s[i] != s[j]
  {
    if i < j {
      assert Apart(s, i, j);
    } else {
      assert Apart(s, j, i);
    }
  }

  lemma PrefixTrans<T>(a: seq<T>, b: seq<T>, c: seq<T>)
    requires a <= b && b <= c
    ensures a <= c
  {
    assert b == c[..|b|];
    assert a == c[..|b|][..|a|];
  }

  lemma PrefixPush<T>(a: seq<T>, b: seq<T>, x: T)
    requires a <= b
    ensures a <= b + [x]
  {
    assert (b + [x])[..|b|] == b;
  }

  lemma AppendAssoc<T>(a: seq<T>, b: seq<T>, c: seq<T>)
    ensures a + b + c == a + (b + c)
  {
  }
}
