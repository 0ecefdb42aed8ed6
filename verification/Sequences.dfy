/**
 Sequences without repetition, and what their cardinalities decide.
 */
module Sequences {

  ghost predicate Distinct<T>(s: seq<T>) {
    forall i, j :: 0 <= i < j < |s| ==> s[i] != s[j]
  }

  function ToSet<T(==)>(s: seq<T>): set<T> {
    set x | x in s
  }

  /** A set of what was seen so far detects the first repetition. */
  lemma SeenStep<T>(s: seq<T>, i: nat)
    requires i < |s| && Distinct(s[..i])
    ensures ToSet(s[..i + 1]) == ToSet(s[..i]) + {s[i]}
    ensures s[i] !in ToSet(s[..i]) ==> Distinct(s[..i + 1])
    ensures s[i] in ToSet(s[..i]) ==> !Distinct(s)
  {
    assert s[..i + 1] == s[..i] + [s[i]];
    if s[i] in ToSet(s[..i]) {
      var k :| 0 <= k < i && s[..i][k] == s[i];
      assert s[k] == s[i];
    } else {
      assert forall k :: 0 <= k < i ==> s[k] == s[..i][k] && s[..i][k] in s[..i];
    }
  }

  /** Counting distinct values detects a repetition. */
  lemma {:induction false} DistinctCount<T>(s: seq<T>)
    ensures |ToSet(s)| == |s| <==> Distinct(s)
    ensures |ToSet(s)| <= |s|
  {
    if s != [] {
      var init, last := s[..|s| - 1], s[|s| - 1];
      DistinctCount(init);
      assert ToSet(s) == ToSet(init) + {last};
      if last in init {
        var i :| 0 <= i < |init| && init[i] == last;
        assert s[i] == s[|s| - 1];
        assert ToSet(s) == ToSet(init);
      } else {
        assert Distinct(s) <==> Distinct(init);
      }
    }
  }

  lemma {:induction false} DistinctMultiplicity<T>(s: seq<T>)
    requires Distinct(s)
    ensures forall x :: multiset(s)[x] == if x in s then 1 else 0
  {
    if s != [] {
      var init := s[..|s| - 1];
      DistinctMultiplicity(init);
      assert s == init + [s[|s| - 1]];
    }
  }

  lemma SameElements<T>(a: seq<T>, b: seq<T>)
    requires Distinct(a) && Distinct(b)
    requires forall x :: x in a <==> x in b
    ensures multiset(a) == multiset(b)
  {
    DistinctMultiplicity(a);
    DistinctMultiplicity(b);
  }

  lemma RepeatedMultiplicity<T>(s: seq<T>, i: nat, j: nat)
    requires i < j < |s| && s[i] == s[j]
    ensures multiset(s)[s[i]] >= 2
  {
    assert s == s[..i] + [s[i]] + s[i + 1..j] + [s[j]] + s[j + 1..];
  }

  /** A subset that is no smaller is the whole set. */
  lemma {:induction false} FullSubset<T>(part: set<T>, whole: set<T>)
    requires part <= whole
    ensures |part| <= |whole|
    ensures |part| == |whole| <==> part == whole
  {
    assert whole == part + (whole - part);
    assert |whole| == |part| + |whole - part|;
  }
}
