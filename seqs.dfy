/** Sequence helpers standing in for QList operations. */
module Seqs {
  predicate NoDup<T(==)>(s: seq<T>) {
    forall i, j :: 0 <= i < j < |s| ==> s[i] != s[j]
  }

  /** QList::removeOne: removes the first occurrence of `x`, if any. */
  function RemoveOne<T(==)>(s: seq<T>, x: T): (r: seq<T>)
    ensures x !in s ==> r == s
    ensures x in s ==> |r| == |s| - 1
  {
    if s == [] then []
    else if s[0] == x then s[1..]
    else [s[0]] + RemoveOne(s[1..], x)
  }

  /** Cutting out the first occurrence of `x` is QList::removeOne. */
  lemma {:induction false} CutAtFirst<T>(s: seq<T>, x: T, i: nat)
    requires i < |s| && s[i] == x && x !in s[..i]
    ensures s[..i] + s[i + 1..] == RemoveOne(s, x)
  {
    if i > 0 {
      var t := s[1..];
      assert s[0] != x by { assert s[0] == s[..i][0]; }
      var before := t[..i - 1];
      assert x !in before by {
        forall j | 0 <= j < i - 1 ensures before[j] != x {
          assert before[j] == s[..i][j + 1];
        }
      }
      CutAtFirst(t, x, i - 1);
      assert RemoveOne(s, x) == [s[0]] + RemoveOne(t, x);
      assert s[..i] == [s[0]] + t[..i - 1];
      assert s[i + 1..] == t[i..];
      assert s[..i] + s[i + 1..] == [s[0]] + (t[..i - 1] + t[i..]);
    }
  }

  /** Moving one occurrence of `x` to the front keeps the length and the contents. */
  lemma MoveToFrontKeepsContents<T>(s: seq<T>, x: T)
    requires x in s
    ensures |[x] + RemoveOne(s, x)| == |s| && multiset([x] + RemoveOne(s, x)) == multiset(s)
  {
    RemoveOneMultiset(s, x);
    assert multiset([x] + RemoveOne(s, x)) == multiset{x} + multiset(RemoveOne(s, x));
  }

  lemma {:induction false} RemoveOneMultiset<T>(s: seq<T>, x: T)
    ensures multiset(RemoveOne(s, x)) == if x in s then multiset(s) - multiset{x} else multiset(s)
  {
    if s != [] && s[0] != x {
      RemoveOneMultiset(s[1..], x);
      assert s == [s[0]] + s[1..];
    } else if s != [] {
      assert s == [s[0]] + s[1..];
    }
  }

  /** Removing an element that was just appended, and occurs nowhere else, undoes the append. */
  lemma {:induction false} RemoveOneAppended<T>(s: seq<T>, x: T)
    requires x !in s
    ensures RemoveOne(s + [x], x) == s
  {
    if s != [] {
      assert (s + [x])[1..] == s[1..] + [x];
      RemoveOneAppended(s[1..], x);
    }
  }

  lemma RemoveOneElements<T>(s: seq<T>, x: T)
    requires NoDup(s)
    ensures NoDup(RemoveOne(s, x))
    ensures forall y :: y in RemoveOne(s, x) <==> y in s && y != x
  {
    RemoveOneMultiset(s, x);
    var r := RemoveOne(s, x);
    forall y ensures y in r <==> y in s && y != x {
      assert y in r <==> y in multiset(r);
      assert y in s <==> y in multiset(s);
      assert multiset(s)[x] <= 1 by { NoDupCount(s, x); }
    }
    forall z ensures multiset(r)[z] <= 1 {
      NoDupCount(s, z);
    }
    CountNoDup(r);
  }

  /** The elements RemoveOne leaves, as a set: all but the removed one. */
  lemma RemoveOneSet<T>(s: seq<T>, x: T)
    requires NoDup(s)
    ensures (set y | y in RemoveOne(s, x)) == (set y | y in s) - {x}
    ensures forall y :: y in RemoveOne(s, x) ==> y in s
  {
    RemoveOneElements(s, x);
  }

  lemma {:induction false} NoDupCount<T>(s: seq<T>, x: T)
    requires NoDup(s)
    ensures multiset(s)[x] <= 1
  {
    if s != [] {
      assert s == [s[0]] + s[1..];
      NoDupCount(s[1..], x);
      if s[0] == x {
        assert x !in s[1..];
        assert multiset(s[1..])[x] == 0;
      }
    }
  }

  lemma {:induction false} CountNoDup<T>(s: seq<T>)
    requires forall z :: multiset(s)[z] <= 1
    ensures NoDup(s)
  {
    if s != [] {
      assert s == [s[0]] + s[1..];
      forall z ensures multiset(s[1..])[z] <= 1 {
        assert multiset(s)[z] == multiset([s[0]])[z] + multiset(s[1..])[z];
      }
      CountNoDup(s[1..]);
      assert multiset(s)[s[0]] == 1 + multiset(s[1..])[s[0]];
      assert s[0] !in s[1..];
      forall i, j | 0 <= i < j < |s| ensures s[i] != s[j] {
        if i == 0 { assert s[j] in s[1..]; }
        else { assert s[i] == s[1..][i - 1] && s[j] == s[1..][j - 1]; }
      }
    }
  }

  /** A duplicate-free sequence has as many distinct elements as entries. */
  lemma {:induction false} NoDupCardinality<T>(s: seq<T>)
    requires NoDup(s)
    ensures |set x | x in s| == |s|
  {
    if s != [] {
      var t := s[1..];
      assert NoDup(t) by {
        forall i, j | 0 <= i < j < |t| ensures t[i] != t[j] { assert t[i] == s[i + 1] && t[j] == s[j + 1]; }
      }
      NoDupCardinality(t);
      assert s[0] !in t by {
        forall k | 0 <= k < |t| ensures t[k] != s[0] { assert t[k] == s[k + 1]; }
      }
      assert (set x | x in s) == (set x | x in t) + {s[0]} by {
        assert s == [s[0]] + t;
      }
    }
  }

  /** A duplicate-free sequence drawn from a finite set is no longer than the set. */
  lemma NoDupBounded<T>(s: seq<T>, u: set<T>)
    requires NoDup(s)
    requires forall x :: x in s ==> x in u
    ensures |s| <= |u|
  {
    NoDupCardinality(s);
    assert (set x | x in s) <= u;
    SubsetCardinality((set x | x in s), u);
  }

  lemma SubsetCardinality<T>(a: set<T>, b: set<T>)
    requires a <= b
    ensures |a| <= |b|
  {
    assert b == a + (b - a);
  }
}
