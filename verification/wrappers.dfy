/** Small values and sequence facts shared by the other modules. */
module Wrappers {
  datatype Option<+T> = None | Some(value: T)

  newtype Byte = x: int | 0 <= x < 256

  function Min(a: nat, b: nat): nat {
    if a < b then a else b
  }

  ghost predicate NoDup<T>(s: seq<T>) {
    forall i, j | 0 <= i < j < |s| :: s[i] != s[j]
  }

  ghost function SetOf<T>(s: seq<T>): set<T> {
    set x | x in s
  }

  function RemoveAt<T>(s: seq<T>, i: nat): (r: seq<T>)
    requires i < |s|
  {
    s[..i] + s[i + 1..]
  }

  ghost function Reverse<T>(s: seq<T>): (r: seq<T>)
    ensures |r| == |s|
  {
    if s == [] then [] else [s[|s| - 1]] + Reverse(s[..|s| - 1])
  }

  lemma ReverseOneMore<T>(s: seq<T>, x: T)
    ensures Reverse(s + [x]) == [x] + Reverse(s)
  {
    assert (s + [x])[..|s|] == s;
  }

  /** `s` with every element of `gone` left out, in the same order. */
  ghost function Without<T>(s: seq<T>, gone: set<T>): (r: seq<T>)
    ensures forall x | x in r :: x in s && x !in gone
    ensures forall x | x in s && x !in gone :: x in r
  {
    if s == [] then [] else
      var r := Without(s[..|s| - 1], gone);
      var x := s[|s| - 1];
      assert s == s[..|s| - 1] + [x];
      if x in gone then r else r + [x]
  }

  lemma {:induction false} WithoutNothing<T>(s: seq<T>, gone: set<T>)
    requires forall x | x in s :: x !in gone
    ensures Without(s, gone) == s
  {
    if s != [] {
      WithoutNothing(s[..|s| - 1], gone);
      assert s == s[..|s| - 1] + [s[|s| - 1]];
    }
  }

  lemma {:induction false} WithoutTwice<T>(s: seq<T>, a: set<T>, b: set<T>)
    ensures Without(Without(s, a), b) == Without(s, a + b)
  {
    if s != [] {
      var x := s[|s| - 1];
      var r := Without(s[..|s| - 1], a);
      WithoutTwice(s[..|s| - 1], a, b);
      if x !in a {
        assert (r + [x])[..|r + [x]| - 1] == r;
      }
    }
  }

  lemma {:induction false} WithoutNoDup<T>(s: seq<T>, gone: set<T>)
    requires NoDup(s)
    ensures NoDup(Without(s, gone))
  {
    if s != [] {
      WithoutNoDup(s[..|s| - 1], gone);
    }
  }

  lemma RemoveAtNoDup<T>(s: seq<T>, i: nat)
    requires i < |s| && NoDup(s)
    ensures NoDup(RemoveAt(s, i)) && s[i] !in RemoveAt(s, i) && SetOf(RemoveAt(s, i)) <= SetOf(s)
    ensures forall j | 0 <= j < |s| - 1 :: RemoveAt(s, i)[j] == if j < i then s[j] else s[j + 1]
  {
  }

  lemma RemoveAtFront<T>(s: seq<T>, i: nat)
    requires i < |s| - 1
    ensures RemoveAt(s, i) == RemoveAt(s[..|s| - 1], i) + [s[|s| - 1]]
  {
  }

  /** Removing one position of a duplicate-free sequence leaves out exactly that element. */
  lemma {:induction false} RemoveAtIsWithout<T>(s: seq<T>, i: nat)
    requires i < |s| && NoDup(s)
    ensures RemoveAt(s, i) == Without(s, {s[i]})
  {
    var front, x := s[..|s| - 1], s[|s| - 1];
    if i == |s| - 1 {
      WithoutNothing(front, {x});
      assert RemoveAt(s, i) == front;
    } else {
      RemoveAtFront(s, i);
      RemoveAtIsWithout(front, i);
      assert x !in {s[i]} && Without(s, {s[i]}) == Without(front, {s[i]}) + [x];
    }
  }

  /** Rearranging keeps the set of elements and adds no duplicates. */
  lemma Rearranged<T>(s: seq<T>, r: seq<T>)
    requires multiset(s) == multiset(r)
    ensures SetOf(s) == SetOf(r) && |s| == |r|
    ensures NoDup(s) ==> NoDup(r)
  {
    assert |s| == |multiset(s)| == |multiset(r)| == |r|;
    forall x | x in s ensures x in r { assert x in multiset(r); }
    forall x | x in r ensures x in s { assert x in multiset(s); }
    if NoDup(s) {
      forall i, j | 0 <= i < j < |r| ensures r[i] != r[j] {
        CountsOnce(s, r[j]);
        var before, rest := r[..j], [r[j]] + r[j + 1..];
        assert r == before + rest && before[i] == r[i];
        assert multiset(rest)[r[j]] >= 1;
        assert multiset(before)[r[i]] >= 1;
      }
    }
  }

  lemma {:induction false} CountsOnce<T>(s: seq<T>, x: T)
    requires NoDup(s)
    ensures multiset(s)[x] <= 1
  {
    if s != [] {
      var front := s[..|s| - 1];
      CountsOnce(front, x);
      assert s == front + [s[|s| - 1]];
      assert s[|s| - 1] !in front;
    }
  }
}
