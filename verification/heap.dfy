/**
  The three heap algorithms the scheduler takes from the C++ library
  (ISO/IEC 14882:2003, section 25.3.6).  A vector is a sequence, and a
  comparator is any strict weak order on the elements the vector holds: the
  front of a heap is an element no other element exceeds.
*/
module Heaps {

  function Parent(i: int): int
    requires 0 < i
  {
    (i - 1) / 2
  }

  /** A strict weak order on the elements of `els`. */
  ghost predicate OrderOn<T>(less: (T, T) -> bool, els: multiset<T>) {
    && (forall a, b | a in els && b in els && less(a, b) :: !less(b, a))
    && (forall a, b, c | a in els && b in els && c in els && !less(a, b) && !less(b, c) :: !less(a, c))
  }

  /** The first `n` elements obey the heap order at every parent from `k` on. */
  ghost predicate HeapFrom<T>(s: seq<T>, less: (T, T) -> bool, n: nat, k: nat)
    requires n <= |s|
  {
    forall i {:trigger Parent(i)} | 0 < i < n && k <= Parent(i) :: !less(s[Parent(i)], s[i])
  }

  ghost predicate IsHeap<T>(s: seq<T>, less: (T, T) -> bool) {
    HeapFrom(s, less, |s|, 0)
  }

  /** The front of a heap is a greatest element. */
  lemma {:induction false} FrontIsGreatest<T>(s: seq<T>, less: (T, T) -> bool, i: nat)
    requires i < |s| && IsHeap(s, less) && OrderOn(less, multiset(s))
    ensures !less(s[0], s[i])
    decreases i
  {
    assert s[0] in multiset(s) && s[i] in multiset(s);
    if i > 0 {
      FrontIsGreatest(s, less, Parent(i));
      assert s[Parent(i)] in multiset(s);
    }
  }

  /** The sequence with positions `i` and `j` exchanged. */
  function Swap<T>(s: seq<T>, i: nat, j: nat): (r: seq<T>)
    requires i < |s| && j < |s|
    ensures |r| == |s| && multiset(r) == multiset(s)
    ensures forall m | 0 <= m < |s| :: r[m] == if m == i then s[j] else if m == j then s[i] else s[m]
  {
    s[i := s[j]][j := s[i]]
  }

  /** A heap but for position `i`, which may exceed its parent. */
  ghost predicate SiftingUp<T>(s: seq<T>, less: (T, T) -> bool, i: nat) {
    && i < |s|
    && (forall j | 0 < j < |s| && j != i :: !less(s[Parent(j)], s[j]))
    && (forall j | 0 < i && 0 < j < |s| && Parent(j) == i :: !less(s[Parent(i)], s[j]))
  }

  lemma SiftUpStep<T>(s: seq<T>, less: (T, T) -> bool, i: nat)
    requires SiftingUp(s, less, i) && 0 < i && less(s[Parent(i)], s[i]) && OrderOn(less, multiset(s))
    ensures SiftingUp(Swap(s, i, Parent(i)), less, Parent(i))
  {
    var p := Parent(i);
    var r := Swap(s, i, p);
    assert forall m | 0 <= m < |s| :: s[m] in multiset(s);
    forall j | 0 < j < |r| && j != p ensures !less(r[Parent(j)], r[j]) {
      if j != i && Parent(j) == p {
        assert !less(s[p], s[j]) && !less(s[i], s[p]);
      }
    }
    forall j | 0 < p && 0 < j < |r| && Parent(j) == p ensures !less(r[Parent(p)], r[j]) {
      assert !less(s[Parent(p)], s[p]);
      if j != i {
        assert !less(s[p], s[j]);
      }
    }
  }

  /** std::push_heap: all but the last element form a heap; sift the last one up. */
  method PushHeap<T>(v: seq<T>, less: (T, T) -> bool) returns (w: seq<T>)
    requires |v| > 0 && HeapFrom(v, less, |v| - 1, 0) && OrderOn(less, multiset(v))
    ensures multiset(w) == multiset(v) && |w| == |v| && IsHeap(w, less)
  {
    w := v;
    var i: nat := |v| - 1;
    while i > 0 && less(w[Parent(i)], w[i])
      invariant multiset(w) == multiset(v) && |w| == |v|
      invariant SiftingUp(w, less, i)
    {
      SiftUpStep(w, less, i);
      w := Swap(w, i, Parent(i));
      i := Parent(i);
    }
  }

  /** Heap-ordered from parent `k` on, but for position `i`, which its children may exceed. */
  ghost predicate SiftingDown<T>(s: seq<T>, less: (T, T) -> bool, n: nat, k: nat, i: nat) {
    && k <= i < n <= |s|
    && (forall j | 0 < j < n && k <= Parent(j) && Parent(j) != i :: !less(s[Parent(j)], s[j]))
    && (forall j | 0 < i && k <= Parent(i) && 0 < j < n && Parent(j) == i :: !less(s[Parent(i)], s[j]))
  }

  lemma SiftDownStep<T>(s: seq<T>, less: (T, T) -> bool, n: nat, k: nat, i: nat, c: nat)
    requires SiftingDown(s, less, n, k, i) && OrderOn(less, multiset(s))
    requires 0 < c < n && Parent(c) == i && less(s[i], s[c])
    requires forall j | 0 < j < n && Parent(j) == i :: !less(s[c], s[j])
    ensures SiftingDown(Swap(s, i, c), less, n, k, c)
  {
    var r := Swap(s, i, c);
    assert forall m | 0 <= m < |s| :: s[m] in multiset(s);
    forall j | 0 < j < n && k <= Parent(j) && Parent(j) != c ensures !less(r[Parent(j)], r[j]) {
      if j == i {
        assert !less(s[Parent(i)], s[c]);
      } else if j != c && Parent(j) == i {
        assert !less(s[c], s[j]);
      }
    }
    forall j | 0 < j < n && Parent(j) == c ensures !less(r[Parent(c)], r[j]) {
      assert !less(s[c], s[j]);
    }
  }

  /** Sift position `k` of the first `n` elements down to where it belongs. */
  method SiftDown<T>(v: seq<T>, less: (T, T) -> bool, n: nat, k: nat) returns (w: seq<T>)
    requires k < n <= |v| && HeapFrom(v, less, n, k + 1) && OrderOn(less, multiset(v))
    ensures |w| == |v| && multiset(w) == multiset(v) && w[n..] == v[n..]
    ensures HeapFrom(w, less, n, k)
  {
    w := v;
    var i := k;
    while 2 * i + 1 < n
      invariant |w| == |v| && multiset(w) == multiset(v) && w[n..] == v[n..]
      invariant SiftingDown(w, less, n, k, i)
    {
      var c := GreaterChild(w, less, n, i);
      if !less(w[i], w[c]) {
        AllChildrenBelow(w, less, n, k, i, c);
        return;
      }
      SiftDownStep(w, less, n, k, i, c);
      w := Swap(w, i, c);
      i := c;
    }
  }

  function GreaterChild<T>(s: seq<T>, less: (T, T) -> bool, n: nat, i: nat): (c: nat)
    requires 2 * i + 1 < n <= |s|
    ensures 0 < c < n && Parent(c) == i
    ensures OrderOn(less, multiset(s)) ==> forall j | 0 < j < n && Parent(j) == i :: !less(s[c], s[j])
  {
    var c := 2 * i + 1;
    assert s[c] in multiset(s);
    assert forall j | 0 < j < n && Parent(j) == i :: j == c || j == c + 1;
    if c + 1 < n && less(s[c], s[c + 1]) then assert s[c + 1] in multiset(s); c + 1 else c
  }

  lemma AllChildrenBelow<T>(s: seq<T>, less: (T, T) -> bool, n: nat, k: nat, i: nat, c: nat)
    requires SiftingDown(s, less, n, k, i) && OrderOn(less, multiset(s))
    requires c < n && !less(s[i], s[c]) && forall j | 0 < j < n && Parent(j) == i :: !less(s[c], s[j])
    ensures HeapFrom(s, less, n, k)
  {
    assert forall m | 0 <= m < |s| :: s[m] in multiset(s);
  }

  /** std::pop_heap: move the front to the end and leave a heap before it. */
  method PopHeap<T>(v: seq<T>, less: (T, T) -> bool) returns (w: seq<T>)
    requires |v| > 0 && IsHeap(v, less) && OrderOn(less, multiset(v))
    ensures |w| == |v| && multiset(w) == multiset(v) && w[|w| - 1] == v[0]
    ensures HeapFrom(w, less, |w| - 1, 0)
  {
    var last := |v| - 1;
    w := Swap(v, 0, last);
    if last > 0 {
      w := SiftDown(w, less, last, 0);
    }
  }

  /** std::make_heap, bottom up. */
  method MakeHeap<T>(v: seq<T>, less: (T, T) -> bool) returns (w: seq<T>)
    requires OrderOn(less, multiset(v))
    ensures |w| == |v| && multiset(w) == multiset(v) && IsHeap(w, less)
  {
    w := v;
    var k := |v| / 2;
    while k > 0
      invariant 0 <= k <= |v| / 2 && |w| == |v| && multiset(w) == multiset(v)
      invariant HeapFrom(w, less, |w|, k)
    {
      k := k - 1;
      w := SiftDown(w, less, |w|, k);
    }
  }
}
