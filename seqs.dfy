/** Optional values and the two array searches the game uses (`find`/`findIndex` and `filter`). */
module Seqs {
  datatype Option<T> = None | Some(value: T)

  /** The first index whose element satisfies `p` (Array.prototype.findIndex; `find` returns
      the element at that index). FirstIndexSpec states what it finds. */
  function FirstIndex<T>(s: seq<T>, p: T -> bool): Option<nat> {
    FirstIndexFrom(s, p, 0)
  }

  /** The search from index `i` on. */
  function FirstIndexFrom<T>(s: seq<T>, p: T -> bool, i: nat): Option<nat>
    decreases |s| - i
  {
    if i >= |s| then None
    else if p(s[i]) then Some(i)
    else FirstIndexFrom(s, p, i + 1)
  }

  /** The search finds the first index satisfying `p`, and none when there is no such index. */
  lemma FirstIndexSpec<T>(s: seq<T>, p: T -> bool)
    ensures var r := FirstIndex(s, p);
      (r.Some? ==> r.value < |s| && p(s[r.value]) && forall j :: 0 <= j < r.value ==> !p(s[j])) &&
      (r.None? ==> forall j :: 0 <= j < |s| ==> !p(s[j]))
  {
    FirstIndexFromSpec(s, p, 0);
  }

  lemma {:induction false} FirstIndexFromSpec<T>(s: seq<T>, p: T -> bool, i: nat)
    ensures var r := FirstIndexFrom(s, p, i);
      (r.Some? ==> i <= r.value < |s| && p(s[r.value]) && forall j :: i <= j < r.value ==> !p(s[j])) &&
      (r.None? ==> forall j :: i <= j < |s| ==> !p(s[j]))
    decreases |s| - i
  {
    if i < |s| && !p(s[i]) {
      FirstIndexFromSpec(s, p, i + 1);
    }
  }

  /** The elements of `s` that satisfy `p`, in their order (Array.prototype.filter).
      FilterSpec states what it keeps. */
  function Filter<T>(s: seq<T>, p: T -> bool): seq<T> {
    if s == [] then []
    else Filter(s[..|s| - 1], p) + (if p(s[|s| - 1]) then [s[|s| - 1]] else [])
  }

  /** The filtered list is no longer than the list and holds exactly its elements that
      satisfy `p`. */
  lemma {:induction false} FilterSpec<T>(s: seq<T>, p: T -> bool)
    ensures |Filter(s, p)| <= |s|
    ensures forall x :: x in Filter(s, p) <==> x in s && p(x)
  {
    if s != [] {
      var init, last := s[..|s| - 1], s[|s| - 1];
      assert s == init + [last];
      FilterSpec(init, p);
    }
  }

  /** Filtering a concatenation filters each part and keeps them in order. */
  lemma {:induction false} FilterAppend<T>(a: seq<T>, b: seq<T>, p: T -> bool)
    ensures Filter(a + b, p) == Filter(a, p) + Filter(b, p)
    decreases |b|
  {
    if b == [] {
      assert a + b == a;
    } else {
      var init, last := b[..|b| - 1], b[|b| - 1];
      var ab := a + b;
      assert ab[..|ab| - 1] == a + init && ab[|ab| - 1] == last;
      var tail := if p(last) then [last] else [];
      assert Filter(ab, p) == Filter(a + init, p) + tail;
      assert Filter(b, p) == Filter(init, p) + tail;
      FilterAppend(a, init, p);
    }
  }

  /** A single element is kept exactly when it passes; with FilterAppend this fixes the
      filtered list element by element, in order. */
  lemma FilterSingle<T>(x: T, p: T -> bool)
    ensures Filter([x], p) == if p(x) then [x] else []
  {
    assert [x][..0] == [];
  }

}
