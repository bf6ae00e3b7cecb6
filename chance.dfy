/** `Math.random()` and the uses the game makes of it. A run of the game reads its random
    numbers from a stream `rnd: nat -> Unit`; the game state counts how many it has read. */
module Chance {
  import opened Grid

  /** A value `Math.random()` may return. */
  type Unit = r: real | 0.0 <= r < 1.0

  /** `Math.floor(r * n)`: an index below `n`, written as the count of the whole numbers
      1, ..., n - 1 that `r * n` reaches (ScaleIsFloor shows the two agree). */
  function Scale(r: Unit, n: nat): (k: nat)
    requires n > 0
    ensures k < n
  {
    Reached(Times(r, n), n - 1)
  }

  /** `r * n` as a repeated sum. */
  function Times(r: real, n: nat): real {
    if n == 0 then 0.0 else Times(r, n - 1) + r
  }

  lemma {:induction false} TimesIsProduct(r: real, n: nat)
    ensures Times(r, n) == r * n as real
  {
    if n > 0 {
      TimesIsProduct(r, n - 1);
    }
  }

  /** For `0 <= r < 1` the sum lies in `[0, n)`. */
  lemma {:induction false} TimesBelow(r: Unit, n: nat)
    requires n > 0
    ensures 0.0 <= Times(r, n) < n as real
  {
    if n > 1 {
      TimesBelow(r, n - 1);
    }
  }

  /** How many of the whole numbers 1, ..., m are at most `x`. */
  function Reached(x: real, m: nat): (k: nat)
    ensures k <= m
  {
    if m == 0 then 0 else Reached(x, m - 1) + (if m as real <= x then 1 else 0)
  }

  /** For `x >= 0` the count is the floor of `x`, capped at `m`. */
  lemma {:induction false} ReachedFloor(x: real, m: nat)
    requires 0.0 <= x
    ensures Reached(x, m) == if x.Floor < m then x.Floor else m
  {
    if m > 0 {
      ReachedFloor(x, m - 1);
    }
  }

  /** The index is `Math.floor(r * n)`. */
  lemma ScaleIsFloor(r: Unit, n: nat)
    requires n > 0
    ensures Scale(r, n) == (r * n as real).Floor
  {
    var x := r * n as real;
    TimesIsProduct(r, n);
    TimesBelow(r, n);
    assert x.Floor as real <= x;
    ReachedFloor(x, n - 1);
  }

  /** The destructuring swap `[a[i], a[j]] = [a[j], a[i]]`. */
  function Swap(s: seq<Heading>, i: nat, j: nat): (t: seq<Heading>)
    requires i < |s| && j < |s|
    ensures |t| == |s|
  {
    s[i := s[j]][j := s[i]]
  }

  /** A swap permutes. */
  lemma SwapPermutes(s: seq<Heading>, i: nat, j: nat)
    requires i < |s| && j < |s|
    ensures multiset(Swap(s, i, j)) == multiset(s)
  {
  }

  /** The Fisher-Yates loop of moveCowAwayFromDog from index `i` down to 1, the draw for
      index `i` being `rnd(d)`. */
  function ShuffleFrom(order: seq<Heading>, i: nat, rnd: nat -> Unit, d: nat): (r: seq<Heading>)
    requires i < |order|
    ensures |r| == |order|
    decreases i
  {
    if i == 0 then order
    else ShuffleFrom(Swap(order, i, Scale(rnd(d), i + 1)), i - 1, rnd, d + 1)
  }

  /** The shuffle permutes, whatever the draws. */
  lemma {:induction false} ShufflePermutes(order: seq<Heading>, i: nat, rnd: nat -> Unit, d: nat)
    requires i < |order|
    ensures multiset(ShuffleFrom(order, i, rnd, d)) == multiset(order)
    decreases i
  {
    if i > 0 {
      var j := Scale(rnd(d), i + 1);
      SwapPermutes(order, i, j);
      ShufflePermutes(Swap(order, i, j), i - 1, rnd, d + 1);
    }
  }

  /** The shuffled order of the four headings, drawing `rnd(d)`, `rnd(d + 1)`, `rnd(d + 2)`. */
  function Shuffled(rnd: nat -> Unit, d: nat): seq<Heading> {
    ShuffleFrom([0, 1, 2, 3], 3, rnd, d)
  }

  /** Whatever the draws, the shuffle is a permutation of the four headings. */
  lemma ShuffledIsPermutation(rnd: nat -> Unit, d: nat)
    ensures |Shuffled(rnd, d)| == 4
    ensures forall h: Heading :: h in Shuffled(rnd, d)
  {
    var start: seq<Heading> := [0, 1, 2, 3];
    ShufflePermutes(start, 3, rnd, d);
    AllHeadings(Shuffled(rnd, d), start);
  }

  lemma AllHeadings(s: seq<Heading>, start: seq<Heading>)
    requires start == [0, 1, 2, 3] && multiset(s) == multiset(start)
    ensures forall h: Heading :: h in s
  {
    forall h: Heading ensures h in s {
      assert start[h] == h;
      assert h in multiset(start);
    }
  }
}
