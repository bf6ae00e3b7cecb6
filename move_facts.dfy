/** Where moveCowAwayFromDog and moveCowRandomly send a cow. */
module MoveFacts {
  import opened Seqs
  import opened Grid
  import opened Chance
  import opened Herd
  import opened Rules
  import opened PushFacts
  import opened BoardFacts

  /** The heading at index `k` of `order` is the first valid one. */
  lemma FirstValidAt(dog: Dog, fences: seq<Cell>, x: int, y: int, order: seq<Heading>, k: nat)
    requires k < |order| && StepValid(dog, fences, x, y, order[k])
    requires forall j :: 0 <= j < k ==> !StepValid(dog, fences, x, y, order[j])
    ensures FirstValid(dog, fences, x, y, order) == Some(order[k])
  {
    var r := FirstValid(dog, fences, x, y, order);
    assert r.Some?;
    var i :| 0 <= i < |order| && order[i] == r.value &&
             forall j :: 0 <= j < i ==> !StepValid(dog, fences, x, y, order[j]);
    if i < k {
      assert StepValid(dog, fences, x, y, order[i]);
    }
  }

  /** A cow on the dog's cell: it steps in the first direction of the shuffled order whose
      cell is a valid cow move, and stays only when all four neighbouring cells are fenced. */
  lemma EscapeOnDog(s: State, cow: Cow, rnd: nat -> Unit)
    requires cow.x == s.dog.x && cow.y == s.dog.y
    ensures var r := EscapeStep(s, cow, Shuffled(rnd, s.drawn));
      (r.Some? ==> IsUnit(r.value) && IsValidCowMove(s.dog, s.fences, cow.x + r.value.dx, cow.y + r.value.dy)) &&
      (r.None? <==> forall h: Heading :: HasFenceAt(s.fences, cow.x + DirVec(h).dx, cow.y + DirVec(h).dy))
  {
    ShuffledIsPermutation(rnd, s.drawn);
    EscapeInOrder(s, cow, Shuffled(rnd, s.drawn));
  }

  /** The same for any order that holds every heading. */
  lemma EscapeInOrder(s: State, cow: Cow, order: seq<Heading>)
    requires cow.x == s.dog.x && cow.y == s.dog.y
    requires forall h: Heading :: h in order
    ensures var r := EscapeStep(s, cow, order);
      (r.Some? ==> IsUnit(r.value) && IsValidCowMove(s.dog, s.fences, cow.x + r.value.dx, cow.y + r.value.dy)) &&
      (r.None? <==> forall h: Heading :: HasFenceAt(s.fences, cow.x + DirVec(h).dx, cow.y + DirVec(h).dy))
  {
    var f := FirstValid(s.dog, s.fences, cow.x, cow.y, order);
    if f.None? {
      forall h: Heading ensures HasFenceAt(s.fences, cow.x + DirVec(h).dx, cow.y + DirVec(h).dy) {
        assert h in order;
        var i :| 0 <= i < |order| && order[i] == h;
        assert !StepValid(s.dog, s.fences, cow.x, cow.y, order[i]);
        assert DirVec(h).dx != 0 || DirVec(h).dy != 0;
      }
    } else {
      assert StepValid(s.dog, s.fences, cow.x, cow.y, f.value);
    }
  }

  /** A cow right next to the dog (left, right, above or below): it is pushed one more cell
      along the same axis, away from the dog, to a cell two steps from the dog. */
  lemma EscapeBeside(s: State, cow: Cow, order: seq<Heading>)
    requires IsOrthogonallyAdjacentToDog(s.dog, cow.x, cow.y)
    ensures EscapeStep(s, cow, order) == Some(Vec(cow.x - s.dog.x, cow.y - s.dog.y))
    ensures Manhattan(s.dog.x, s.dog.y, cow.x + (cow.x - s.dog.x), cow.y + (cow.y - s.dog.y)) == 2
  {
  }

  /** Any other cow one row or one column off the dog (a diagonal neighbour, say): it steps
      in the first of up, right, down, left whose cell is a valid cow move, if any. */
  lemma EscapeFallback(s: State, cow: Cow, order: seq<Heading>)
    requires !(cow.x == s.dog.x && cow.y == s.dog.y) && !IsOrthogonallyAdjacentToDog(s.dog, cow.x, cow.y)
    requires Abs(cow.x - s.dog.x) == 1 || Abs(cow.y - s.dog.y) == 1
    ensures var r := EscapeStep(s, cow, order);
      (r.None? <==> forall h :: 0 <= h < 4 ==> !StepValid(s.dog, s.fences, cow.x, cow.y, h)) &&
      (r.Some? ==> exists h :: 0 <= h < 4 && r.value == DirVec(h) && StepValid(s.dog, s.fences, cow.x, cow.y, h) &&
                              forall g :: 0 <= g < h ==> !StepValid(s.dog, s.fences, cow.x, cow.y, g))
  {
    FirstClockwise(s.dog, s.fences, cow.x, cow.y);
  }

  /** The first valid heading in the fixed order is the least valid heading. */
  lemma FirstClockwise(dog: Dog, fences: seq<Cell>, x: int, y: int)
    ensures var f := FirstValid(dog, fences, x, y, Clockwise);
      (f.None? <==> forall h :: 0 <= h < 4 ==> !StepValid(dog, fences, x, y, h)) &&
      (f.Some? ==> StepValid(dog, fences, x, y, f.value) &&
                   forall g :: 0 <= g < f.value ==> !StepValid(dog, fences, x, y, g))
  {
    var f := FirstValid(dog, fences, x, y, Clockwise);
    if f.None? {
      forall h | 0 <= h < 4 ensures !StepValid(dog, fences, x, y, h) {
        assert Clockwise[h] == h;
      }
    } else {
      var i :| 0 <= i < |Clockwise| && Clockwise[i] == f.value &&
               forall j :: 0 <= j < i ==> !StepValid(dog, fences, x, y, Clockwise[j]);
      forall g | 0 <= g < i ensures !StepValid(dog, fences, x, y, g) {
        assert Clockwise[g] == g;
      }
    }
  }

  /** Every other cow is left where it is. */
  lemma EscapeFar(s: State, cow: Cow, order: seq<Heading>)
    requires Abs(cow.x - s.dog.x) != 1 && Abs(cow.y - s.dog.y) != 1
    requires !(cow.x == s.dog.x && cow.y == s.dog.y)
    ensures EscapeStep(s, cow, order) == None
  {
  }

  /** moveCowRandomly as its two phases: the step with the draws it takes, then the push
      from the state after the draws. */
  lemma RandomMovePhases(s: State, cow: Cow, rnd: nat -> Unit, step: Option<Vec>, mid: State, r: State)
    requires step == WalkStep(s, cow, rnd) && mid == s.(drawn := s.drawn + WalkDraws(s, cow, rnd))
    requires r == TakeStep(mid, cow, step)
    ensures r == RandomMove(s, cow, rnd)
  {
    MoveByPhases(s, cow, step, WalkDraws(s, cow, rnd), mid, r);
    RandomMoveIsMoveBy(s, cow, rnd, r);
  }

  /** The same for moveCowAwayFromDog. */
  lemma MoveAwayPhases(s: State, cow: Cow, rnd: nat -> Unit, step: Option<Vec>, mid: State, r: State)
    requires step == EscapeStep(s, cow, Shuffled(rnd, s.drawn))
    requires mid == s.(drawn := s.drawn + EscapeDraws(s, cow))
    requires r == TakeStep(mid, cow, step)
    ensures r == MoveAway(s, cow, rnd)
  {
    MoveByPhases(s, cow, step, EscapeDraws(s, cow), mid, r);
    MoveAwayIsMoveBy(s, cow, rnd, r);
  }

  /** A move by an optional step: the draws, then the push. */
  lemma MoveByPhases(s: State, cow: Cow, step: Option<Vec>, used: nat, mid: State, r: State)
    requires step.Some? ==> IsUnit(step.value)
    requires mid == s.(drawn := s.drawn + used) && r == TakeStep(mid, cow, step)
    ensures r == MoveBy(s, cow, step, used)
  {
  }

  lemma MoveAwayIsMoveBy(s: State, cow: Cow, rnd: nat -> Unit, r: State)
    requires r == MoveBy(s, cow, EscapeStep(s, cow, Shuffled(rnd, s.drawn)), EscapeDraws(s, cow))
    ensures r == MoveAway(s, cow, rnd)
  {
  }

  lemma RandomMoveIsMoveBy(s: State, cow: Cow, rnd: nat -> Unit, r: State)
    requires r == MoveBy(s, cow, WalkStep(s, cow, rnd), WalkDraws(s, cow, rnd))
    ensures r == RandomMove(s, cow, rnd)
  {
  }

  /** With no step, moveCowAwayFromDog changes nothing but the draw count. */
  lemma MoveAwayStays(s: State, cow: Cow, rnd: nat -> Unit)
    requires EscapeStep(s, cow, Shuffled(rnd, s.drawn)).None?
    ensures MoveAway(s, cow, rnd).cows == s.cows && SameHerd(s, MoveAway(s, cow, rnd))
  {
  }

  /** A step into a cell that takes pushes, applied to a cow that is in the herd, puts the
      cow there (or removes it off the board, counting it). */
  lemma MoveByLands(s: State, cow: Cow, v: Vec, used: nat)
    requires IsUnit(v) && CowsOK(s.cows) && cow in s.cows
    requires !Refused(s, cow.x + v.dx, cow.y + v.dy)
    ensures LandedAt(MoveBy(s, cow, Some(v), used).cows, cow, cow.x + v.dx, cow.y + v.dy)
  {
    PushByLands(s.(drawn := s.drawn + used), cow, v);
  }

  /** The same for the push itself. */
  lemma PushByLands(s: State, cow: Cow, v: Vec)
    requires IsUnit(v) && CowsOK(s.cows) && cow in s.cows
    requires !Refused(s, cow.x + v.dx, cow.y + v.dy)
    ensures LandedAt(PushBy(s, cow, v).cows, cow, cow.x + v.dx, cow.y + v.dy)
  {
    var tx, ty := cow.x + v.dx, cow.y + v.dy;
    assert Vec(tx - cow.x, ty - cow.y) == v;
    PushLive(s, cow, tx, ty);
  }

  /** moveCowAwayFromDog on a current record: a cow on the dog's cell that has an unfenced
      neighbour ends up there (or off the board). */
  lemma MoveAwayLands(s: State, cow: Cow, rnd: nat -> Unit, v: Vec)
    requires CowsOK(s.cows) && cow in s.cows
    requires EscapeStep(s, cow, Shuffled(rnd, s.drawn)) == Some(v)
    requires !Refused(s, cow.x + v.dx, cow.y + v.dy)
    ensures LandedAt(MoveAway(s, cow, rnd).cows, cow, cow.x + v.dx, cow.y + v.dy)
  {
    MoveByLands(s, cow, v, EscapeDraws(s, cow));
  }

  // ---------------------------------------------------------------------------------------
  // The random walk

  /** moveCowRandomly: the chosen step is one of the four and allowed; there is none exactly
      when no step is allowed or the coin (the draw at `s.drawn`) is not below 0.7. */
  lemma WalkChoice(s: State, cow: Cow, rnd: nat -> Unit)
    ensures var r := WalkStep(s, cow, rnd);
      (r.Some? ==> r.value in WalkOrder && IsUnit(r.value) && WalkAllowed(s.dog, s.fences, cow, r.value)) &&
      (r.None? <==> (forall v :: v in WalkOrder ==> !WalkAllowed(s.dog, s.fences, cow, v)) || !(rnd(s.drawn) < 0.7))
  {
    var moves := WalkMoves(s.dog, s.fences, cow);
    if |moves| != 0 {
      assert moves[0] in moves;
    }
  }

  /** Without a step, moveCowRandomly changes nothing but the draw count. */
  lemma RandomMoveStays(s: State, cow: Cow, rnd: nat -> Unit)
    requires WalkStep(s, cow, rnd).None?
    ensures SameHerd(s, RandomMove(s, cow, rnd))
  {
  }

  /** With an allowed step, the cow (if its record is current) ends up on the new cell, or
      off the board and counted. */
  lemma RandomMoveLands(s: State, cow: Cow, rnd: nat -> Unit, v: Vec)
    requires CowsOK(s.cows) && cow in s.cows
    requires WalkStep(s, cow, rnd) == Some(v)
    ensures LandedAt(RandomMove(s, cow, rnd).cows, cow, cow.x + v.dx, cow.y + v.dy)
  {
    WalkChoice(s, cow, rnd);
    MoveByLands(s, cow, v, WalkDraws(s, cow, rnd));
  }
}
