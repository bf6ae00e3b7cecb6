/** The board invariant and the tally are kept by every cow-moving step, by every card and
    by the reaction phase. */
module BoardFacts {
  import opened Seqs
  import opened Grid
  import opened Chance
  import opened Cards
  import opened Herd
  import opened Rules
  import opened PushFacts

  /** The cows and the counters agree. */
  predicate SameHerd(s: State, r: State) {
    r.cows == s.cows && r.cowsScored == s.cowsScored && r.cowsLost == s.cowsLost &&
    r.cowsRemaining == s.cowsRemaining
  }

  /** A step that leaves the cows and the counters alone keeps everything. */
  lemma KeepsSameHerd(s: State, r: State)
    requires SameHerd(s, r)
    ensures Keeps(s, r)
  {
  }

  /** A push one step along a unit vector keeps the tally and the invariants. */
  lemma PushByKeeps(s: State, cow: Cow, v: Vec)
    requires IsUnit(v)
    ensures Keeps(s, PushBy(s, cow, v))
  {
    assert Vec(cow.x + v.dx - cow.x, cow.y + v.dy - cow.y) == v;
    PushKeeps(s, cow, cow.x + v.dx, cow.y + v.dy);
  }

  /** The same, from a state that differs from `s1` only in the draw count. */
  lemma PushByKeepsFrom(s: State, s1: State, cow: Cow, v: Vec)
    requires IsUnit(v) && SameHerd(s, s1)
    ensures Keeps(s, PushBy(s1, cow, v))
  {
    PushByKeeps(s1, cow, v);
  }

  /** Applying the chosen step, if any, keeps the tally and the invariants. */
  lemma MoveByKeeps(s: State, cow: Cow, step: Option<Vec>, used: nat)
    requires step.Some? ==> IsUnit(step.value)
    ensures Keeps(s, MoveBy(s, cow, step, used))
  {
    var s1 := s.(drawn := s.drawn + used);
    match step {
      case Some(v) => PushByKeepsFrom(s, s1, cow, v);
      case None => KeepsSameHerd(s, s1);
    }
  }

  /** moveCowAwayFromDog keeps the tally and the invariants. */
  lemma MoveAwayKeeps(s: State, cow: Cow, rnd: nat -> Unit)
    ensures Keeps(s, MoveAway(s, cow, rnd))
  {
    MoveByKeeps(s, cow, EscapeStep(s, cow, Shuffled(rnd, s.drawn)), EscapeDraws(s, cow));
  }

  /** Moving each cow of a snapshot away keeps the tally and the invariants. */
  lemma {:induction false} PushEachKeeps(s: State, snapshot: seq<Cow>, rnd: nat -> Unit)
    ensures Keeps(s, PushEach(s, snapshot, rnd))
    decreases |snapshot|
  {
    if snapshot == [] {
      KeepsSameHerd(s, s);
    } else {
      var front := snapshot[..|snapshot| - 1];
      var s1 := PushEach(s, front, rnd);
      PushEachKeeps(s, front, rnd);
      MoveAwayKeeps(s1, snapshot[|snapshot| - 1], rnd);
      KeepsTrans(s, s1, PushEach(s, snapshot, rnd));
    }
  }

  /** Extending the snapshot by one cow moves that one cow away last. */
  lemma PushEachExtends(s: State, snapshot: seq<Cow>, i: nat, rnd: nat -> Unit)
    requires i < |snapshot|
    ensures PushEach(s, snapshot[..i + 1], rnd) == MoveAway(PushEach(s, snapshot[..i], rnd), snapshot[i], rnd)
  {
    assert snapshot[..i + 1][..i] == snapshot[..i];
  }

  /** moveCowRandomly keeps the tally and the invariants. */
  lemma RandomMoveKeeps(s: State, cow: Cow, rnd: nat -> Unit)
    ensures Keeps(s, RandomMove(s, cow, rnd))
  {
    MoveByKeeps(s, cow, WalkStep(s, cow, rnd), WalkDraws(s, cow, rnd));
  }

  /** The reaction loop keeps the tally and the invariants. */
  lemma {:induction false} ReactFromKeeps(s: State, i: nat, rnd: nat -> Unit)
    ensures Keeps(s, ReactFrom(s, i, rnd))
    decreases |s.cows| - i
  {
    if i >= |s.cows| {
      KeepsSameHerd(s, s);
    } else {
      var s1 := RandomMove(s, s.cows[i], rnd);
      RandomMoveKeeps(s, s.cows[i], rnd);
      ReactFromKeeps(s1, i + 1, rnd);
      KeepsTrans(s, s1, ReactFrom(s1, i + 1, rnd));
    }
  }

  /** handleCowReactions keeps the tally and the cow invariant and leaves the remaining
      counter equal to the number of cows, whatever it was before. */
  lemma ReactKeeps(s: State, rnd: nat -> Unit)
    ensures Keeps(s, React(s, rnd))
    ensures BoardOK(s) ==> BoardOK(React(s, rnd))
  {
    var s1 := ReactFrom(s, 0, rnd);
    ReactFromKeeps(s, 0, rnd);
    var r := React(s, rnd);
    assert r.cows == s1.cows;
    assert Keeps(s1, r);
    KeepsTrans(s, s1, r);
  }

  /** executeBark keeps the tally and the invariants. */
  lemma BarkKeeps(s: State, rnd: nat -> Unit)
    ensures Keeps(s, ExecuteBark(s, rnd))
  {
    PushEachKeeps(s, BarkTargets(s.cows, s.dog), rnd);
  }

  /** placeFence keeps the tally and the cow invariant and adds only fences on the board
      that were not there. */
  lemma PlaceFenceKeeps(s: State, rnd: nat -> Unit)
    ensures Keeps(s, PlaceFence(s, rnd))
    ensures FencesOK(s.fences) ==> FencesOK(PlaceFence(s, rnd).fences)
  {
    var c := FrontCell(s.dog);
    if InGrid(c.x, c.y) && !HasFenceAt(s.fences, c.x, c.y) && !IsPen(c.x, c.y) {
      var s1 := s.(fences := s.fences + [c]);
      KeepsSameHerd(s, s1);
      match CowAt(s1.cows, c.x, c.y) {
        case Some(k) =>
          MoveAwayKeeps(s1, s1.cows[k], rnd);
          KeepsTrans(s, s1, MoveAway(s1, s1.cows[k], rnd));
        case None =>
      }
    } else {
      KeepsSameHerd(s, s);
    }
  }

  /** moveCowAwayFromDog from a state that differs from `s1` only in the dog and the draw
      count. */
  lemma MoveAwayKeepsFrom(s: State, s1: State, cow: Cow, rnd: nat -> Unit)
    requires SameHerd(s, s1)
    ensures Keeps(s, MoveAway(s1, cow, rnd))
  {
    MoveAwayKeeps(s1, cow, rnd);
  }

  /** The dog's arrival on a cell keeps the tally and the invariants. */
  lemma ArriveKeeps(s: State, v: Vec, rnd: nat -> Unit)
    ensures Keeps(s, Arrive(s, v, rnd))
  {
    var s1 := s.(dog := Dog(s.dog.x + v.dx, s.dog.y + v.dy, s.dog.direction));
    var found := CowAt(s1.cows, s1.dog.x, s1.dog.y);
    if found.Some? {
      assert Arrive(s, v, rnd) == MoveAway(s1, s1.cows[found.value], rnd);
      MoveAwayKeepsFrom(s, s1, s1.cows[found.value], rnd);
    } else {
      assert Arrive(s, v, rnd) == s1;
      KeepsSameHerd(s, s1);
    }
  }

  /** One step of moveDogForward keeps the tally and the invariants. */
  lemma StepKeeps(s: State, v: Vec, rnd: nat -> Unit)
    ensures Keeps(s, Step(s, v, rnd))
  {
    var s2 := Arrive(s, v, rnd);
    ArriveKeeps(s, v, rnd);
    PushEachKeeps(s2, AdjacentCows(s2.cows, s2.dog), rnd);
    KeepsTrans(s, s2, PushEach(s2, AdjacentCows(s2.cows, s2.dog), rnd));
  }

  lemma ForwardSteps(s: State, v: Vec, m: nat, rnd: nat -> Unit)
    requires InGrid(s.dog.x + v.dx, s.dog.y + v.dy)
    ensures Forward(s, v, m + 1, rnd) == Forward(Step(s, v, rnd), v, m, rnd)
  {
  }

  /** No steps, or a first step off the grid, leave the state as it is. */
  lemma ForwardStops(s: State, v: Vec, n: nat, rnd: nat -> Unit)
    requires n == 0 || !InGrid(s.dog.x + v.dx, s.dog.y + v.dy)
    ensures Forward(s, v, n, rnd) == s
  {
  }

  lemma KeptAfterStep(s: State, v: Vec, rnd: nat -> Unit, r: State)
    requires Keeps(Step(s, v, rnd), r)
    ensures Keeps(s, r)
  {
    StepKeeps(s, v, rnd);
    KeepsTrans(s, Step(s, v, rnd), r);
  }

  lemma ForwardStopsKeeps(s: State, v: Vec, n: nat, rnd: nat -> Unit)
    requires n == 0 || !InGrid(s.dog.x + v.dx, s.dog.y + v.dy)
    ensures Keeps(s, Forward(s, v, n, rnd))
  {
    assert Forward(s, v, n, rnd) == s;
    KeepsRefl(s);
  }

  /** moveDogForward keeps the tally and the invariants. */
  lemma {:induction false} ForwardKeeps(s: State, v: Vec, n: nat, rnd: nat -> Unit)
    ensures Keeps(s, Forward(s, v, n, rnd))
    decreases n, 2
  {
    if n == 0 || !InGrid(s.dog.x + v.dx, s.dog.y + v.dy) {
      ForwardStopsKeeps(s, v, n, rnd);
    } else {
      ForwardGoesKeeps(s, v, n, rnd);
    }
  }

  lemma {:induction false} ForwardGoesKeeps(s: State, v: Vec, n: nat, rnd: nat -> Unit)
    requires n > 0 && InGrid(s.dog.x + v.dx, s.dog.y + v.dy)
    ensures Keeps(s, Forward(s, v, n, rnd))
    decreases n, 1
  {
    var m: nat := n - 1;
    assert Forward(s, v, n, rnd) == Forward(s, v, m + 1, rnd);
    ForwardStepKeeps(s, v, m, rnd);
  }

  lemma {:induction false} ForwardStepKeeps(s: State, v: Vec, m: nat, rnd: nat -> Unit)
    requires InGrid(s.dog.x + v.dx, s.dog.y + v.dy)
    ensures Keeps(s, Forward(s, v, m + 1, rnd))
    decreases m + 1, 0
  {
    var next := Step(s, v, rnd);
    ForwardKeeps(next, v, m, rnd);
    KeptAfterStep(s, v, rnd, Forward(next, v, m, rnd));
    ForwardSteps(s, v, m, rnd);
  }

  lemma ForwardBoard(s: State, v: Vec, n: nat, rnd: nat -> Unit)
    ensures Keeps(s, Forward(s, v, n, rnd))
    ensures BoardOK(s) ==> BoardOK(Forward(s, v, n, rnd))
  {
    ForwardKeeps(s, v, n, rnd);
  }

  lemma ExecuteMove1(s: State, rnd: nat -> Unit)
    ensures Keeps(s, Execute(s, Move1, rnd))
    ensures BoardOK(s) ==> BoardOK(Execute(s, Move1, rnd))
  {
    assert Execute(s, Move1, rnd) == Forward(s, DirVec(s.dog.direction), 1, rnd);
    ForwardBoard(s, DirVec(s.dog.direction), 1, rnd);
  }

  lemma ExecuteMove2(s: State, rnd: nat -> Unit)
    ensures Keeps(s, Execute(s, Move2, rnd))
    ensures BoardOK(s) ==> BoardOK(Execute(s, Move2, rnd))
  {
    assert Execute(s, Move2, rnd) == Forward(s, DirVec(s.dog.direction), 2, rnd);
    ForwardBoard(s, DirVec(s.dog.direction), 2, rnd);
  }

  lemma ExecuteMove3(s: State, rnd: nat -> Unit)
    ensures Keeps(s, Execute(s, Move3, rnd))
    ensures BoardOK(s) ==> BoardOK(Execute(s, Move3, rnd))
  {
    assert Execute(s, Move3, rnd) == Forward(s, DirVec(s.dog.direction), 3, rnd);
    ForwardBoard(s, DirVec(s.dog.direction), 3, rnd);
  }

  lemma ExecuteFence(s: State, rnd: nat -> Unit)
    ensures Keeps(s, Execute(s, Fence, rnd))
    ensures BoardOK(s) ==> BoardOK(Execute(s, Fence, rnd))
  {
    assert Execute(s, Fence, rnd) == PlaceFence(s, rnd);
    PlaceFenceKeeps(s, rnd);
  }

  lemma ExecuteBarkKeeps(s: State, rnd: nat -> Unit)
    ensures Keeps(s, Execute(s, Bark, rnd))
    ensures BoardOK(s) ==> BoardOK(Execute(s, Bark, rnd))
  {
    assert Execute(s, Bark, rnd) == ExecuteBark(s, rnd);
    BarkKeeps(s, rnd);
  }

  lemma ExecuteTurn(s: State, a: Action, rnd: nat -> Unit)
    requires a == TurnLeft || a == TurnRight || a == TurnAround
    ensures Keeps(s, Execute(s, a, rnd))
    ensures BoardOK(s) ==> BoardOK(Execute(s, a, rnd))
  {
    KeepsSameHerd(s, Execute(s, a, rnd));
  }

  /** executeCard keeps the tally and the board invariant. */
  lemma ExecuteKeeps(s: State, a: Action, rnd: nat -> Unit)
    ensures Keeps(s, Execute(s, a, rnd))
    ensures BoardOK(s) ==> BoardOK(Execute(s, a, rnd))
  {
    match a {
      case Move1 => ExecuteMove1(s, rnd);
      case Move2 => ExecuteMove2(s, rnd);
      case Move3 => ExecuteMove3(s, rnd);
      case Fence => ExecuteFence(s, rnd);
      case Bark => ExecuteBarkKeeps(s, rnd);
      case TurnLeft => ExecuteTurn(s, a, rnd);
      case TurnRight => ExecuteTurn(s, a, rnd);
      case TurnAround => ExecuteTurn(s, a, rnd);
    }
  }

  /** The card loop of playSequence keeps the tally and the board invariant. */
  lemma {:induction false} RunFromKeeps(s: State, i: nat, rnd: nat -> Unit)
    ensures Keeps(s, RunFrom(s, i, rnd))
    ensures BoardOK(s) ==> BoardOK(RunFrom(s, i, rnd))
    decreases |s.selectedSequence| - i
  {
    if i >= |s.selectedSequence| {
      KeepsSameHerd(s, s);
    } else {
      var s0 := s.(currentCardIndex := i);
      KeepsSameHerd(s, s0);
      var s1 := Execute(s0, s.selectedSequence[i].action, rnd);
      ExecuteKeeps(s0, s.selectedSequence[i].action, rnd);
      KeepsTrans(s, s0, s1);
      RunFromKeeps(s1, i + 1, rnd);
      KeepsTrans(s, s1, RunFrom(s1, i + 1, rnd));
    }
  }

  /** playSequence keeps the tally (scored + lost + on the board) and the board invariant:
      the dog stays in the grid, fences stay on the board and distinct, cows stay on the
      board with distinct ids, and the remaining counter equals the number of cows. */
  lemma PlayKeeps(s: State, rnd: nat -> Unit)
    ensures Keeps(s, Play(s, rnd))
    ensures BoardOK(s) ==> BoardOK(Play(s, rnd))
  {
    if |s.selectedSequence| == 0 || s.isPlaying {
      KeepsSameHerd(s, s);
    } else {
      var s0 := s.(isPlaying := true);
      KeepsSameHerd(s, s0);
      var s1 := RunFrom(s0, 0, rnd);
      RunFromKeeps(s0, 0, rnd);
      KeepsTrans(s, s0, s1);
      var s2 := React(s1, rnd);
      ReactKeeps(s1, rnd);
      KeepsTrans(s, s1, s2);
      KeepsSameHerd(s2, Play(s, rnd));
      KeepsTrans(s, s2, Play(s, rnd));
    }
  }
}
