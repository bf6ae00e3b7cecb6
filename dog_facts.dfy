/** Where the dog's own actions leave the dog, the fences and the cow they displace. */
module DogFacts {
  import opened Seqs
  import opened Grid
  import opened Chance
  import opened Cards
  import opened Herd
  import opened Rules
  import opened PushFacts
  import opened BoardFacts
  import opened MoveFacts

  /** The number of cells the grid still holds beyond (x, y) along the unit step `v`. */
  function Room(x: int, y: int, v: Vec): int {
    if v.dx == 1 then Width - 1 - x
    else if v.dx == -1 then x
    else if v.dy == 1 then Height - 1 - y
    else y
  }

  function Min(a: int, b: int): int {
    if a < b then a else b
  }

  /** `a` moved `k` cells along the unit direction `d` (one of -1, 0, 1). */
  function Along(a: int, d: int, k: int): int {
    if d == 1 then a + k else if d == -1 then a - k else a
  }

  /** Dog `e` stands `k` steps along `v` from dog `d`, facing the same way. */
  predicate DogAt(d: Dog, e: Dog, v: Vec, k: int) {
    e.x == Along(d.x, v.dx, k) && e.y == Along(d.y, v.dy, k) && e.direction == d.direction
  }

  /** moveDogForward(n) from a cell of the grid: the dog walks min(n, room) cells along its
      step, where room is what the grid holds ahead of it. Neither fences nor cows stop it;
      only the edge of the grid does. */
  lemma {:induction false} ForwardDog(s: State, v: Vec, n: nat, rnd: nat -> Unit)
    requires IsUnit(v) && InGrid(s.dog.x, s.dog.y)
    ensures DogAt(s.dog, Forward(s, v, n, rnd).dog, v, Min(n, Room(s.dog.x, s.dog.y, v)))
    decreases n, 2
  {
    if n == 0 || !InGrid(s.dog.x + v.dx, s.dog.y + v.dy) {
      ForwardDogStops(s, v, n, rnd);
    } else {
      ForwardDogGoes(s, v, n, rnd);
    }
  }

  lemma ForwardDogStops(s: State, v: Vec, n: nat, rnd: nat -> Unit)
    requires IsUnit(v) && InGrid(s.dog.x, s.dog.y)
    requires n == 0 || !InGrid(s.dog.x + v.dx, s.dog.y + v.dy)
    ensures DogAt(s.dog, Forward(s, v, n, rnd).dog, v, Min(n, Room(s.dog.x, s.dog.y, v)))
  {
    assert Forward(s, v, n, rnd) == s;
  }

  lemma {:induction false} ForwardDogGoes(s: State, v: Vec, n: nat, rnd: nat -> Unit)
    requires IsUnit(v) && n > 0 && InGrid(s.dog.x + v.dx, s.dog.y + v.dy)
    ensures DogAt(s.dog, Forward(s, v, n, rnd).dog, v, Min(n, Room(s.dog.x, s.dog.y, v)))
    decreases n, 1
  {
    var m: nat := n - 1;
    assert Forward(s, v, n, rnd) == Forward(s, v, m + 1, rnd);
    ForwardDogStep(s, v, m, rnd);
  }

  lemma {:induction false} ForwardDogStep(s: State, v: Vec, m: nat, rnd: nat -> Unit)
    requires IsUnit(v) && InGrid(s.dog.x + v.dx, s.dog.y + v.dy)
    ensures DogAt(s.dog, Forward(s, v, m + 1, rnd).dog, v, Min(m + 1, Room(s.dog.x, s.dog.y, v)))
    decreases m + 1, 0
  {
    var next := Step(s, v, rnd);
    ForwardDog(next, v, m, rnd);
    DogAfterStep(s, v, m, rnd, Forward(next, v, m, rnd));
    ForwardSteps(s, v, m, rnd);
  }

  lemma DogAfterStep(s: State, v: Vec, m: nat, rnd: nat -> Unit, r: State)
    requires IsUnit(v) && InGrid(s.dog.x + v.dx, s.dog.y + v.dy)
    requires var e := Step(s, v, rnd).dog; DogAt(e, r.dog, v, Min(m, Room(e.x, e.y, v)))
    ensures DogAt(s.dog, r.dog, v, Min(m + 1, Room(s.dog.x, s.dog.y, v)))
  {
    DogAtChain(s.dog, Step(s, v, rnd).dog, r.dog, v, m);
  }

  /** One step along `v` followed by min(m, room) more is min(m + 1, room) steps. */
  lemma DogAtChain(d: Dog, e: Dog, f: Dog, v: Vec, m: nat)
    requires IsUnit(v) && e == Dog(d.x + v.dx, d.y + v.dy, d.direction) && InGrid(e.x, e.y)
    requires DogAt(e, f, v, Min(m, Room(e.x, e.y, v)))
    ensures DogAt(d, f, v, Min(m + 1, Room(d.x, d.y, v)))
  {
  }

  /** Turning left then right, or right then left, gives back the same state; so does
      turning around twice. */
  lemma TurnsUndo(s: State, rnd: nat -> Unit)
    ensures Execute(Execute(s, TurnLeft, rnd), TurnRight, rnd) == s
    ensures Execute(Execute(s, TurnRight, rnd), TurnLeft, rnd) == s
    ensures Execute(Execute(s, TurnAround, rnd), TurnAround, rnd) == s
  {
    TurnsCancel(s.dog.direction);
  }

  /** placeFence adds exactly the cell in front of the dog when that cell may take a fence,
      and touches nothing else unless a cow stands there; otherwise it changes nothing. */
  lemma PlaceFenceEffect(s: State, rnd: nat -> Unit)
    ensures var c, r := FrontCell(s.dog), PlaceFence(s, rnd);
      (Fenceable(s.fences, c) ==> r.fences == s.fences + [c]) &&
      (Fenceable(s.fences, c) && CowAt(s.cows, c.x, c.y).None? ==> SameHerd(s, r) && r.drawn == s.drawn) &&
      (!Fenceable(s.fences, c) ==> r == s)
  {
    var c := FrontCell(s.dog);
    if Fenceable(s.fences, c) {
      var s1 := s.(fences := s.fences + [c]);
      match CowAt(s1.cows, c.x, c.y)
      case Some(k) =>
        assert PlaceFence(s, rnd) == MoveAway(s1, s1.cows[k], rnd);
      case None =>
    }
  }

  /** A cow standing where the fence goes is next to the dog, so it is pushed one cell
      further along the dog's heading: it ends up there, or off the board and counted,
      unless a fence stood there already. */
  lemma PlaceFenceEvicts(s: State, rnd: nat -> Unit, k: nat)
    requires CowsOK(s.cows)
    requires Fenceable(s.fences, FrontCell(s.dog))
    requires CowAt(s.cows, FrontCell(s.dog).x, FrontCell(s.dog).y) == Some(k)
    requires var c, v := FrontCell(s.dog), DirVec(s.dog.direction); !HasFenceAt(s.fences, c.x + v.dx, c.y + v.dy)
    ensures var c, v := FrontCell(s.dog), DirVec(s.dog.direction);
      LandedAt(PlaceFence(s, rnd).cows, s.cows[k], c.x + v.dx, c.y + v.dy)
  {
    var c, v := FrontCell(s.dog), DirVec(s.dog.direction);
    var s1 := s.(fences := s.fences + [c]);
    var cow := s.cows[k];
    FrontCowBeside(s.dog, cow);
    FenceAheadFree(s.fences, c, Cell(cow.x + v.dx, cow.y + v.dy));
    EvictedLands(s1, cow, rnd, v);
    PlaceFenceMoves(s, rnd, k, s1);
  }

  /** The new fence does not block a cell that was free of fences and is not its own. */
  lemma FenceAheadFree(fences: seq<Cell>, c: Cell, next: Cell)
    requires !HasFenceAt(fences, next.x, next.y) && next != c
    ensures !HasFenceAt(fences + [c], next.x, next.y)
  {
  }

  /** A cow on the cell in front of the dog is orthogonally next to it, one heading step
      away, and one more step takes it off that cell. */
  lemma FrontCowBeside(dog: Dog, cow: Cow)
    requires cow.x == FrontCell(dog).x && cow.y == FrontCell(dog).y
    ensures IsOrthogonallyAdjacentToDog(dog, cow.x, cow.y)
    ensures DirVec(dog.direction) == Vec(cow.x - dog.x, cow.y - dog.y)
    ensures Cell(cow.x + DirVec(dog.direction).dx, cow.y + DirVec(dog.direction).dy) != FrontCell(dog)
  {
  }

  lemma PlaceFenceMoves(s: State, rnd: nat -> Unit, k: nat, s1: State)
    requires Fenceable(s.fences, FrontCell(s.dog))
    requires s1 == s.(fences := s.fences + [FrontCell(s.dog)])
    requires CowAt(s.cows, FrontCell(s.dog).x, FrontCell(s.dog).y) == Some(k)
    ensures PlaceFence(s, rnd).cows == MoveAway(s1, s.cows[k], rnd).cows
  {
  }

  /** A cow next to the dog, moved away from it, lands one cell further out unless that
      cell is fenced. */
  lemma EvictedLands(s: State, cow: Cow, rnd: nat -> Unit, v: Vec)
    requires IsOrthogonallyAdjacentToDog(s.dog, cow.x, cow.y) && v == Vec(cow.x - s.dog.x, cow.y - s.dog.y)
    requires CowsOK(s.cows) && cow in s.cows
    requires !HasFenceAt(s.fences, cow.x + v.dx, cow.y + v.dy)
    ensures LandedAt(MoveAway(s, cow, rnd).cows, cow, cow.x + v.dx, cow.y + v.dy)
  {
    EscapeBeside(s, cow, Shuffled(rnd, s.drawn));
    MoveAwayLands(s, cow, rnd, v);
  }
}
