/** The entities of the game and the whole game state, with the queries the simulation
    asks of it and the invariants the operations keep. */
module Herd {
  import opened Seqs
  import opened Grid
  import opened Cards

  datatype Color = Red | Green | Yellow

  datatype Dog = Dog(x: int, y: int, direction: Heading)

  /** A cow record. Records are replaced, never changed, so a copy taken earlier keeps the
      coordinates the cow had then. */
  datatype Cow = Cow(id: nat, x: int, y: int, color: Color)

  /** Every field of the game object that the simulation reads or writes, and `drawn`, the
      number of values taken from `Math.random()` so far. */
  datatype State = State(
    dog: Dog,
    cows: seq<Cow>,
    fences: seq<Cell>,
    cowsRemaining: nat,
    cowsScored: nat,
    cowsLost: nat,
    hand: seq<HandCard>,
    selectedSequence: seq<Entry>,
    isPlaying: bool,
    currentCardIndex: int,
    drawn: nat)

  const CowCount: nat := 25

  /** The four fence cells of the funnel in front of the pen. */
  const InitialFences: seq<Cell> := [Cell(6, 9), Cell(7, 9), Cell(9, 6), Cell(9, 7)]

  predicate HasFenceAt(fences: seq<Cell>, x: int, y: int) {
    Cell(x, y) in fences
  }

  predicate HasCowAt(cows: seq<Cow>, x: int, y: int) {
    exists i :: 0 <= i < |cows| && cows[i].x == x && cows[i].y == y
  }

  /** A cow may go anywhere, off the grid and into the pen included, except onto the dog
      or onto a fence. */
  predicate IsValidCowMove(dog: Dog, fences: seq<Cell>, x: int, y: int) {
    !(x == dog.x && y == dog.y) && !HasFenceAt(fences, x, y)
  }

  predicate IsOrthogonallyAdjacentToDog(dog: Dog, x: int, y: int) {
    var dx, dy := Abs(x - dog.x), Abs(y - dog.y);
    (dx == 1 && dy == 0) || (dx == 0 && dy == 1)
  }

  /** Within reach of a bark: Chebyshev distance at most 3. */
  predicate InBarkRange(dog: Dog, c: Cow) {
    Chebyshev(c.x, c.y, dog.x, dog.y) <= 3
  }

  /** The first cow standing on (x, y). */
  function CowAt(cows: seq<Cow>, x: int, y: int): (r: Option<nat>)
    ensures r.Some? ==> r.value < |cows| && cows[r.value].x == x && cows[r.value].y == y &&
                        forall j :: 0 <= j < r.value ==> !(cows[j].x == x && cows[j].y == y)
    ensures r.None? ==> forall j :: 0 <= j < |cows| ==> !(cows[j].x == x && cows[j].y == y)
  {
    var p := (c: Cow) => c.x == x && c.y == y;
    FirstIndexSpec(cows, p);
    FirstIndex(cows, p)
  }

  /** The first cow other than the one with `id` standing on (x, y). */
  function OtherCowAt(cows: seq<Cow>, x: int, y: int, id: nat): (r: Option<nat>)
    ensures r.Some? ==> r.value < |cows| && cows[r.value].x == x && cows[r.value].y == y &&
                        cows[r.value].id != id &&
                        forall j :: 0 <= j < r.value ==> !(cows[j].x == x && cows[j].y == y && cows[j].id != id)
    ensures r.None? ==> forall j :: 0 <= j < |cows| ==> !(cows[j].x == x && cows[j].y == y && cows[j].id != id)
  {
    var p := (c: Cow) => c.x == x && c.y == y && c.id != id;
    FirstIndexSpec(cows, p);
    FirstIndex(cows, p)
  }

  /** The index of the cow with `id`. */
  function IndexOfId(cows: seq<Cow>, id: nat): (r: Option<nat>)
    ensures r.Some? ==> r.value < |cows| && cows[r.value].id == id &&
                        forall j :: 0 <= j < r.value ==> cows[j].id != id
    ensures r.None? ==> forall j :: 0 <= j < |cows| ==> cows[j].id != id
  {
    var p := (c: Cow) => c.id == id;
    FirstIndexSpec(cows, p);
    FirstIndex(cows, p)
  }

  /** The cows a bark reaches, in storage order. */
  function BarkTargets(cows: seq<Cow>, dog: Dog): seq<Cow> {
    Filter(cows, (c: Cow) => InBarkRange(dog, c))
  }

  /** The cows orthogonally next to the dog, in storage order. */
  function AdjacentCows(cows: seq<Cow>, dog: Dog): seq<Cow> {
    Filter(cows, (c: Cow) => IsOrthogonallyAdjacentToDog(dog, c.x, c.y))
  }

  /** Some cow of the list has this id. */
  predicate HasId(cows: seq<Cow>, id: nat) {
    exists i :: 0 <= i < |cows| && cows[i].id == id
  }

  /** Live cows stand inside the grid and outside the pen, and no id occurs twice. */
  predicate CowsOK(cows: seq<Cow>) {
    (forall i :: 0 <= i < |cows| ==> OnBoard(cows[i].x, cows[i].y)) &&
    (forall i, j :: 0 <= i < j < |cows| ==> cows[i].id != cows[j].id)
  }

  /** Fences stand inside the grid and outside the pen, and no cell is fenced twice. */
  predicate FencesOK(fences: seq<Cell>) {
    (forall i :: 0 <= i < |fences| ==> OnBoard(fences[i].x, fences[i].y)) &&
    (forall i, j :: 0 <= i < j < |fences| ==> fences[i] != fences[j])
  }

  /** Scored, lost and live cows together: the number of cows ever spawned. */
  function Tally(s: State): nat {
    s.cowsScored + s.cowsLost + |s.cows|
  }

  /** The remaining-cows counter agrees with the cow list. */
  predicate Counted(s: State) {
    s.cowsRemaining == |s.cows|
  }

  /** The invariant of the board between commands and between the steps of a sequence. */
  predicate BoardOK(s: State) {
    InGrid(s.dog.x, s.dog.y) && FencesOK(s.fences) && CowsOK(s.cows) && Counted(s)
  }

  /** The invariant of the hand and the queued sequence. */
  predicate CardsOK(s: State) {
    KnownHand(s.hand) && KnownEntries(s.selectedSequence) && Balanced(s.hand, s.selectedSequence)
  }


  /** What every cow-moving step keeps: the tally, the counter agreement and the cow
      invariant; scores and losses only grow. */
  predicate Keeps(s: State, r: State) {
    Tally(r) == Tally(s) &&
    (Counted(s) ==> Counted(r)) &&
    (CowsOK(s.cows) ==> CowsOK(r.cows)) &&
    r.cowsScored >= s.cowsScored && r.cowsLost >= s.cowsLost
  }
}
