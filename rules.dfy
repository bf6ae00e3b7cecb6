/** What each operation of the simulation does, as a function from the state before it to
    the state after it. `rnd` is the stream of values `Math.random()` returns: the n-th call
    returns `rnd(n)`, and `State.drawn` says how many have been used. */
module Rules {
  import opened Seqs
  import opened Grid
  import opened Chance
  import opened Cards
  import opened Herd

  /** The hand, the sequence and the play flags are untouched. */
  predicate SameCards(s: State, r: State) {
    r.hand == s.hand && r.selectedSequence == s.selectedSequence &&
    r.isPlaying == s.isPlaying && r.currentCardIndex == s.currentCardIndex
  }

  /** Only the cows, the counters and the draw count may differ, and no cow is added. */
  predicate CowsOnly(s: State, r: State) {
    SameCards(s, r) && r.dog == s.dog && r.fences == s.fences &&
    |r.cows| <= |s.cows| && r.drawn >= s.drawn
  }

  /** `splice(i, 1)`. */
  function RemoveAt(cows: seq<Cow>, i: nat): (r: seq<Cow>)
    requires i < |cows|
    ensures |r| == |cows| - 1
  {
    cows[..i] + cows[i + 1..]
  }

  // ---------------------------------------------------------------------------------------
  // Scoring and the chained push

  /** checkCowScoringAndLoss applied to the record at index `i`: the pen is checked before
      the grid bounds. */
  function Scoring(s: State, i: nat): (r: State)
    requires i < |s.cows|
    ensures CowsOnly(s, r) && r.drawn == s.drawn
  {
    var c := s.cows[i];
    if IsPen(c.x, c.y) then
      s.(cowsScored := s.cowsScored + 1, cows := RemoveAt(s.cows, i), cowsRemaining := |s.cows| - 1)
    else if !InGrid(c.x, c.y) then
      s.(cowsLost := s.cowsLost + 1, cows := RemoveAt(s.cows, i), cowsRemaining := |s.cows| - 1)
    else
      s
  }

  /** The cow stands on the ray that starts at (tx, ty) and runs along the unit vector `v`. */
  predicate Ahead(c: Cow, tx: int, ty: int, v: Vec) {
    if v.dx > 0 then c.y == ty && c.x >= tx
    else if v.dx < 0 then c.y == ty && c.x <= tx
    else if v.dy > 0 then c.x == tx && c.y >= ty
    else c.x == tx && c.y <= ty
  }

  /** How many cows stand on that ray: a chain of pushes along `v` starting at (tx, ty) can
      displace at most these. */
  function CowsAhead(cows: seq<Cow>, tx: int, ty: int, v: Vec): (n: nat)
    ensures n <= |cows|
  {
    if cows == [] then 0
    else (if Ahead(cows[0], tx, ty, v) then 1 else 0) + CowsAhead(cows[1..], tx, ty, v)
  }

  lemma {:induction false} CowsAheadShrinks(cows: seq<Cow>, tx: int, ty: int, v: Vec)
    requires IsUnit(v)
    ensures CowsAhead(cows, tx + v.dx, ty + v.dy, v) <= CowsAhead(cows, tx, ty, v)
  {
    if cows != [] {
      CowsAheadShrinks(cows[1..], tx, ty, v);
    }
  }

  /** Moving the start of the ray one cell along `v` past a cow standing on the start
      leaves strictly fewer cows on the ray. */
  lemma {:induction false} CowsAheadDrops(cows: seq<Cow>, k: nat, tx: int, ty: int, v: Vec)
    requires IsUnit(v) && k < |cows| && cows[k].x == tx && cows[k].y == ty
    ensures CowsAhead(cows, tx + v.dx, ty + v.dy, v) < CowsAhead(cows, tx, ty, v)
  {
    if k == 0 {
      CowsAheadShrinks(cows[1..], tx, ty, v);
    } else {
      CowsAheadDrops(cows[1..], k - 1, tx, ty, v);
    }
  }

  /** The cows on the ray of the push of `cow` onto (tx, ty). */
  function PushSpan(cows: seq<Cow>, cow: Cow, tx: int, ty: int): nat {
    CowsAhead(cows, tx, ty, Vec(tx - cow.x, ty - cow.y))
  }

  /** The nested push of the cow found on the target has a shorter ray. */
  lemma PushSpanDrops(cows: seq<Cow>, cow: Cow, tx: int, ty: int, k: nat, nx: int, ny: int)
    requires IsUnit(Vec(tx - cow.x, ty - cow.y)) && k < |cows| && cows[k].x == tx && cows[k].y == ty
    requires nx == tx + (tx - cow.x) && ny == ty + (ty - cow.y)
    ensures PushSpan(cows, cows[k], nx, ny) < PushSpan(cows, cow, tx, ty)
  {
    var v := Vec(tx - cow.x, ty - cow.y);
    assert Vec(nx - cows[k].x, ny - cows[k].y) == v;
    CowsAheadDrops(cows, k, tx, ty, v);
  }

  /** The target is the dog's cell or a fenced cell, where no push may go. */
  predicate Refused(s: State, tx: int, ty: int) {
    (tx == s.dog.x && ty == s.dog.y) || HasFenceAt(s.fences, tx, ty)
  }

  /** The last part of pushCowToPosition: the cow with `cow`'s id, if it is still in the
      herd, is put on (tx, ty) and scored there. */
  function Land(s: State, cow: Cow, tx: int, ty: int): (r: State)
    ensures CowsOnly(s, r) && r.drawn == s.drawn
  {
    match IndexOfId(s.cows, cow.id)
    case Some(i) => Scoring(s.(cows := s.cows[i := Cow(cow.id, tx, ty, cow.color)]), i)
    case None => s
  }

  /** pushCowToPosition(cow, tx, ty), where (tx, ty) is one step from the coordinates the
      record `cow` holds (which may be stale). Refused onto the dog or a fence. Otherwise a
      different cow on the target is first pushed on along the same vector, then the cow
      with `cow`'s id, if it is still there, is put on the target and scored. The recursion
      ends because every nested push starts one cell further along a fixed vector, so
      fewer cows stand ahead of it. */
  function Push(s: State, cow: Cow, tx: int, ty: int): (r: State)
    requires IsUnit(Vec(tx - cow.x, ty - cow.y))
    ensures CowsOnly(s, r) && r.drawn == s.drawn
    decreases CowsAhead(s.cows, tx, ty, Vec(tx - cow.x, ty - cow.y))
  {
    if Refused(s, tx, ty) then
      s
    else
      var v := Vec(tx - cow.x, ty - cow.y);
      var s1 := (
        match OtherCowAt(s.cows, tx, ty, cow.id)
        case Some(k) =>
          CowsAheadDrops(s.cows, k, tx, ty, v);
          Push(s, s.cows[k], tx + v.dx, ty + v.dy)
        case None => s);
      Land(s1, cow, tx, ty)
  }

  /** pushCowToPosition(cow, cow.x + v.dx, cow.y + v.dy): the push one step along `v`. */
  function PushBy(s: State, cow: Cow, v: Vec): (r: State)
    requires IsUnit(v)
    ensures CowsOnly(s, r) && r.drawn == s.drawn
  {
    assert Vec(cow.x + v.dx - cow.x, cow.y + v.dy - cow.y) == v;
    Push(s, cow, cow.x + v.dx, cow.y + v.dy)
  }

  /** The chosen step, if there is one, as a push; without one the cow stays where it is. */
  function TakeStep(s: State, cow: Cow, step: Option<Vec>): (r: State)
    requires step.Some? ==> IsUnit(step.value)
    ensures CowsOnly(s, r) && r.drawn == s.drawn
  {
    match step
    case Some(v) => PushBy(s, cow, v)
    case None => s
  }

  /** After `used` draws, the chosen step. */
  function MoveBy(s: State, cow: Cow, step: Option<Vec>, used: nat): (r: State)
    requires step.Some? ==> IsUnit(step.value)
    ensures CowsOnly(s, r) && r.drawn == s.drawn + used
  {
    TakeStep(s.(drawn := s.drawn + used), cow, step)
  }

  // ---------------------------------------------------------------------------------------
  // Moving a cow away from the dog

  /** The step along heading `h` from (x, y) is a valid cow move. */
  predicate StepValid(dog: Dog, fences: seq<Cell>, x: int, y: int, h: Heading) {
    IsValidCowMove(dog, fences, x + DirVec(h).dx, y + DirVec(h).dy)
  }

  /** The first heading of `order` whose step from (x, y) is a valid cow move. */
  function FirstValid(dog: Dog, fences: seq<Cell>, x: int, y: int, order: seq<Heading>): (r: Option<Heading>)
    ensures r.Some? ==> StepValid(dog, fences, x, y, r.value)
    ensures r.Some? ==> exists i :: 0 <= i < |order| && order[i] == r.value &&
                          forall j :: 0 <= j < i ==> !StepValid(dog, fences, x, y, order[j])
    ensures r.None? <==> forall i :: 0 <= i < |order| ==> !StepValid(dog, fences, x, y, order[i])
  {
    var p := (h: Heading) => StepValid(dog, fences, x, y, h);
    FirstIndexSpec(order, p);
    match FirstIndex(order, p)
    case Some(i) => Some(order[i])
    case None => None
  }

  /** The fixed fallback order: up, right, down, left. */
  const Clockwise: seq<Heading> := [0, 1, 2, 3]

  /** The step moveCowAwayFromDog tries for the record `cow`, given the shuffled order used
      when the cow stands on the dog's cell. */
  function EscapeStep(s: State, cow: Cow, shuffled: seq<Heading>): (r: Option<Vec>)
    ensures r.Some? ==> IsUnit(r.value)
  {
    if cow.x == s.dog.x && cow.y == s.dog.y then
      Toward(FirstValid(s.dog, s.fences, cow.x, cow.y, shuffled))
    else
      NearStep(s, cow)
  }

  /** The step along an optional heading. */
  function Toward(h: Option<Heading>): (r: Option<Vec>)
    ensures r.Some? <==> h.Some?
    ensures r.Some? ==> r.value == DirVec(h.value) && IsUnit(r.value)
  {
    match h
    case Some(k) => Some(DirVec(k))
    case None => None
  }

  /** The step for a record off the dog's cell: straight on when it is orthogonally next to
      the dog, the first valid heading of the fixed order when it is one row or column off,
      and none farther away. */
  function NearStep(s: State, cow: Cow): (r: Option<Vec>)
    requires !(cow.x == s.dog.x && cow.y == s.dog.y)
    ensures r.Some? ==> IsUnit(r.value)
  {
    var dx, dy := cow.x - s.dog.x, cow.y - s.dog.y;
    if Abs(dx) == 1 && dy == 0 then
      Some(Vec(if dx > 0 then 1 else -1, 0))
    else if Abs(dy) == 1 && dx == 0 then
      Some(Vec(0, if dy > 0 then 1 else -1))
    else if Abs(dx) == 1 || Abs(dy) == 1 then
      Toward(FirstValid(s.dog, s.fences, cow.x, cow.y, Clockwise))
    else
      None
  }

  /** Draws moveCowAwayFromDog takes: three for the shuffle when the cow is on the dog. */
  function EscapeDraws(s: State, cow: Cow): nat {
    if cow.x == s.dog.x && cow.y == s.dog.y then 3 else 0
  }

  /** moveCowAwayFromDog(cow). */
  function MoveAway(s: State, cow: Cow, rnd: nat -> Unit): (r: State)
    ensures CowsOnly(s, r)
  {
    MoveBy(s, cow, EscapeStep(s, cow, Shuffled(rnd, s.drawn)), EscapeDraws(s, cow))
  }

  /** moveCowAwayFromDog applied to each record of a snapshot in turn. */
  function PushEach(s: State, snapshot: seq<Cow>, rnd: nat -> Unit): (r: State)
    ensures CowsOnly(s, r)
    decreases |snapshot|
  {
    if snapshot == [] then s
    else MoveAway(PushEach(s, snapshot[..|snapshot| - 1], rnd), snapshot[|snapshot| - 1], rnd)
  }

  // ---------------------------------------------------------------------------------------
  // The dog's actions

  /** executeBark: every cow within Chebyshev distance 3, as listed before any of them moves. */
  function ExecuteBark(s: State, rnd: nat -> Unit): (r: State)
    ensures CowsOnly(s, r)
  {
    PushEach(s, BarkTargets(s.cows, s.dog), rnd)
  }

  /** The cell in front of the dog. */
  function FrontCell(dog: Dog): Cell {
    Cell(dog.x + DirVec(dog.direction).dx, dog.y + DirVec(dog.direction).dy)
  }

  /** A fence may go on a cell in the grid that is not fenced and not in the pen. */
  predicate Fenceable(fences: seq<Cell>, c: Cell) {
    InGrid(c.x, c.y) && !HasFenceAt(fences, c.x, c.y) && !IsPen(c.x, c.y)
  }

  /** placeFence: fence the cell in front of the dog if it may take a fence, then move the
      first cow standing there away from the dog. */
  function PlaceFence(s: State, rnd: nat -> Unit): (r: State)
    ensures SameCards(s, r) && r.dog == s.dog && |r.cows| <= |s.cows| && r.drawn >= s.drawn
  {
    var c := FrontCell(s.dog);
    if Fenceable(s.fences, c) then
      var s1 := s.(fences := s.fences + [c]);
      match CowAt(s1.cows, c.x, c.y)
      case Some(k) => MoveAway(s1, s1.cows[k], rnd)
      case None => s1
    else
      s
  }

  /** The dog moves onto the next cell along `v`, and the first cow standing there is moved
      away from it. */
  function Arrive(s: State, v: Vec, rnd: nat -> Unit): (r: State)
    ensures SameCards(s, r) && r.fences == s.fences && |r.cows| <= |s.cows| && r.drawn >= s.drawn
    ensures r.dog == Dog(s.dog.x + v.dx, s.dog.y + v.dy, s.dog.direction)
  {
    var s1 := s.(dog := Dog(s.dog.x + v.dx, s.dog.y + v.dy, s.dog.direction));
    match CowAt(s1.cows, s1.dog.x, s1.dog.y)
    case Some(k) => MoveAway(s1, s1.cows[k], rnd)
    case None => s1
  }

  /** One step of moveDogForward onto the next cell along `v`: the first cow on the dog's
      new cell is moved away, then every cow orthogonally next to the dog, as listed after
      that. */
  function Step(s: State, v: Vec, rnd: nat -> Unit): (r: State)
    ensures SameCards(s, r) && r.fences == s.fences && |r.cows| <= |s.cows| && r.drawn >= s.drawn
    ensures r.dog == Dog(s.dog.x + v.dx, s.dog.y + v.dy, s.dog.direction)
  {
    var s2 := Arrive(s, v, rnd);
    PushEach(s2, AdjacentCows(s2.cows, s2.dog), rnd)
  }

  /** moveDogForward: up to `n` steps along `v`, stopping at the first step that would leave
      the grid. */
  function Forward(s: State, v: Vec, n: nat, rnd: nat -> Unit): (r: State)
    ensures SameCards(s, r) && r.fences == s.fences && |r.cows| <= |s.cows| && r.drawn >= s.drawn
    ensures r.dog.direction == s.dog.direction
    ensures InGrid(s.dog.x, s.dog.y) ==> InGrid(r.dog.x, r.dog.y)
    decreases n
  {
    if n == 0 then s
    else if !InGrid(s.dog.x + v.dx, s.dog.y + v.dy) then s
    else
      var next := Step(s, v, rnd);
      Forward(next, v, n - 1, rnd)
  }

  /** executeCard. */
  function Execute(s: State, a: Action, rnd: nat -> Unit): (r: State)
    ensures SameCards(s, r) && |r.cows| <= |s.cows| && r.drawn >= s.drawn
  {
    match a
    case Move1 => Forward(s, DirVec(s.dog.direction), 1, rnd)
    case Move2 => Forward(s, DirVec(s.dog.direction), 2, rnd)
    case Move3 => Forward(s, DirVec(s.dog.direction), 3, rnd)
    case Fence => PlaceFence(s, rnd)
    case Bark => ExecuteBark(s, rnd)
    case TurnLeft => s.(dog := s.dog.(direction := Turn(s.dog.direction, 3)))
    case TurnRight => s.(dog := s.dog.(direction := Turn(s.dog.direction, 1)))
    case TurnAround => s.(dog := s.dog.(direction := Turn(s.dog.direction, 2)))
  }

  // ---------------------------------------------------------------------------------------
  // The reaction phase

  /** The directions moveCowRandomly lists, in its order: down, right, up, left. */
  const WalkOrder: seq<Vec> := [Vec(0, -1), Vec(1, 0), Vec(0, 1), Vec(-1, 0)]

  /** A step the random walk may take: a valid cow move that does not bring the cow closer
      to the dog (Manhattan distance). */
  predicate WalkAllowed(dog: Dog, fences: seq<Cell>, cow: Cow, v: Vec) {
    IsValidCowMove(dog, fences, cow.x + v.dx, cow.y + v.dy) &&
    Manhattan(dog.x, dog.y, cow.x + v.dx, cow.y + v.dy) >= Manhattan(dog.x, dog.y, cow.x, cow.y)
  }

  /** The allowed steps, in the order of `WalkOrder`. */
  function WalkMoves(dog: Dog, fences: seq<Cell>, cow: Cow): (r: seq<Vec>)
    ensures forall v :: v in r <==> v in WalkOrder && WalkAllowed(dog, fences, cow, v)
  {
    var p := (v: Vec) => WalkAllowed(dog, fences, cow, v);
    FilterSpec(WalkOrder, p);
    Filter(WalkOrder, p)
  }

  /** The step moveCowRandomly takes, if any: when some step is allowed and the draw
      `rnd(s.drawn)` is below 0.7, the allowed step chosen by the next draw. */
  function WalkStep(s: State, cow: Cow, rnd: nat -> Unit): (r: Option<Vec>)
    ensures r.Some? ==> r.value in WalkMoves(s.dog, s.fences, cow) && IsUnit(r.value)
  {
    var moves := WalkMoves(s.dog, s.fences, cow);
    if |moves| == 0 || !(rnd(s.drawn) < 0.7) then None
    else
      var v := moves[Scale(rnd(s.drawn + 1), |moves|)];
      assert v in WalkOrder;
      Some(v)
  }

  /** Draws moveCowRandomly takes: none without an allowed step, one for the coin, and one
      more for the choice when the coin allows a move. */
  function WalkDraws(s: State, cow: Cow, rnd: nat -> Unit): nat {
    if |WalkMoves(s.dog, s.fences, cow)| == 0 then 0
    else if !(rnd(s.drawn) < 0.7) then 1
    else 2
  }

  /** moveCowRandomly(cow). */
  function RandomMove(s: State, cow: Cow, rnd: nat -> Unit): (r: State)
    ensures CowsOnly(s, r)
  {
    MoveBy(s, cow, WalkStep(s, cow, rnd), WalkDraws(s, cow, rnd))
  }

  /** The loop of handleCowReactions from index `i` on: it reads `cows[i]` afresh on every
      pass while removals shift the cows behind the removed one forward. */
  function ReactFrom(s: State, i: nat, rnd: nat -> Unit): (r: State)
    ensures CowsOnly(s, r)
    decreases |s.cows| - i
  {
    if i >= |s.cows| then s
    else ReactFrom(RandomMove(s, s.cows[i], rnd), i + 1, rnd)
  }

  /** handleCowReactions: the walk over all cows, then updateCounters. */
  function React(s: State, rnd: nat -> Unit): (r: State)
    ensures SameCards(s, r) && r.dog == s.dog && r.fences == s.fences && Counted(r)
  {
    var s1 := ReactFrom(s, 0, rnd);
    s1.(cowsRemaining := |s1.cows|)
  }

  // ---------------------------------------------------------------------------------------
  // Cards and the sequence

  /** A card drawn from the weighted pool with the draw `r`. */
  function PoolCard(r: Unit): (t: CardType)
    ensures t in CardTypes
  {
    PoolShape();
    PoolMembers(CardTypes);
    WeightedPool(CardTypes)[Scale(r, |WeightedPool(CardTypes)|)]
  }

  /** The hand dealNewHand deals from the draws `rnd(d)`, ..., `rnd(d + 6)`. */
  function DealtHand(rnd: nat -> Unit, d: nat): seq<HandCard> {
    seq(7, i requires 0 <= i < 7 => HandCard(PoolCard(rnd(d + i)), false))
  }

  /** dealNewHand. */
  function Deal(s: State, rnd: nat -> Unit): State {
    s.(hand := DealtHand(rnd, s.drawn), drawn := s.drawn + 7)
  }

  /** selectCard(i). */
  function SelectCard(s: State, i: nat): State
    requires i < |s.hand|
  {
    if s.hand[i].used || s.isPlaying then s
    else s.(selectedSequence := s.selectedSequence + [EntryOf(s.hand[i])],
            hand := s.hand[i := s.hand[i].(used := true)])
  }

  /** addPivotToSequence(p). */
  function AddPivot(s: State, p: Pivot): State {
    if s.isPlaying then s else s.(selectedSequence := s.selectedSequence + [PivotEntry(p)])
  }

  /** The first used hand card called `name` (the findIndex of removeFromSequence). */
  function FirstUsedNamed(hand: seq<HandCard>, name: string): (r: Option<nat>)
    ensures r.Some? ==> r.value < |hand| && hand[r.value].kind.name == name && hand[r.value].used &&
                        forall j :: 0 <= j < r.value ==> !(hand[j].kind.name == name && hand[j].used)
    ensures r.None? ==> forall j :: 0 <= j < |hand| ==> !(hand[j].kind.name == name && hand[j].used)
  {
    var p := (c: HandCard) => c.kind.name == name && c.used;
    FirstIndexSpec(hand, p);
    FirstIndex(hand, p)
  }

  /** removeFromSequence(i): the entry goes; for a deck card, the first used hand card of the
      same name becomes unused again. */
  function RemoveEntry(s: State, i: nat): State
    requires s.isPlaying || i < |s.selectedSequence|
  {
    if s.isPlaying then s
    else
      var e := s.selectedSequence[i];
      var rest := s.selectedSequence[..i] + s.selectedSequence[i + 1..];
      if IsDeckAction(e.action) then
        match FirstUsedNamed(s.hand, e.name)
        case Some(k) => s.(selectedSequence := rest, hand := s.hand[k := s.hand[k].(used := false)])
        case None => s.(selectedSequence := rest)
      else
        s.(selectedSequence := rest)
  }

  /** clearSequence. */
  function ClearSequence(s: State): State {
    if s.isPlaying then s
    else s.(hand := seq(|s.hand|, k requires 0 <= k < |s.hand| => s.hand[k].(used := false)),
            selectedSequence := [])
  }

  /** The loop of playSequence from entry `i` on. */
  function RunFrom(s: State, i: nat, rnd: nat -> Unit): (r: State)
    ensures r.hand == s.hand && r.selectedSequence == s.selectedSequence && r.isPlaying == s.isPlaying
    decreases |s.selectedSequence| - i
  {
    if i >= |s.selectedSequence| then s
    else RunFrom(Execute(s.(currentCardIndex := i), s.selectedSequence[i].action, rnd), i + 1, rnd)
  }

  /** playSequence: every queued entry in order, the reaction phase, then a fresh hand. */
  function Play(s: State, rnd: nat -> Unit): State {
    if |s.selectedSequence| == 0 || s.isPlaying then s
    else
      var s1 := RunFrom(s.(isPlaying := true), 0, rnd);
      var s2 := React(s1, rnd);
      Deal(s2.(isPlaying := false, currentCardIndex := -1, selectedSequence := []), rnd)
  }
}
