/** The game object itself. Its fields are those of the object `gameData()` returns, and
    its methods update them in place as the view's methods do. Each method is proved to
    leave the object in the state the matching function of `Rules` gives, so everything
    proved about those functions holds of the object. */
module Simulation {
  import opened Seqs
  import opened Grid
  import opened Chance
  import opened Cards
  import opened Herd
  import opened Rules
  import opened PushFacts
  import opened BoardFacts
  import opened MoveFacts
  import opened CardFacts

  /** The `colors` table of initCows. */
  const Colors: seq<Color> := [Red, Green, Yellow]

  /** The cows initCows has placed so far: the i-th has id i and stands on its own cell 2 to
      7 cells in from the lower-left corner, off the dog's cell. */
  predicate Spawned(cows: seq<Cow>, dog: Dog) {
    (forall i :: 0 <= i < |cows| ==>
      cows[i].id == i && 2 <= cows[i].x < Width - 2 && 2 <= cows[i].y < Height - 2 &&
      !(cows[i].x == dog.x && cows[i].y == dog.y)) &&
    (forall i, j :: 0 <= i < j < |cows| ==> !(cows[i].x == cows[j].x && cows[i].y == cows[j].y))
  }

  /** Adding a cow with the next id on a free cell in the spawn square, off the dog, keeps
      the cows spawned. */
  lemma SpawnedGrow(cows: seq<Cow>, dog: Dog, c: Cow)
    requires Spawned(cows, dog) && c.id == |cows|
    requires 2 <= c.x < Width - 2 && 2 <= c.y < Height - 2 && !(c.x == dog.x && c.y == dog.y)
    requires !HasCowAt(cows, c.x, c.y)
    ensures Spawned(cows + [c], dog)
  {
    var r := cows + [c];
    forall i, j | 0 <= i < j < |r| ensures !(r[i].x == r[j].x && r[i].y == r[j].y) {
      if j == |cows| {
        assert r[i] == cows[i];
      }
    }
  }

  /** A freshly set up board, with the dog in the grid, meets the board invariant. */
  lemma SpawnedBoard(s: State)
    requires Spawned(s.cows, s.dog) && s.cowsRemaining == |s.cows|
    requires s.fences == InitialFences && InGrid(s.dog.x, s.dog.y)
    ensures BoardOK(s)
  {
    forall i, j | 0 <= i < j < |s.cows| ensures s.cows[i].id != s.cows[j].id {
      assert s.cows[i].id == i && s.cows[j].id == j;
    }
  }

  /** One pass of the shuffle loop. */
  lemma ShuffleStep(before: seq<Heading>, after: seq<Heading>, m: nat, rnd: nat -> Unit, d: nat)
    requires m + 1 < |before| && after == Swap(before, m + 1, Scale(rnd(d), m + 2))
    ensures ShuffleFrom(after, m, rnd, d + 1) == ShuffleFrom(before, m + 1, rnd, d)
  {
  }

  /** The Fisher-Yates shuffle of moveCowAwayFromDog, in place on the array of the four
      directions, with the draws `rnd(d)`, `rnd(d + 1)`, `rnd(d + 2)`. */
  method ShuffleDirections(rnd: nat -> Unit, d: nat) returns (order: seq<Heading>)
    ensures order == Shuffled(rnd, d)
  {
    var a := new Heading[4];
    a[0], a[1], a[2], a[3] := 0, 1, 2, 3;
    assert a[..] == [0, 1, 2, 3];
    ghost var goal := Shuffled(rnd, d);
    var i, k := 3, d;
    while i > 0
      invariant 0 <= i <= 3 && k == d + (3 - i)
      invariant ShuffleFrom(a[..], i, rnd, k) == goal
    {
      var j := Scale(rnd(k), i + 1);
      ghost var before := a[..];
      var m: nat := i - 1;
      a[i], a[j] := a[j], a[i];
      assert a[..] == Swap(before, i, j);
      ShuffleStep(before, a[..], m, rnd, k);
      k := k + 1;
      i := m;
    }
    order := a[..];
  }

  /** The pool of dealNewHand: each card type pushed `weight` times, in order. */
  method BuildPool() returns (pool: seq<CardType>)
    ensures pool == WeightedPool(CardTypes)
  {
    pool := [];
    var k := 0;
    while k < |CardTypes|
      invariant 0 <= k <= |CardTypes| && pool == WeightedPool(CardTypes[..k])
    {
      var t := CardTypes[k];
      var i := 0;
      while i < t.weight
        invariant 0 <= i <= t.weight && pool == WeightedPool(CardTypes[..k]) + Copies(t, i)
      {
        assert Copies(t, i + 1) == Copies(t, i) + [t];
        pool := pool + [t];
        i := i + 1;
      }
      assert CardTypes[..k + 1][..k] == CardTypes[..k];
      k := k + 1;
    }
    assert CardTypes[..|CardTypes|] == CardTypes;
  }

  /** The seven draws of dealNewHand from the pool, with the values `rnd(d)` onwards. */
  method DrawHand(pool: seq<CardType>, rnd: nat -> Unit, d: nat) returns (hand: seq<HandCard>)
    requires pool == WeightedPool(CardTypes)
    ensures hand == DealtHand(rnd, d)
  {
    ghost var dealt := DealtHand(rnd, d);
    hand := [];
    var n := 0;
    while n < 7
      invariant 0 <= n <= 7 && hand == dealt[..n]
    {
      DealtFromPool(rnd, d, n);
      var card := pool[Scale(rnd(d + n), |pool|)];
      assert dealt[..n + 1] == dealt[..n] + [dealt[n]];
      hand := hand + [HandCard(card, false)];
      n := n + 1;
    }
    assert dealt[..7] == dealt;
  }

  class Game {
    var dog: Dog
    var cows: seq<Cow>
    var fences: seq<Cell>
    var cowsRemaining: nat
    var cowsScored: nat
    var cowsLost: nat
    var hand: seq<HandCard>
    var selectedSequence: seq<Entry>
    var isPlaying: bool
    var currentCardIndex: int
    /** How many values `random` has given so far. */
    var drawn: nat
    /** The values successive calls of `Math.random()` return. */
    const random: nat -> Unit

    /** The object's fields as a value. */
    function Model(): State
      reads this
    {
      State(dog, cows, fences, cowsRemaining, cowsScored, cowsLost, hand, selectedSequence,
            isPlaying, currentCardIndex, drawn)
    }

    /** The object as `gameData()` returns it, before initGame. */
    constructor (random: nat -> Unit)
      ensures Model() == State(Dog(1, 8, 2), [], [], CowCount, 0, 0, [], [], false, -1, 0)
      ensures this.random == random
      ensures CardsOK(Model())
    {
      dog := Dog(1, 8, 2);
      cows := [];
      fences := [];
      cowsRemaining := CowCount;
      cowsScored := 0;
      cowsLost := 0;
      hand := [];
      selectedSequence := [];
      isPlaying := false;
      currentCardIndex := -1;
      drawn := 0;
      this.random := random;
    }

    // -------------------------------------------------------------------------------------
    // Setting up

    /** initGame: the fences, the cows, then a hand. initCows gives up once a cow finds no
        free cell in `budget` tries; `ok` says whether all 25 cows were placed. */
    method InitGame(budget: nat) returns (ok: bool)
      modifies this
      ensures fences == InitialFences && Spawned(cows, dog) && (ok <==> |cows| == CowCount)
      ensures drawn >= old(drawn) + 7 && hand == DealtHand(random, drawn - 7)
      ensures dog == old(dog) && cowsRemaining == old(cowsRemaining) &&
              cowsScored == old(cowsScored) && cowsLost == old(cowsLost) &&
              selectedSequence == old(selectedSequence) && isPlaying == old(isPlaying) &&
              currentCardIndex == old(currentCardIndex)
      ensures ok && InGrid(dog.x, dog.y) && old(cowsRemaining) == CowCount ==>
              BoardOK(Model())
      ensures old(selectedSequence) == [] ==> CardsOK(Model())
    {
      InitFences();
      ok := InitCows(budget);
      ghost var dealt := Model();
      DealNewHand();
      DealFresh(dealt, random);
      if ok && InGrid(dog.x, dog.y) && cowsRemaining == CowCount {
        SpawnedBoard(Model());
      }
    }

    /** initFences: the four funnel fences and no others. */
    method InitFences()
      modifies this
      ensures Model() == old(Model()).(fences := InitialFences)
    {
      fences := InitialFences;
    }

    /** initCows: 25 cows, each on a free cell drawn until one is found, then a colour. */
    method InitCows(budget: nat) returns (ok: bool)
      modifies this
      ensures Spawned(cows, dog) && |cows| <= CowCount && (ok <==> |cows| == CowCount)
      ensures Model() == old(Model()).(cows := cows, drawn := drawn) && drawn >= old(drawn)
    {
      cows := [];
      var i := 0;
      while i < CowCount
        invariant 0 <= i <= CowCount && |cows| == i && Spawned(cows, dog)
        invariant Model() == old(Model()).(cows := cows, drawn := drawn) && drawn >= old(drawn)
      {
        var x, y, found := PickCell(budget);
        if !found {
          return false;
        }
        var color := Colors[Scale(random(drawn), |Colors|)];
        drawn := drawn + 1;
        SpawnedGrow(cows, dog, Cow(i, x, y, color));
        cows := cows + [Cow(i, x, y, color)];
        i := i + 1;
      }
      return true;
    }

    /** The do-while loop of initCows, cut off after `budget` tries: a cell 2 to 7 cells in
        from the lower-left corner that is not the dog's, not in the pen and free of cows. */
    method PickCell(budget: nat) returns (x: int, y: int, found: bool)
      modifies this
      ensures found ==> 2 <= x < Width - 2 && 2 <= y < Height - 2 &&
                        !(x == dog.x && y == dog.y) && !IsPen(x, y) && !HasCowAt(cows, x, y)
      ensures Model() == old(Model()).(drawn := drawn) && drawn >= old(drawn)
    {
      x, y, found := 0, 0, false;
      var tries := 0;
      while tries < budget && !found
        invariant found ==> 2 <= x < Width - 2 && 2 <= y < Height - 2 &&
                            !(x == dog.x && y == dog.y) && !IsPen(x, y) && !HasCowAt(cows, x, y)
        invariant Model() == old(Model()).(drawn := drawn) && drawn >= old(drawn)
        decreases budget - tries
      {
        x := Scale(random(drawn), Width - 4) + 2;
        y := Scale(random(drawn + 1), Height - 4) + 2;
        drawn := drawn + 2;
        found := !((x == dog.x && y == dog.y) || IsPen(x, y) || HasCowAt(cows, x, y));
        tries := tries + 1;
      }
    }

    /** dealNewHand: the weighted pool built type by type, then seven draws from it. */
    method DealNewHand()
      modifies this
      ensures Model() == Deal(old(Model()), random)
    {
      var pool := BuildPool();
      hand := DrawHand(pool, random, drawn);
      drawn := drawn + 7;
    }

    // -------------------------------------------------------------------------------------
    // Building the sequence

    /** selectCard(index); an index outside the hand throws in the view. */
    method SelectCard(index: nat)
      requires index < |hand|
      modifies this
      ensures Model() == Rules.SelectCard(old(Model()), index)
    {
      if hand[index].used || isPlaying {
        return;
      }
      selectedSequence := selectedSequence + [EntryOf(hand[index])];
      hand := hand[index := hand[index].(used := true)];
    }

    /** addPivotToSequence(action). */
    method AddPivotToSequence(p: Pivot)
      modifies this
      ensures Model() == AddPivot(old(Model()), p)
    {
      if isPlaying {
        return;
      }
      selectedSequence := selectedSequence + [PivotEntry(p)];
    }

    /** removeFromSequence(index); an index outside the sequence throws in the view unless
        a sequence is playing. */
    method RemoveFromSequence(index: nat)
      requires isPlaying || index < |selectedSequence|
      modifies this
      ensures Model() == RemoveEntry(old(Model()), index)
    {
      if isPlaying {
        return;
      }
      var removed := selectedSequence[index];
      selectedSequence := selectedSequence[..index] + selectedSequence[index + 1..];
      if IsDeckAction(removed.action) {
        var handIndex := FirstUsedNamed(hand, removed.name);
        if handIndex.Some? {
          hand := hand[handIndex.value := hand[handIndex.value].(used := false)];
        }
      }
    }

    /** clearSequence: every hand card unused again, the sequence empty. */
    method ClearSequence()
      modifies this
      ensures Model() == Rules.ClearSequence(old(Model()))
    {
      if isPlaying {
        return;
      }
      var k := 0;
      while k < |hand|
        invariant 0 <= k <= |hand| == |old(hand)|
        invariant forall j :: 0 <= j < k ==> hand[j] == old(hand)[j].(used := false)
        invariant forall j :: k <= j < |hand| ==> hand[j] == old(hand)[j]
        invariant Model() == old(Model()).(hand := hand)
      {
        hand := hand[k := hand[k].(used := false)];
        k := k + 1;
      }
      selectedSequence := [];
    }

    // -------------------------------------------------------------------------------------
    // Playing the sequence

    /** playSequence: each entry in turn, the reaction phase, then a fresh hand. */
    method PlaySequence()
      modifies this
      ensures Model() == Play(old(Model()), random)
    {
      if |selectedSequence| == 0 || isPlaying {
        return;
      }
      isPlaying := true;
      RunSequence();
      HandleCowReactions();
      isPlaying := false;
      currentCardIndex := -1;
      selectedSequence := [];
      DealNewHand();
    }

    /** The card loop of playSequence: each queued entry in order, with its index current. */
    method RunSequence()
      modifies this
      ensures Model() == RunFrom(old(Model()), 0, random)
    {
      ghost var start := Model();
      var i := 0;
      while i < |selectedSequence|
        invariant 0 <= i <= |selectedSequence| && selectedSequence == start.selectedSequence
        invariant RunFrom(Model(), i, random) == RunFrom(start, 0, random)
      {
        currentCardIndex := i;
        ExecuteCard(selectedSequence[i].action);
        i := i + 1;
      }
    }

    /** executeCard. */
    method ExecuteCard(a: Action)
      modifies this
      ensures Model() == Execute(old(Model()), a, random)
    {
      match a
      case Move1 => MoveDogForward(1);
      case Move2 => MoveDogForward(2);
      case Move3 => MoveDogForward(3);
      case Fence => PlaceFence();
      case Bark => ExecuteBark();
      case TurnLeft => dog := dog.(direction := Turn(dog.direction, 3));
      case TurnRight => dog := dog.(direction := Turn(dog.direction, 1));
      case TurnAround => dog := dog.(direction := Turn(dog.direction, 2));
    }

    /** placeFence. */
    method PlaceFence()
      modifies this
      ensures Model() == Rules.PlaceFence(old(Model()), random)
    {
      var c := FrontCell(dog);
      if Fenceable(fences, c) {
        fences := fences + [c];
        var found := CowAt(cows, c.x, c.y);
        if found.Some? {
          MoveCowAwayFromDog(cows[found.value]);
        }
      }
    }

    /** executeBark: the cows in reach, listed once, each moved away in turn. */
    method ExecuteBark()
      modifies this
      ensures Model() == Rules.ExecuteBark(old(Model()), random)
    {
      var affected := BarkTargets(cows, dog);
      MoveEachAway(affected);
    }

    /** The `for (const cow of ...)` loops over a list taken beforehand. */
    method MoveEachAway(snapshot: seq<Cow>)
      modifies this
      ensures Model() == PushEach(old(Model()), snapshot, random)
    {
      var i := 0;
      while i < |snapshot|
        invariant 0 <= i <= |snapshot|
        invariant Model() == PushEach(old(Model()), snapshot[..i], random)
      {
        PushEachExtends(old(Model()), snapshot, i, random);
        MoveCowAwayFromDog(snapshot[i]);
        i := i + 1;
      }
      assert snapshot[..|snapshot|] == snapshot;
    }

    /** moveDogForward(spaces): one step at a time, stopping at the edge of the grid. */
    method MoveDogForward(spaces: nat)
      modifies this
      ensures Model() == Forward(old(Model()), DirVec(old(dog).direction), spaces, random)
    {
      var v := DirVec(dog.direction);
      ghost var left: nat := spaces;
      var i := 0;
      while i < spaces
        invariant 0 <= i <= spaces && left == spaces - i
        invariant Forward(old(Model()), v, spaces, random) == Forward(Model(), v, left, random)
      {
        if !InGrid(dog.x + v.dx, dog.y + v.dy) {
          ForwardStops(Model(), v, left, random);
          return;
        }
        left := AdvanceDog(v, left);
        i := i + 1;
      }
      ForwardStops(Model(), v, left, random);
    }

    /** One pass of moveDogForward's loop when the next cell is in the grid: `left` steps
        from the old state lead where `rest = left - 1` steps lead from the new one. */
    method AdvanceDog(v: Vec, ghost left: nat) returns (ghost rest: nat)
      requires left > 0 && InGrid(dog.x + v.dx, dog.y + v.dy)
      modifies this
      ensures rest + 1 == left
      ensures Forward(old(Model()), v, left, random) == Forward(Model(), v, rest, random)
    {
      rest := left - 1;
      ghost var before := Model();
      StepDog(v);
      ForwardSteps(before, v, rest, random);
    }

    /** The body of moveDogForward's loop once the next cell is in the grid. */
    method StepDog(v: Vec)
      modifies this
      ensures Model() == Step(old(Model()), v, random)
    {
      ArriveDog(v);
      var adjacent := AdjacentCows(cows, dog);
      MoveEachAway(adjacent);
    }

    /** The dog's move onto the next cell, and the cow found there moved away. */
    method ArriveDog(v: Vec)
      modifies this
      ensures Model() == Arrive(old(Model()), v, random)
    {
      dog := Dog(dog.x + v.dx, dog.y + v.dy, dog.direction);
      var found := CowAt(cows, dog.x, dog.y);
      if found.Some? {
        MoveCowAwayFromDog(cows[found.value]);
      }
    }

    // -------------------------------------------------------------------------------------
    // Moving cows

    /** handleCowReactions: every cow in storage order, read afresh on each pass, takes a
        random step; then updateCounters. */
    method HandleCowReactions()
      modifies this
      ensures Model() == React(old(Model()), random)
    {
      var i := 0;
      while i < |cows|
        invariant ReactFrom(Model(), i, random) == ReactFrom(old(Model()), 0, random)
        decreases |cows| - i
      {
        MoveCowRandomly(cows[i]);
        i := i + 1;
      }
      UpdateCounters();
    }

    /** moveCowAwayFromDog(cow). */
    method MoveCowAwayFromDog(cow: Cow)
      modifies this
      ensures Model() == MoveAway(old(Model()), cow, random)
    {
      ghost var s := Model();
      var step := EscapeDirection(cow);
      ghost var mid := Model();
      PushAlong(cow, step);
      MoveAwayPhases(s, cow, random, step, mid, Model());
    }

    /** The step moveCowAwayFromDog tries, and the draws the shuffle takes. */
    method EscapeDirection(cow: Cow) returns (step: Option<Vec>)
      modifies this
      ensures step == EscapeStep(old(Model()), cow, Shuffled(random, old(Model()).drawn))
      ensures step.Some? ==> IsUnit(step.value)
      ensures Model() == old(Model()).(drawn := old(Model()).drawn + EscapeDraws(old(Model()), cow))
    {
      if cow.x == dog.x && cow.y == dog.y {
        var order := ShuffleDirections(random, drawn);
        drawn := drawn + 3;
        var h := FirstValidMove(cow.x, cow.y, order);
        step := Toward(h);
      } else {
        step := NearDirection(cow);
      }
    }

    /** The step for a record off the dog's cell. */
    method NearDirection(cow: Cow) returns (step: Option<Vec>)
      requires !(cow.x == dog.x && cow.y == dog.y)
      ensures step == NearStep(Model(), cow)
    {
      var dx, dy := cow.x - dog.x, cow.y - dog.y;
      if Abs(dx) == 1 && dy == 0 {
        step := Some(Vec(if dx > 0 then 1 else -1, 0));
      } else if Abs(dy) == 1 && dx == 0 {
        step := Some(Vec(0, if dy > 0 then 1 else -1));
      } else if Abs(dx) == 1 || Abs(dy) == 1 {
        var h := FirstValidMove(cow.x, cow.y, Clockwise);
        step := Toward(h);
      } else {
        step := None;
      }
    }

    /** The first direction of `order` whose cell is a valid cow move. */
    method FirstValidMove(x: int, y: int, order: seq<Heading>) returns (r: Option<Heading>)
      ensures r == FirstValid(dog, fences, x, y, order)
    {
      var k := 0;
      while k < |order|
        invariant 0 <= k <= |order|
        invariant forall j :: 0 <= j < k ==> !StepValid(dog, fences, x, y, order[j])
      {
        if IsValidCowMove(dog, fences, x + DirVec(order[k]).dx, y + DirVec(order[k]).dy) {
          FirstValidAt(dog, fences, x, y, order, k);
          return Some(order[k]);
        }
        k := k + 1;
      }
      return None;
    }

    /** pushCowToPosition(cow, tx, ty), for a target one step from the record's cell. */
    method PushCowToPosition(cow: Cow, tx: int, ty: int)
      requires IsUnit(Vec(tx - cow.x, ty - cow.y))
      modifies this
      ensures Model() == Push(old(Model()), cow, tx, ty)
      decreases PushSpan(cows, cow, tx, ty)
    {
      ghost var s := Model();
      if (tx == dog.x && ty == dog.y) || HasFenceAt(fences, tx, ty) {
        PushRefused(s, cow, tx, ty);
        return;
      }
      var found := OtherCowAt(cows, tx, ty, cow.id);
      if found.Some? {
        var k := found.value;
        var v := Vec(tx - cow.x, ty - cow.y);
        var other, nx, ny := cows[k], tx + v.dx, ty + v.dy;
        PushSpanDrops(cows, cow, tx, ty, k, nx, ny);
        PushChained(s, cow, tx, ty, k, nx, ny);
        PushCowToPosition(other, nx, ny);
        LandCow(cow, tx, ty);
      } else {
        PushDirect(s, cow, tx, ty);
        LandCow(cow, tx, ty);
      }
    }

    /** The end of pushCowToPosition: the cow with `cow`'s id, if still in the herd, is put
        on the target and checked for scoring. */
    method LandCow(cow: Cow, tx: int, ty: int)
      modifies this
      ensures Model() == Land(old(Model()), cow, tx, ty)
    {
      var index := IndexOfId(cows, cow.id);
      if index.Some? {
        cows := cows[index.value := Cow(cow.id, tx, ty, cow.color)];
        CheckCowScoringAndLoss(index.value);
      }
    }

    /** moveCowRandomly(cow). */
    method MoveCowRandomly(cow: Cow)
      modifies this
      ensures Model() == RandomMove(old(Model()), cow, random)
    {
      ghost var s := Model();
      var step := WalkDirection(cow);
      ghost var mid := Model();
      PushAlong(cow, step);
      RandomMovePhases(s, cow, random, step, mid, Model());
    }

    /** The pushCowToPosition call both cow moves end with, when they found a step. */
    method PushAlong(cow: Cow, step: Option<Vec>)
      requires step.Some? ==> IsUnit(step.value)
      modifies this
      ensures Model() == TakeStep(old(Model()), cow, step)
    {
      if step.Some? {
        var v := step.value;
        var tx, ty := cow.x + v.dx, cow.y + v.dy;
        assert Vec(tx - cow.x, ty - cow.y) == v;
        PushCowToPosition(cow, tx, ty);
      }
    }

    /** The step moveCowRandomly tries: a coin, then a choice among the allowed steps. */
    method WalkDirection(cow: Cow) returns (step: Option<Vec>)
      modifies this
      ensures step == WalkStep(old(Model()), cow, random)
      ensures step.Some? ==> IsUnit(step.value)
      ensures Model() == old(Model()).(drawn := old(Model()).drawn + WalkDraws(old(Model()), cow, random))
    {
      step := None;
      var moves := WalkMoves(dog, fences, cow);
      if |moves| > 0 {
        var coin := random(drawn);
        drawn := drawn + 1;
        if coin < 0.7 {
          var move := moves[Scale(random(drawn), |moves|)];
          drawn := drawn + 1;
          assert move in WalkOrder;
          step := Some(move);
        }
      }
    }

    /** checkCowScoringAndLoss for the record at `index`: into the pen it scores, off the
        grid it is lost; either way it leaves the herd. */
    method CheckCowScoringAndLoss(index: nat)
      requires index < |cows|
      modifies this
      ensures Model() == Scoring(old(Model()), index)
    {
      var c := cows[index];
      if IsPen(c.x, c.y) {
        cowsScored := cowsScored + 1;
        cows := cows[..index] + cows[index + 1..];
        cowsRemaining := |cows|;
        return;
      }
      if c.x < 0 || c.x >= Width || c.y < 0 || c.y >= Height {
        cowsLost := cowsLost + 1;
        cows := cows[..index] + cows[index + 1..];
        cowsRemaining := |cows|;
      }
    }

    /** updateCounters. */
    method UpdateCounters()
      modifies this
      ensures Model() == old(Model()).(cowsRemaining := |cows|)
    {
      cowsRemaining := |cows|;
    }
  }
}
