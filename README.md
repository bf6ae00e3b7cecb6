# Herding game: a verified model of the simulation

The game is a turn-based puzzle on a 10 x 10 grid. A sheepdog, steered by cards, herds 25
cows into a 2 x 2 pen in the top-right corner. The player queues cards from a seven-card
hand: move 1, 2 or 3, fence and bark, plus three free pivots (turn left, right, around).
Playing the queue runs the cards in order:

- the dog walks forward, and a cow it reaches or passes next to is pushed away;
- a fence goes down in front of the dog;
- a bark scatters every cow within Chebyshev distance 3.

Cows pushed onto other cows push those on in a chain. After the cards, every cow takes a
random step that never brings it closer to the dog. A cow that reaches the pen is scored. A
cow that leaves the grid is lost.

All of this lives in the object `gameData()` returns, in
`resources/views/livewire/game-view.blade.php`. The model has four parts.

- **Data and rules as functions.** Modules `Grid`, `Cards`, `Herd`, `Chance`, `Seqs` and
  `Rules` hold the game state as a `State` datatype. They give every operation as a function
  from the state before to the state after.
  - The predicates `IsPen`, `HasFenceAt`, `HasCowAt`, `IsValidCowMove` and
    `IsOrthogonallyAdjacentToDog` are the view's predicates of the same names.
  - `BarkTargets`, `AdjacentCows` and `WalkMoves` are its three `filter` calls over the herd
    and over the four headings; `Seqs.FilterAppend` and `Seqs.FilterSingle` fix their results
    element by element, in order.
- **The game object, imperatively.** Class `Simulation.Game` has one field per field of the
  object and one method per operation. Each method updates the fields in place, with the
  loops, the recursion and the early returns of the view. Each method of play and of the
  sequence is proved to leave the object in the state the matching `Rules` function gives.
  The set-up methods `InitGame`, `InitCows` and `PickCell` have no `Rules` counterpart: their
  contracts state what the set-up guarantees (the funnel fences, spawned cows on free cells,
  a dealt hand, the board and card invariants) rather than the cells the draws pick.
- **Randomness.** `Math.random()` is a stream `random: nat -> Unit` of reals in `[0, 1)`, with
  a counter `drawn` of the values used so far.
  - Each call site consumes exactly the draws the view's code does, in the same order: the
    cow placement, the colour, the seven deals, the three-swap Fisher-Yates shuffle, and the
    coin with the 0.7 threshold followed by the uniform pick.
  - `Math.floor(r * n)` is `Chance.Scale`, and `Chance.ScaleIsFloor` proves it is the floor.
- **Properties.** The lemmas in `PushFacts`, `BoardFacts`, `MoveFacts`, `DogFacts` and
  `CardFacts` state what the game promises about those functions. They cover:
  - the tally of scored + lost + live cows;
  - the board invariant (dog in the grid, fences on the board and distinct, cows on the
    board with distinct ids, the remaining counter equal to the number of cows);
  - the card bookkeeping (for every name, as many used cards as queued entries);
  - the case split of `moveCowAwayFromDog`, the chained push and its termination, scoring,
    and the random walk.

Several behaviours of the code differ from what a reader might expect. The model follows the
code each time.

- The dog checks only the grid bounds when it steps. It walks over fences, cows and the pen
  (`DogFacts.ForwardDog`).
- A chained push that is refused does not stop the cow behind it, so two cows can end up on
  one cell (`PushFacts.SharedCellWitness`). A description of the game as keeping cows on
  distinct cells is therefore not true of the code, and the model does not claim it.
- The fallback of `moveCowAwayFromDog` applies to every cow with `|dx| == 1` or `|dy| == 1`
  that is not orthogonally next to the dog, for example offset (1, 2). Any other cow is not
  moved.
- Removal after scoring finds the record just written (`indexOf`), not a cow looked up by
  id. The model removes the record at the index just written.
- Bark and dog steps push the cows of a list taken before any push, using that list's
  possibly stale coordinates. `pushCowToPosition` relocates the cow with the record's id if
  it is still in the herd. Otherwise it only performs the chained push
  (`PushFacts.PushSkipsStale`).

## Model

| member | source | states |
|---|---|---|
| Grid.DirVec | resources/views/livewire/game-view.blade.php:280-285 | each heading's direction is one orthogonal step |
| Grid.TurnsCancel | resources/views/livewire/game-view.blade.php:207-226 | turning left then right (or right then left) restores the heading, and so does turning around twice |
| DogFacts.TurnsUndo | resources/views/livewire/game-view.blade.php:207-226 | the turnLeft/turnRight and turnAround/turnAround pairs of card actions give back the same game state |
| Herd.CowAt | resources/views/livewire/game-view.blade.php:300 | the cow found is the first one standing on the cell, and none is found when no cow stands there |
| Herd.OtherCowAt | resources/views/livewire/game-view.blade.php:420 | the first cow in storage order that stands on the cell and has a different id, and none is found when no such cow exists |
| Herd.IndexOfId | resources/views/livewire/game-view.blade.php:438 | the index found is the first with the id, and none is found when no cow has it |
| Seqs.FirstIndexSpec | resources/views/livewire/game-view.blade.php:152-154 | findIndex returns the first index satisfying the test, or nothing when no element does |
| Seqs.FilterSpec | resources/views/livewire/game-view.blade.php:264-269 | filter keeps exactly the elements that pass the test and never lengthens the list |
| Seqs.FilterAppend | resources/views/livewire/game-view.blade.php:264-269 | filtering a concatenation is the concatenation of the filtered parts, so the kept elements stay in their order |
| Seqs.FilterSingle | resources/views/livewire/game-view.blade.php:454-463 | a one-element list keeps its element exactly when the element passes |
| Chance.Scale | resources/views/livewire/game-view.blade.php:102 | the index drawn from a value in [0, 1) is below the list length |
| Chance.ScaleIsFloor | resources/views/livewire/game-view.blade.php:76-77 | that index is the floor of the value times the length |
| Chance.ShufflePermutes | resources/views/livewire/game-view.blade.php:353-356 | each step of the Fisher-Yates loop keeps the multiset of directions, whatever the draws |
| Chance.ShuffledIsPermutation | resources/views/livewire/game-view.blade.php:348-356 | the shuffled list holds all four directions, whatever the draws |
| Simulation.ShuffleDirections | resources/views/livewire/game-view.blade.php:348-356 | the in-place shuffle on the four-element array yields the specified shuffle of the draws it reads |
| Cards.PoolMembers | resources/views/livewire/game-view.blade.php:94-99 | every card of the weighted pool is one of the types it was built from |
| Cards.PoolShape | resources/views/livewire/game-view.blade.php:22-28 | the pool has 12 cards and holds each type exactly as often as its weight |
| Simulation.BuildPool | resources/views/livewire/game-view.blade.php:94-99 | the nested push loops build exactly the weighted pool |
| Rules.PoolCard | resources/views/livewire/game-view.blade.php:102 | a drawn card is one of the five card types |
| Simulation.DrawHand | resources/views/livewire/game-view.blade.php:101-104 | the seven-draw loop deals exactly the specified hand for the draws it reads |
| CardFacts.DealtFromPool | resources/views/livewire/game-view.blade.php:101-103 | the k-th dealt card is the pool entry that the k-th draw selects |
| CardFacts.DealFresh | resources/views/livewire/game-view.blade.php:90-105 | dealNewHand gives seven unused cards of known types, using seven draws, and leaves the sequence alone; with an empty sequence the card invariant then holds |
| CardFacts.EmptyQueueUnused | resources/views/livewire/game-view.blade.php:144-167 | with an empty sequence the card bookkeeping balances exactly when no hand card is used, so removing every entry returns the hand to all-unused |
| Simulation.Game.DealNewHand | resources/views/livewire/game-view.blade.php:90-105 | the object's new state is the dealt hand, seven draws later |
| Simulation.Game.constructor | resources/views/livewire/game-view.blade.php:8-37 | the initial fields: dog at (1, 8) facing south, counters 25/0/0, empty lists, not playing, index -1; the card invariant holds |
| Simulation.Game.InitGame | resources/views/livewire/game-view.blade.php:39-46 | the funnel fences, spawned cows (25 exactly when it succeeds) and a dealt hand. On a fresh object that succeeds, the board invariant holds; with an empty sequence the card invariant holds |
| Simulation.Game.InitFences | resources/views/livewire/game-view.blade.php:58-68 | the fences become exactly the four funnel cells |
| Simulation.Game.InitCows | resources/views/livewire/game-view.blade.php:70-88 | the cows get ids 0, 1, ... in order, on distinct cells 2 to 7 in from the corner and off the dog. There are 25 exactly when every placement succeeds, and nothing but the cows and draws changes |
| Simulation.Game.PickCell | resources/views/livewire/game-view.blade.php:74-82 | a cell found is in the spawn square, not the dog's, not in the pen and free of cows. Only draws are used |
| Simulation.SpawnedGrow | resources/views/livewire/game-view.blade.php:84-86 | adding the next cow on a free spawn cell keeps ids consecutive and cells distinct |
| Simulation.SpawnedBoard | resources/views/livewire/game-view.blade.php:58-88 | a freshly spawned board with the funnel fences meets the board invariant |
| Simulation.Game.SelectCard | resources/views/livewire/game-view.blade.php:125-130 | the object's new state is the specified selection |
| CardFacts.SelectCardKeeps | resources/views/livewire/game-view.blade.php:125-130 | no effect while playing or on a used card. Otherwise the card's entry is appended and the card marked used, keeping the bookkeeping invariant |
| Simulation.Game.AddPivotToSequence | resources/views/livewire/game-view.blade.php:132-142 | the object's new state is the specified pivot addition |
| CardFacts.AddPivotKeeps | resources/views/livewire/game-view.blade.php:132-142 | no effect while playing. Otherwise the pivot entry is appended and the hand is untouched, keeping the bookkeeping invariant |
| CardFacts.AddPivotThenRemove | resources/views/livewire/game-view.blade.php:132-159 | adding a pivot and removing it again restores the state |
| Rules.FirstUsedNamed | resources/views/livewire/game-view.blade.php:152-154 | the hand card found is the first used one with the name, and none is found when there is none |
| Simulation.Game.RemoveFromSequence | resources/views/livewire/game-view.blade.php:144-159 | the object's new state is the specified removal |
| CardFacts.RemoveEntryKeeps | resources/views/livewire/game-view.blade.php:144-159 | no effect while playing. Otherwise exactly the entry at the index goes, and the bookkeeping invariant is kept |
| CardFacts.DeckEntryHasCard | resources/views/livewire/game-view.blade.php:151-157 | under the invariant, a queued deck card always finds a used hand card of its name |
| CardFacts.SelectThenRemove | resources/views/livewire/game-view.blade.php:125-159 | selecting an unused card and removing its entry restores the sequence and every name's used count |
| Simulation.Game.ClearSequence | resources/views/livewire/game-view.blade.php:161-167 | the object's new state is the specified clear |
| CardFacts.ClearKeeps | resources/views/livewire/game-view.blade.php:161-167 | no effect while playing. Otherwise the sequence is empty and every hand card is unused, keeping the invariant |
| Simulation.Game.PlaySequence | resources/views/livewire/game-view.blade.php:169-187 | the object's new state is the specified play of the whole sequence |
| Simulation.Game.RunSequence | resources/views/livewire/game-view.blade.php:174-178 | the card loop runs every entry in order with its index current |
| Rules.RunFrom | resources/views/livewire/game-view.blade.php:174-178 | running cards changes neither the hand, nor the queue, nor the playing flag |
| CardFacts.PlayCards | resources/views/livewire/game-view.blade.php:169-187 | no effect on an empty queue or while playing. Otherwise it ends not playing, at index -1, with an empty queue and seven unused cards |
| BoardFacts.PlayKeeps | resources/views/livewire/game-view.blade.php:169-187 | playSequence keeps the tally scored + lost + live, never lowers scored or lost, and keeps the board invariant |
| BoardFacts.RunFromKeeps | resources/views/livewire/game-view.blade.php:174-178 | the card loop keeps the tally and the board invariant |
| Simulation.Game.ExecuteCard | resources/views/livewire/game-view.blade.php:189-229 | the object's new state is the specified card action |
| Rules.Execute | resources/views/livewire/game-view.blade.php:189-229 | no card touches the hand, the queue or the play flags, or adds a cow |
| BoardFacts.ExecuteKeeps | resources/views/livewire/game-view.blade.php:189-229 | every card action keeps the tally and the board invariant |
| Simulation.Game.PlaceFence | resources/views/livewire/game-view.blade.php:231-260 | the object's new state is the specified fence placement |
| Rules.PlaceFence | resources/views/livewire/game-view.blade.php:231-257 | a fence placement never moves the dog, touches the cards or adds a cow |
| DogFacts.PlaceFenceEffect | resources/views/livewire/game-view.blade.php:240-256 | the fences grow by exactly the cell ahead when it is in the grid, unfenced and not pen. Otherwise nothing changes. Without a cow there, only the fences change |
| DogFacts.PlaceFenceEvicts | resources/views/livewire/game-view.blade.php:252-256 | a cow on the new fence cell is pushed one further cell along the dog's heading, unless that is fenced |
| BoardFacts.PlaceFenceKeeps | resources/views/livewire/game-view.blade.php:244-256 | placing a fence keeps the tally and keeps the fences on the board and distinct |
| Simulation.Game.ExecuteBark | resources/views/livewire/game-view.blade.php:262-277 | the object's new state is the specified bark |
| Rules.ExecuteBark | resources/views/livewire/game-view.blade.php:262-274 | a bark only moves cows and uses draws |
| BoardFacts.BarkKeeps | resources/views/livewire/game-view.blade.php:262-274 | a bark keeps the tally and the invariants |
| Simulation.Game.MoveEachAway | resources/views/livewire/game-view.blade.php:272-274 | the loop over a snapshot moves each listed record away in order |
| BoardFacts.PushEachExtends | resources/views/livewire/game-view.blade.php:272-274 | one more snapshot entry means one more moveCowAwayFromDog, last |
| BoardFacts.PushEachKeeps | resources/views/livewire/game-view.blade.php:314-317 | moving a snapshot's cows away keeps the tally and the invariants |
| Simulation.Game.MoveDogForward | resources/views/livewire/game-view.blade.php:279-324 | the object's new state is the specified forward walk for the dog's heading |
| Simulation.Game.AdvanceDog | resources/views/livewire/game-view.blade.php:290-319 | one pass of the loop leaves one step fewer to go towards the same end state |
| Simulation.Game.StepDog | resources/views/livewire/game-view.blade.php:297-317 | the object's new state is the specified step |
| Simulation.Game.ArriveDog | resources/views/livewire/game-view.blade.php:297-303 | the object's new state is the specified arrival |
| Rules.Arrive | resources/views/livewire/game-view.blade.php:297-303 | the dog lands on the next cell with its heading kept, and nothing but cows and draws changes |
| Rules.Step | resources/views/livewire/game-view.blade.php:297-317 | the same for a whole step including the adjacent pushes |
| Rules.Forward | resources/views/livewire/game-view.blade.php:290-323 | a walk keeps the heading, the fences and the cards, and a dog in the grid stays in the grid |
| DogFacts.ForwardDog | resources/views/livewire/game-view.blade.php:290-323 | the dog advances exactly min(n, room ahead) cells; only the grid edge stops it |
| BoardFacts.ForwardSteps | resources/views/livewire/game-view.blade.php:290-297 | with the next cell in the grid, n + 1 steps are one step followed by n |
| BoardFacts.ForwardStops | resources/views/livewire/game-view.blade.php:295-322 | with no steps left, or the next cell off the grid, the walk changes nothing |
| BoardFacts.ForwardKeeps | resources/views/livewire/game-view.blade.php:290-323 | a walk keeps the tally and the invariants |
| BoardFacts.StepKeeps | resources/views/livewire/game-view.blade.php:297-317 | one step keeps the tally and the invariants |
| BoardFacts.ArriveKeeps | resources/views/livewire/game-view.blade.php:297-303 | the arrival push keeps the tally and the invariants |
| Simulation.Game.HandleCowReactions | resources/views/livewire/game-view.blade.php:326-335 | the object's new state is the specified reaction phase, re-reading cows[i] on every pass |
| Rules.React | resources/views/livewire/game-view.blade.php:326-335 | afterwards the remaining counter equals the number of cows; the dog, fences and cards are untouched |
| Rules.ReactFrom | resources/views/livewire/game-view.blade.php:330-332 | the walk loop only moves cows and uses draws |
| BoardFacts.ReactKeeps | resources/views/livewire/game-view.blade.php:326-335 | the reaction phase keeps the tally and the board invariant |
| BoardFacts.ReactFromKeeps | resources/views/livewire/game-view.blade.php:330-332 | the walk loop keeps the tally and the invariants |
| Simulation.Game.MoveCowAwayFromDog | resources/views/livewire/game-view.blade.php:337-409 | the object's new state is the specified move away |
| Simulation.Game.EscapeDirection | resources/views/livewire/game-view.blade.php:341-369 | the step chosen is the specified escape step, using three draws exactly when the cow is on the dog |
| Simulation.Game.NearDirection | resources/views/livewire/game-view.blade.php:371-407 | the step for a record off the dog's cell is the specified one |
| Simulation.Game.FirstValidMove | resources/views/livewire/game-view.blade.php:398-406 | the loop returns the first heading of the order whose cell is a valid cow move |
| Rules.FirstValid | resources/views/livewire/game-view.blade.php:358-366 | the chosen heading is valid with no valid one before it, and none exactly when no heading of the order is valid |
| MoveFacts.FirstValidAt | resources/views/livewire/game-view.blade.php:358-366 | a valid heading with no valid one before it is the one chosen |
| Rules.EscapeStep | resources/views/livewire/game-view.blade.php:341-408 | any step chosen is one orthogonal step |
| Rules.Toward | resources/views/livewire/game-view.blade.php:359-360 | a heading gives its step, and no heading gives no step |
| Rules.NearStep | resources/views/livewire/game-view.blade.php:371-407 | any step chosen off the dog's cell is one orthogonal step |
| MoveFacts.EscapeOnDog | resources/views/livewire/game-view.blade.php:345-369 | a cow on the dog steps onto a valid neighbour. It stays only when all four neighbouring cells are fenced |
| MoveFacts.EscapeInOrder | resources/views/livewire/game-view.blade.php:358-368 | the same for any order that holds all four headings |
| MoveFacts.EscapeBeside | resources/views/livewire/game-view.blade.php:371-390 | an orthogonally adjacent cow is pushed one more cell along the same axis, to distance 2 |
| MoveFacts.EscapeFallback | resources/views/livewire/game-view.blade.php:392-407 | another cow one row or one column off steps in the first valid heading of up, right, down, left, or not at all when none is valid |
| MoveFacts.FirstClockwise | resources/views/livewire/game-view.blade.php:394-406 | the first valid heading of the fixed order is the least valid heading |
| MoveFacts.EscapeFar | resources/views/livewire/game-view.blade.php:392-409 | every other cow is not moved |
| MoveFacts.MoveAwayPhases | resources/views/livewire/game-view.blade.php:337-409 | choosing the step, then pushing along it, is moveCowAwayFromDog |
| MoveFacts.MoveAwayStays | resources/views/livewire/game-view.blade.php:366-368 | without a step, cows and counters are unchanged |
| MoveFacts.MoveAwayLands | resources/views/livewire/game-view.blade.php:337-409 | a live cow with a step onto a cell that takes pushes ends there, or leaves the board |
| BoardFacts.MoveAwayKeeps | resources/views/livewire/game-view.blade.php:337-409 | moveCowAwayFromDog keeps the tally and the invariants |
| DogFacts.EvictedLands | resources/views/livewire/game-view.blade.php:371-390 | an adjacent live cow moved away lands one cell further out unless that cell is fenced |
| Simulation.Game.PushAlong | resources/views/livewire/game-view.blade.php:467-469 | pushing along the chosen step, if there is one, is the specified step |
| Simulation.Game.PushCowToPosition | resources/views/livewire/game-view.blade.php:411-444 | the recursive method leaves the object in the specified push state |
| Simulation.Game.LandCow | resources/views/livewire/game-view.blade.php:438-443 | the object's new state is the specified landing |
| Rules.Push | resources/views/livewire/game-view.blade.php:411-444 | a push only moves and removes cows and never adds one, and its recursion is well founded |
| Rules.Land | resources/views/livewire/game-view.blade.php:438-443 | landing only moves and removes cows |
| Rules.CowsAheadDrops | resources/views/livewire/game-view.blade.php:424-432 | a nested push starts with strictly fewer cows ahead, so the chain terminates |
| Rules.PushSpanDrops | resources/views/livewire/game-view.blade.php:424-432 | the same measured for the nested call of the method |
| PushFacts.PushRefused | resources/views/livewire/game-view.blade.php:414-417 | a push onto the dog or a fence changes nothing |
| PushFacts.PushChained | resources/views/livewire/game-view.blade.php:420-443 | with another cow on the target, that cow is pushed on along the same vector first, then the cow lands |
| PushFacts.PushDirect | resources/views/livewire/game-view.blade.php:420-443 | with the target free of other cows, the cow just lands |
| PushFacts.PushKeeps | resources/views/livewire/game-view.blade.php:411-444 | every push keeps the tally, the counter agreement and the cow invariant, and never lowers scored or lost |
| PushFacts.LandKeeps | resources/views/livewire/game-view.blade.php:438-443 | landing keeps the tally and the invariants |
| PushFacts.PushLive | resources/views/livewire/game-view.blade.php:411-444 | a live cow pushed onto a cell that takes pushes ends there keeping id and colour, or is removed: scored in the pen, lost off the grid |
| PushFacts.LandLive | resources/views/livewire/game-view.blade.php:438-443 | landing a live cow puts it on the target, or removes and counts it |
| PushFacts.PushSparesBystanders | resources/views/livewire/game-view.blade.php:420-433 | a push leaves every other cow not on the ray ahead of the target where it was |
| PushFacts.LandSpares | resources/views/livewire/game-view.blade.php:438-443 | landing leaves every cow with another id in place |
| PushFacts.PushNoNewIds | resources/views/livewire/game-view.blade.php:411-444 | a push never brings an id into the herd |
| PushFacts.PushSkipsStale | resources/views/livewire/game-view.blade.php:420-443 | for a cow already gone from the herd, only the chained push of the cow on the target happens |
| PushFacts.PushStaleAlone | resources/views/livewire/game-view.blade.php:420-443 | for a cow already gone from the herd with no other cow on the target, the push changes nothing |
| PushFacts.SharedCellWitness | resources/views/livewire/game-view.blade.php:419-440 | a concrete board where a refused chained push leaves two cows on one cell |
| Simulation.Game.MoveCowRandomly | resources/views/livewire/game-view.blade.php:446-471 | the object's new state is the specified random move |
| Simulation.Game.WalkDirection | resources/views/livewire/game-view.blade.php:447-468 | the step is the specified walk step. The draws are none without allowed steps, one for a failed coin and two for a move |
| Rules.WalkMoves | resources/views/livewire/game-view.blade.php:454-463 | the allowed steps are exactly the valid steps that do not approach the dog |
| Rules.WalkStep | resources/views/livewire/game-view.blade.php:465-468 | any step taken is one of the allowed ones |
| MoveFacts.WalkChoice | resources/views/livewire/game-view.blade.php:446-471 | a step taken is allowed. There is none exactly when no step is allowed or the coin is not below 0.7 |
| MoveFacts.RandomMoveStays | resources/views/livewire/game-view.blade.php:465-470 | without a step, cows and counters are unchanged |
| MoveFacts.RandomMoveLands | resources/views/livewire/game-view.blade.php:465-470 | with a step, a live cow ends on the new cell or leaves the board counted |
| MoveFacts.RandomMovePhases | resources/views/livewire/game-view.blade.php:446-471 | choosing the step, then pushing along it, is moveCowRandomly |
| BoardFacts.RandomMoveKeeps | resources/views/livewire/game-view.blade.php:446-471 | moveCowRandomly keeps the tally and the invariants |
| Simulation.Game.CheckCowScoringAndLoss | resources/views/livewire/game-view.blade.php:485-506 | the object's new state is the specified scoring of the record at the index |
| Rules.Scoring | resources/views/livewire/game-view.blade.php:485-506 | scoring only removes a cow and counts it, using no draws |
| PushFacts.ScoringCases | resources/views/livewire/game-view.blade.php:485-506 | the pen check comes first and counts the cow as scored. Otherwise off the grid it is counted as lost. Either way it is removed and the counter reset. On the board nothing changes |
| PushFacts.ScoringKeeps | resources/views/livewire/game-view.blade.php:485-506 | scoring keeps the tally and restores the cow invariant when only the checked cow was off the board |
| PushFacts.RemoveAtKeepsRest | resources/views/livewire/game-view.blade.php:489-492 | splice removes only that cow and keeps the others' invariant |
| Rules.RemoveAt | resources/views/livewire/game-view.blade.php:491 | splice shortens the list by one |
| Simulation.Game.UpdateCounters | resources/views/livewire/game-view.blade.php:508-511 | the remaining counter becomes the number of cows, and nothing else changes |

## Left out

- initGrid (lines 48-56) fills a display array and feeds nothing else; getDogIcon (119-123) and all markup, icons and layout are presentation.
- `sleep` and every `await` pause are animation pacing; the methods run as ordinary sequential code, which gives the same final state.
- app/Livewire/GameView.php only returns the view; it is not part of this model.
- Floating point: `Math.random()` values are exact reals in `[0, 1)` and `r * n` is exact, so rounding in the product is not modelled.
- The "force reactivity" copies of the dog record are plain field updates; hand cards are updated by value.
- Queued entries keep only the name and action of the queued object; the icon and the `used` flag of a queued hand card are never read again.
- The colour of a cow is kept only so that record preservation can be stated; it has no meaning in the game.
- Simulation.Game.InitCows: the do-while for a free cell gives up after `budget` tries per cow and reports failure, because an unbounded retry loop has no termination argument; with enough budget it places all 25 cows as the view does.
- Simulation.Game.InitGame: the board invariant is promised only for a successful set-up on an object whose dog is in the grid and whose counter still reads 25.
- Simulation.Game.SelectCard: an index outside the hand makes the view throw; the model requires a valid index.
- Simulation.Game.RemoveFromSequence: likewise an index outside the sequence throws unless a sequence is playing; the model requires it.
- Rules.Push: requires the target to be one orthogonal step from the record's coordinates, which every call site satisfies and the termination argument needs; a push by a longer vector is not modelled.
- Simulation.Game.PushCowToPosition: the same requirement.
- Simulation.Game.CheckCowScoringAndLoss: takes the index of the record just written instead of the record, because `indexOf` always finds that very record there.
- moveCowAwayFromDog and moveCowRandomly are each split into the choice of the step (EscapeDirection, WalkDirection) and one pushCowToPosition call (PushAlong); their order of effects is unchanged.
- The shuffle of moveCowAwayFromDog runs on a four-element array of headings rather than of direction records; the heading indexes the same table.
- The body of moveDogForward's loop is AdvanceDog with a ghost count of steps left, and the loop of playSequence is RunSequence.
