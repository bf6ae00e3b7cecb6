/** The card system: the five card types with their weights, the weighted pool a hand is
    drawn from, the three pivots, and the counts that tie the hand's `used` flags to the
    queued sequence. */
module Cards {
  datatype Action = Move1 | Move2 | Move3 | Fence | Bark | TurnLeft | TurnRight | TurnAround

  /** A kind of card: its name, its action and how many copies the weighted pool holds
      (the icon is presentation only). */
  datatype CardType = CardType(name: string, action: Action, weight: nat)

  /** A card of the hand: a copy of its type and whether it is queued already. */
  datatype HandCard = HandCard(kind: CardType, used: bool)

  /** An entry of the queued sequence. Of the object queued (a hand card or a pivot) only
      the name and the action are ever read again. */
  datatype Entry = Entry(name: string, action: Action)

  /** The argument of addPivotToSequence. */
  datatype Pivot = PivotLeft | PivotRight | PivotAround

  const CardTypes: seq<CardType> := [
    CardType("Move 1", Move1, 3),
    CardType("Move 2", Move2, 3),
    CardType("Move 3", Move3, 2),
    CardType("Fence", Fence, 2),
    CardType("Bark", Bark, 2)
  ]

  /** The entry addPivotToSequence queues for a pivot. */
  function PivotEntry(p: Pivot): Entry {
    match p
    case PivotLeft => Entry("Turn Left", TurnLeft)
    case PivotRight => Entry("Turn Right", TurnRight)
    case PivotAround => Entry("Turn Around", TurnAround)
  }

  /** The entry selectCard queues for a hand card. */
  function EntryOf(c: HandCard): Entry {
    Entry(c.kind.name, c.kind.action)
  }

  /** The actions of cards drawn from the deck, as opposed to pivots. */
  predicate IsDeckAction(a: Action) {
    a.Move1? || a.Move2? || a.Move3? || a.Fence? || a.Bark?
  }

  function Copies(t: CardType, n: nat): (r: seq<CardType>)
    ensures |r| == n && forall i :: 0 <= i < n ==> r[i] == t
  {
    seq(n, _ => t)
  }

  /** The weighted pool: each type of `types`, in order, repeated `weight` times. */
  function WeightedPool(types: seq<CardType>): seq<CardType> {
    if types == [] then []
    else WeightedPool(types[..|types| - 1]) + Copies(types[|types| - 1], types[|types| - 1].weight)
  }

  /** Every card of a pool is one of the types it was built from. */
  lemma {:induction false} PoolMembers(types: seq<CardType>)
    ensures forall i :: 0 <= i < |WeightedPool(types)| ==> WeightedPool(types)[i] in types
  {
    if types != [] {
      var init := types[..|types| - 1];
      PoolMembers(init);
      forall i | 0 <= i < |WeightedPool(types)| ensures WeightedPool(types)[i] in types {
        if i < |WeightedPool(init)| {
          assert WeightedPool(types)[i] == WeightedPool(init)[i];
          assert WeightedPool(init)[i] in init;
        }
      }
    }
  }

  /** The game's pool has 12 cards, each type occurring exactly `weight` times. */
  lemma PoolShape()
    ensures |WeightedPool(CardTypes)| == 12
    ensures forall k :: 0 <= k < |CardTypes| ==>
      multiset(WeightedPool(CardTypes))[CardTypes[k]] == CardTypes[k].weight
  {
    var t := CardTypes;
    assert t[..1][..0] == [];
    assert WeightedPool(t[..1]) == Copies(t[0], 3);
    assert t[..2][..1] == t[..1];
    assert WeightedPool(t[..2]) == Copies(t[0], 3) + Copies(t[1], 3);
    assert t[..3][..2] == t[..2];
    assert WeightedPool(t[..3]) == Copies(t[0], 3) + Copies(t[1], 3) + Copies(t[2], 2);
    assert t[..4][..3] == t[..3];
    assert WeightedPool(t[..4]) == Copies(t[0], 3) + Copies(t[1], 3) + Copies(t[2], 2) + Copies(t[3], 2);
    assert t[..5][..4] == t[..4] && t[..5] == t;
    var pool := Copies(t[0], 3) + Copies(t[1], 3) + Copies(t[2], 2) + Copies(t[3], 2) + Copies(t[4], 2);
    assert WeightedPool(t) == pool;
    forall k | 0 <= k < |t| ensures multiset(pool)[t[k]] == t[k].weight {
      CopiesCount(t[0], 3, t[k]);
      CopiesCount(t[1], 3, t[k]);
      CopiesCount(t[2], 2, t[k]);
      CopiesCount(t[3], 2, t[k]);
      CopiesCount(t[4], 2, t[k]);
    }
  }

  lemma {:induction false} CopiesCount(t: CardType, n: nat, u: CardType)
    ensures multiset(Copies(t, n))[u] == if u == t then n else 0
  {
    if n > 0 {
      CopiesCount(t, n - 1, u);
      assert Copies(t, n) == Copies(t, n - 1) + [t];
    }
  }

  /** How many used hand cards carry `name`. */
  function CountUsed(hand: seq<HandCard>, name: string): nat {
    if hand == [] then 0
    else (if hand[0].used && hand[0].kind.name == name then 1 else 0) + CountUsed(hand[1..], name)
  }

  /** How many queued entries carry `name`. */
  function CountQueued(sq: seq<Entry>, name: string): nat {
    if sq == [] then 0
    else (if sq[0].name == name then 1 else 0) + CountQueued(sq[1..], name)
  }

  /** For every card name, as many hand cards are marked used as the sequence holds entries
      of that name. */
  predicate Balanced(hand: seq<HandCard>, sq: seq<Entry>) {
    forall k :: 0 <= k < |CardTypes| ==> CountUsed(hand, CardTypes[k].name) == CountQueued(sq, CardTypes[k].name)
  }

  /** Every hand card is a copy of one of the five card types. */
  predicate KnownHand(hand: seq<HandCard>) {
    forall i :: 0 <= i < |hand| ==> hand[i].kind in CardTypes
  }

  /** Every entry was queued by selectCard from a known hand card or by addPivotToSequence. */
  predicate KnownEntries(sq: seq<Entry>) {
    forall i :: 0 <= i < |sq| ==>
      (exists t :: t in CardTypes && sq[i] == Entry(t.name, t.action)) || (exists p :: sq[i] == PivotEntry(p))
  }
}
