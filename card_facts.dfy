/** The card commands: what each does to the hand and the queued sequence, and the
    bookkeeping invariant they keep (for every card name, as many used hand cards as
    queued entries). */
module CardFacts {
  import opened Seqs
  import opened Chance
  import opened Cards
  import opened Herd
  import opened Rules

  // ---------------------------------------------------------------------------------------
  // Counting

  lemma {:induction false} CountQueuedConcat(a: seq<Entry>, b: seq<Entry>, name: string)
    ensures CountQueued(a + b, name) == CountQueued(a, name) + CountQueued(b, name)
  {
    if a == [] {
      assert a + b == b;
    } else {
      assert (a + b)[0] == a[0];
      assert (a + b)[1..] == a[1..] + b;
      CountQueuedConcat(a[1..], b, name);
    }
  }

  lemma CountQueuedOne(e: Entry, name: string)
    ensures CountQueued([e], name) == if e.name == name then 1 else 0
  {
    assert [e][1..] == [];
  }

  /** Dropping entry `i` takes away exactly its own contribution. */
  lemma CountQueuedRemove(sq: seq<Entry>, i: nat, name: string)
    requires i < |sq|
    ensures CountQueued(sq[..i] + sq[i + 1..], name) + (if sq[i].name == name then 1 else 0) ==
            CountQueued(sq, name)
  {
    assert sq == sq[..i] + ([sq[i]] + sq[i + 1..]);
    CountQueuedConcat(sq[..i], [sq[i]] + sq[i + 1..], name);
    CountQueuedConcat([sq[i]], sq[i + 1..], name);
    CountQueuedConcat(sq[..i], sq[i + 1..], name);
    CountQueuedOne(sq[i], name);
  }

  function UsedNamed(c: HandCard, name: string): nat {
    if c.used && c.kind.name == name then 1 else 0
  }

  /** Replacing hand card `k` replaces its contribution. */
  lemma {:induction false} CountUsedUpdate(hand: seq<HandCard>, k: nat, c: HandCard, name: string)
    requires k < |hand|
    ensures CountUsed(hand[k := c], name) + UsedNamed(hand[k], name) == CountUsed(hand, name) + UsedNamed(c, name)
  {
    if k == 0 {
      assert hand[k := c][1..] == hand[1..];
    } else {
      assert hand[k := c][1..] == hand[1..][k - 1 := c];
      CountUsedUpdate(hand[1..], k - 1, c, name);
    }
  }

  lemma {:induction false} CountUsedNone(hand: seq<HandCard>, name: string)
    requires forall j :: 0 <= j < |hand| ==> !(hand[j].kind.name == name && hand[j].used)
    ensures CountUsed(hand, name) == 0
  {
    if hand != [] {
      CountUsedNone(hand[1..], name);
    }
  }

  /** No name of a card type is the name of a pivot. */
  lemma PivotNamesApart(p: Pivot, k: nat)
    requires k < |CardTypes|
    ensures PivotEntry(p).name != CardTypes[k].name
  {
    var n := PivotEntry(p).name;
    assert n[0] == 'T';
    assert CardTypes[k].name[0] != 'T';
  }

  // ---------------------------------------------------------------------------------------
  // The commands

  /** selectCard: neither while playing nor on a used card; otherwise the card's entry is
      queued and the card marked used, which keeps the bookkeeping invariant. */
  lemma SelectCardKeeps(s: State, i: nat)
    requires i < |s.hand|
    ensures s.isPlaying || s.hand[i].used ==> SelectCard(s, i) == s
    ensures !s.isPlaying && !s.hand[i].used ==>
      SelectCard(s, i).selectedSequence == s.selectedSequence + [EntryOf(s.hand[i])] &&
      SelectCard(s, i).hand[i].used
    ensures CardsOK(s) ==> CardsOK(SelectCard(s, i))
  {
    var r := SelectCard(s, i);
    if CardsOK(s) && !s.isPlaying && !s.hand[i].used {
      var e := EntryOf(s.hand[i]);
      assert e == Entry(s.hand[i].kind.name, s.hand[i].kind.action);
      forall j | 0 <= j < |r.selectedSequence|
        ensures (exists t :: t in CardTypes && r.selectedSequence[j] == Entry(t.name, t.action)) ||
                (exists p :: r.selectedSequence[j] == PivotEntry(p))
      {
        if j == |s.selectedSequence| {
          assert r.selectedSequence[j] == e;
        } else {
          assert r.selectedSequence[j] == s.selectedSequence[j];
        }
      }
      forall k | 0 <= k < |CardTypes|
        ensures CountUsed(r.hand, CardTypes[k].name) == CountQueued(r.selectedSequence, CardTypes[k].name)
      {
        CountQueuedConcat(s.selectedSequence, [e], CardTypes[k].name);
        CountQueuedOne(e, CardTypes[k].name);
        CountUsedUpdate(s.hand, i, s.hand[i].(used := true), CardTypes[k].name);
      }
    }
  }

  /** addPivotToSequence: not while playing; otherwise the pivot's entry is queued, and the
      hand is untouched, which keeps the bookkeeping invariant. */
  lemma AddPivotKeeps(s: State, p: Pivot)
    ensures s.isPlaying ==> AddPivot(s, p) == s
    ensures !s.isPlaying ==> AddPivot(s, p).selectedSequence == s.selectedSequence + [PivotEntry(p)] &&
                             AddPivot(s, p).hand == s.hand
    ensures CardsOK(s) ==> CardsOK(AddPivot(s, p))
  {
    var r := AddPivot(s, p);
    if CardsOK(s) && !s.isPlaying {
      forall j | 0 <= j < |r.selectedSequence|
        ensures (exists t :: t in CardTypes && r.selectedSequence[j] == Entry(t.name, t.action)) ||
                (exists q :: r.selectedSequence[j] == PivotEntry(q))
      {
        if j == |s.selectedSequence| {
          assert r.selectedSequence[j] == PivotEntry(p);
        } else {
          assert r.selectedSequence[j] == s.selectedSequence[j];
        }
      }
      forall k | 0 <= k < |CardTypes|
        ensures CountUsed(r.hand, CardTypes[k].name) == CountQueued(r.selectedSequence, CardTypes[k].name)
      {
        CountQueuedConcat(s.selectedSequence, [PivotEntry(p)], CardTypes[k].name);
        CountQueuedOne(PivotEntry(p), CardTypes[k].name);
        PivotNamesApart(p, k);
      }
    }
  }

  /** A queued entry with a deck action came from a hand card, so under the invariant some
      used hand card carries its name. */
  lemma DeckEntryHasCard(s: State, i: nat)
    requires CardsOK(s) && i < |s.selectedSequence| && IsDeckAction(s.selectedSequence[i].action)
    ensures FirstUsedNamed(s.hand, s.selectedSequence[i].name).Some?
  {
    var e := s.selectedSequence[i];
    forall q: Pivot ensures e != PivotEntry(q) {
      assert !IsDeckAction(PivotEntry(q).action);
    }
    var t :| t in CardTypes && e == Entry(t.name, t.action);
    var k :| 0 <= k < |CardTypes| && CardTypes[k] == t;
    CountQueuedRemove(s.selectedSequence, i, t.name);
    assert CountUsed(s.hand, t.name) > 0;
    if FirstUsedNamed(s.hand, e.name).None? {
      CountUsedNone(s.hand, e.name);
    }
  }

  /** removeFromSequence: not while playing; otherwise exactly entry `i` goes and, for a deck
      card, one used hand card of its name becomes unused, which keeps the bookkeeping
      invariant. */
  lemma RemoveEntryKeeps(s: State, i: nat)
    requires s.isPlaying || i < |s.selectedSequence|
    ensures s.isPlaying ==> RemoveEntry(s, i) == s
    ensures !s.isPlaying ==>
      RemoveEntry(s, i).selectedSequence == s.selectedSequence[..i] + s.selectedSequence[i + 1..]
    ensures CardsOK(s) ==> CardsOK(RemoveEntry(s, i))
  {
    var r := RemoveEntry(s, i);
    if CardsOK(s) && !s.isPlaying {
      var sq := s.selectedSequence;
      var e := sq[i];
      RemoveKnown(sq, i);
      if IsDeckAction(e.action) {
        DeckEntryHasCard(s, i);
        var k := FirstUsedNamed(s.hand, e.name).value;
        assert r.hand == s.hand[k := s.hand[k].(used := false)];
        RemoveDeckBalanced(s.hand, sq, i, k);
      } else {
        assert r.hand == s.hand;
        RemovePivotBalanced(s.hand, sq, i);
      }
    }
  }

  /** Dropping one entry keeps every other entry known. */
  lemma RemoveKnown(sq: seq<Entry>, i: nat)
    requires KnownEntries(sq) && i < |sq|
    ensures KnownEntries(sq[..i] + sq[i + 1..])
  {
    var rest := sq[..i] + sq[i + 1..];
    forall j | 0 <= j < |rest|
      ensures (exists t :: t in CardTypes && rest[j] == Entry(t.name, t.action)) ||
              (exists q :: rest[j] == PivotEntry(q))
    {
      if j < i {
        assert rest[j] == sq[j];
      } else {
        assert rest[j] == sq[j + 1];
      }
    }
  }

  /** Dropping a deck entry together with unmarking a used hand card of its name keeps the
      counts balanced. */
  lemma RemoveDeckBalanced(hand: seq<HandCard>, sq: seq<Entry>, i: nat, k: nat)
    requires Balanced(hand, sq) && i < |sq| && k < |hand|
    requires hand[k].kind.name == sq[i].name && hand[k].used
    ensures Balanced(hand[k := hand[k].(used := false)], sq[..i] + sq[i + 1..])
  {
    forall m | 0 <= m < |CardTypes|
      ensures CountUsed(hand[k := hand[k].(used := false)], CardTypes[m].name) ==
              CountQueued(sq[..i] + sq[i + 1..], CardTypes[m].name)
    {
      CountQueuedRemove(sq, i, CardTypes[m].name);
      CountUsedUpdate(hand, k, hand[k].(used := false), CardTypes[m].name);
    }
  }

  /** Dropping a known entry that is not a deck card (a pivot) keeps the counts balanced. */
  lemma RemovePivotBalanced(hand: seq<HandCard>, sq: seq<Entry>, i: nat)
    requires Balanced(hand, sq) && KnownEntries(sq) && i < |sq| && !IsDeckAction(sq[i].action)
    ensures Balanced(hand, sq[..i] + sq[i + 1..])
  {
    var e := sq[i];
    forall t | t in CardTypes ensures e != Entry(t.name, t.action) {
      assert IsDeckAction(t.action);
    }
    var p :| e == PivotEntry(p);
    forall m | 0 <= m < |CardTypes|
      ensures CountUsed(hand, CardTypes[m].name) == CountQueued(sq[..i] + sq[i + 1..], CardTypes[m].name)
    {
      CountQueuedRemove(sq, i, CardTypes[m].name);
      PivotNamesApart(p, m);
    }
  }

  /** Queuing a pivot and removing it again restores the state. */
  lemma AddPivotThenRemove(s: State, p: Pivot)
    requires !s.isPlaying
    ensures RemoveEntry(AddPivot(s, p), |s.selectedSequence|) == s
  {
    var r := AddPivot(s, p);
    var n := |s.selectedSequence|;
    assert r.selectedSequence[..n] + r.selectedSequence[n + 1..] == s.selectedSequence;
    assert !IsDeckAction(PivotEntry(p).action);
  }

  /** Selecting an unused card and removing its entry again restores the sequence, and for
      every name the number of used cards. */
  lemma SelectThenRemove(s: State, i: nat, name: string)
    requires i < |s.hand| && !s.isPlaying && !s.hand[i].used && KnownHand(s.hand)
    ensures RemoveEntry(SelectCard(s, i), |s.selectedSequence|).selectedSequence == s.selectedSequence
    ensures CountUsed(RemoveEntry(SelectCard(s, i), |s.selectedSequence|).hand, name) == CountUsed(s.hand, name)
  {
    var r := SelectCard(s, i);
    var n := |s.selectedSequence|;
    var e := EntryOf(s.hand[i]);
    assert r.selectedSequence[n] == e;
    assert r.selectedSequence[..n] + r.selectedSequence[n + 1..] == s.selectedSequence;
    CountUsedUpdate(s.hand, i, s.hand[i].(used := true), name);
    assert s.hand[i].kind in CardTypes;
    assert IsDeckAction(e.action);
    var k := FirstUsedNamed(r.hand, e.name);
    assert r.hand[i].kind.name == e.name && r.hand[i].used;
    var j := k.value;
    CountUsedUpdate(r.hand, j, r.hand[j].(used := false), name);
    assert UsedNamed(r.hand[j], name) == UsedNamed(s.hand[i].(used := true), name);
  }

  /** clearSequence: not while playing; otherwise the sequence is empty and every hand card
      is unused, which keeps the bookkeeping invariant. */
  lemma ClearKeeps(s: State)
    ensures s.isPlaying ==> ClearSequence(s) == s
    ensures !s.isPlaying ==>
      ClearSequence(s).selectedSequence == [] && |ClearSequence(s).hand| == |s.hand| &&
      forall k :: 0 <= k < |s.hand| ==>
        ClearSequence(s).hand[k] == HandCard(s.hand[k].kind, false)
    ensures CardsOK(s) ==> CardsOK(ClearSequence(s))
  {
    var r := ClearSequence(s);
    if !s.isPlaying {
      forall m | 0 <= m < |CardTypes| ensures CountUsed(r.hand, CardTypes[m].name) == 0 {
        CountUsedNone(r.hand, CardTypes[m].name);
      }
    }
  }

  /** dealNewHand: seven unused cards, each of one of the five types, taking seven draws. */
  lemma DealFresh(s: State, rnd: nat -> Unit)
    ensures |Deal(s, rnd).hand| == 7 && Deal(s, rnd).drawn == s.drawn + 7
    ensures forall k :: 0 <= k < 7 ==> !Deal(s, rnd).hand[k].used && Deal(s, rnd).hand[k].kind in CardTypes
    ensures KnownHand(Deal(s, rnd).hand)
    ensures Deal(s, rnd).selectedSequence == s.selectedSequence
    ensures s.selectedSequence == [] ==> CardsOK(Deal(s, rnd))
  {
    var h := Deal(s, rnd).hand;
    forall k | 0 <= k < 7 ensures !h[k].used && h[k].kind in CardTypes {
      assert h[k] == HandCard(PoolCard(rnd(s.drawn + k)), false);
    }
    if s.selectedSequence == [] {
      EmptyQueueUnused(h);
    }
  }

  /** With an empty sequence, the bookkeeping balances exactly when no hand card is used:
      removing every entry returns the hand to all-unused, and a fresh hand balances an empty
      sequence. */
  lemma EmptyQueueUnused(h: seq<HandCard>)
    requires KnownHand(h)
    ensures Balanced(h, []) <==> forall k :: 0 <= k < |h| ==> !h[k].used
  {
    if forall k :: 0 <= k < |h| ==> !h[k].used {
      forall m | 0 <= m < |CardTypes| ensures CountUsed(h, CardTypes[m].name) == 0 {
        CountUsedNone(h, CardTypes[m].name);
      }
    }
    if Balanced(h, []) {
      forall k | 0 <= k < |h| ensures !h[k].used {
        var m :| 0 <= m < |CardTypes| && CardTypes[m] == h[k].kind;
        CountUsedUpdate(h, k, h[k].(used := false), CardTypes[m].name);
      }
    }
  }

  /** Each dealt card is the pool entry the draw selects, and the pool holds each type as
      often as its weight says. */
  lemma DealtFromPool(rnd: nat -> Unit, d: nat, k: nat)
    requires k < 7
    ensures |WeightedPool(CardTypes)| == 12
    ensures DealtHand(rnd, d)[k].kind == WeightedPool(CardTypes)[Scale(rnd(d + k), 12)]
  {
    PoolShape();
    assert DealtHand(rnd, d)[k] == HandCard(PoolCard(rnd(d + k)), false);
  }

  /** playSequence: nothing happens while playing or with an empty sequence; otherwise it
      ends not playing, with index -1, an empty sequence and a fresh unused hand, so the
      bookkeeping invariant holds afterwards whatever held before. */
  lemma PlayCards(s: State, rnd: nat -> Unit)
    ensures |s.selectedSequence| == 0 || s.isPlaying ==> Play(s, rnd) == s
    ensures |s.selectedSequence| > 0 && !s.isPlaying ==>
      !Play(s, rnd).isPlaying && Play(s, rnd).currentCardIndex == -1 &&
      Play(s, rnd).selectedSequence == [] && |Play(s, rnd).hand| == 7 &&
      (forall k :: 0 <= k < 7 ==> !Play(s, rnd).hand[k].used) &&
      CardsOK(Play(s, rnd))
  {
    if |s.selectedSequence| > 0 && !s.isPlaying {
      var s1 := RunFrom(s.(isPlaying := true), 0, rnd);
      var s2 := React(s1, rnd);
      var s3 := s2.(isPlaying := false, currentCardIndex := -1, selectedSequence := []);
      assert Play(s, rnd) == Deal(s3, rnd);
      DealFresh(s3, rnd);
      var h := Deal(s3, rnd).hand;
      forall m | 0 <= m < |CardTypes| ensures CountUsed(h, CardTypes[m].name) == 0 {
        CountUsedNone(h, CardTypes[m].name);
      }
    }
  }
}
