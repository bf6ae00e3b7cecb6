/** Properties of scoring and of the chained push. */
module PushFacts {
  import opened Seqs
  import opened Grid
  import opened Herd
  import opened Rules

  /** Every cow but the one at index `i` rests on the board, and no id occurs twice. */
  predicate CowsOKExcept(cows: seq<Cow>, i: nat) {
    (forall j :: 0 <= j < |cows| && j != i ==> OnBoard(cows[j].x, cows[j].y)) &&
    (forall j, k :: 0 <= j < k < |cows| ==> cows[j].id != cows[k].id)
  }

  lemma RemoveAtIndex(cows: seq<Cow>, i: nat, j: nat)
    requires i < |cows| && j < |cows| - 1
    ensures RemoveAt(cows, i)[j] == if j < i then cows[j] else cows[j + 1]
  {
  }

  /** Removing a cow keeps the rest, with their ids, and removes no cow but that one. */
  lemma RemoveAtKeepsRest(cows: seq<Cow>, i: nat)
    requires i < |cows|
    ensures forall c :: c in cows && c != cows[i] ==> c in RemoveAt(cows, i)
    ensures CowsOKExcept(cows, i) ==> CowsOK(RemoveAt(cows, i))
  {
    var r := RemoveAt(cows, i);
    forall c | c in cows && c != cows[i] ensures c in r {
      var j :| 0 <= j < |cows| && cows[j] == c;
      if j < i {
        RemoveAtIndex(cows, i, j);
      } else {
        RemoveAtIndex(cows, i, j - 1);
      }
    }
    if CowsOKExcept(cows, i) {
      forall j | 0 <= j < |r| ensures OnBoard(r[j].x, r[j].y) {
        RemoveAtIndex(cows, i, j);
      }
      forall j, k | 0 <= j < k < |r| ensures r[j].id != r[k].id {
        RemoveAtIndex(cows, i, j);
        RemoveAtIndex(cows, i, k);
      }
    }
  }

  /** checkCowScoringAndLoss: a cow in the pen is scored and removed; otherwise a cow off
      the grid is lost and removed; otherwise nothing changes. After a removal the remaining
      counter equals the number of cows. */
  lemma ScoringCases(s: State, i: nat)
    requires i < |s.cows|
    ensures var c, r := s.cows[i], Scoring(s, i);
      (IsPen(c.x, c.y) ==>
         r.cowsScored == s.cowsScored + 1 && r.cowsLost == s.cowsLost &&
         r.cows == RemoveAt(s.cows, i) && Counted(r)) &&
      (!IsPen(c.x, c.y) && !InGrid(c.x, c.y) ==>
         r.cowsLost == s.cowsLost + 1 && r.cowsScored == s.cowsScored &&
         r.cows == RemoveAt(s.cows, i) && Counted(r)) &&
      (OnBoard(c.x, c.y) ==> r == s)
  {
  }

  /** Scoring keeps the tally and the invariants, and restores the cow invariant when only
      the cow it checks may be off the board. */
  lemma ScoringKeeps(s: State, i: nat)
    requires i < |s.cows|
    ensures Keeps(s, Scoring(s, i))
    ensures CowsOKExcept(s.cows, i) ==> CowsOK(Scoring(s, i).cows)
  {
    var c := s.cows[i];
    if !OnBoard(c.x, c.y) {
      RemoveAtKeepsRest(s.cows, i);
    }
  }

  /** Writing a record with the same id keeps the ids distinct. */
  lemma WriteKeepsIds(cows: seq<Cow>, i: nat, c: Cow, w: seq<Cow>)
    requires i < |cows| && cows[i].id == c.id && w == cows[i := c]
    ensures CowsOK(cows) ==> CowsOKExcept(w, i)
  {
  }

  /** Landing keeps the tally and the invariants. */
  lemma LandKeeps(s: State, cow: Cow, tx: int, ty: int)
    ensures Keeps(s, Land(s, cow, tx, ty))
  {
    match IndexOfId(s.cows, cow.id) {
      case Some(i) =>
        var moved := Cow(cow.id, tx, ty, cow.color);
        WriteKeepsIds(s.cows, i, moved, s.cows[i := moved]);
        ScoringKeeps(s.(cows := s.cows[i := moved]), i);
      case None =>
    }
  }

  /** Push unfolded once when a different cow stands on the target. */
  lemma PushChained(s: State, cow: Cow, tx: int, ty: int, k: nat, nx: int, ny: int)
    requires IsUnit(Vec(tx - cow.x, ty - cow.y))
    requires nx == tx + (tx - cow.x) && ny == ty + (ty - cow.y)
    requires !Refused(s, tx, ty) && OtherCowAt(s.cows, tx, ty, cow.id) == Some(k)
    ensures Push(s, cow, tx, ty) == Land(Push(s, s.cows[k], nx, ny), cow, tx, ty)
  {
    var v := Vec(tx - cow.x, ty - cow.y);
    assert nx == tx + v.dx && ny == ty + v.dy;
  }

  /** Push unfolded once when the target is free of other cows. */
  lemma PushDirect(s: State, cow: Cow, tx: int, ty: int)
    requires IsUnit(Vec(tx - cow.x, ty - cow.y))
    requires !Refused(s, tx, ty) && OtherCowAt(s.cows, tx, ty, cow.id).None?
    ensures Push(s, cow, tx, ty) == Land(s, cow, tx, ty)
  {
  }

  lemma KeepsTrans(a: State, b: State, c: State)
    requires Keeps(a, b) && Keeps(b, c)
    ensures Keeps(a, c)
  {
  }

  /** The step of PushKeeps after the nested push. */
  lemma KeptAfterChain(s: State, cow: Cow, tx: int, ty: int, k: nat, nx: int, ny: int)
    requires IsUnit(Vec(tx - cow.x, ty - cow.y))
    requires nx == tx + (tx - cow.x) && ny == ty + (ty - cow.y)
    requires !Refused(s, tx, ty) && OtherCowAt(s.cows, tx, ty, cow.id) == Some(k)
    requires Keeps(s, Push(s, s.cows[k], nx, ny))
    ensures Keeps(s, Push(s, cow, tx, ty))
  {
    PushChained(s, cow, tx, ty, k, nx, ny);
    var s1 := Push(s, s.cows[k], nx, ny);
    LandKeeps(s1, cow, tx, ty);
    KeepsTrans(s, s1, Land(s1, cow, tx, ty));
  }

  /** Every push keeps the tally, the remaining counter's agreement and the cow invariant. */
  lemma {:induction false} PushKeeps(s: State, cow: Cow, tx: int, ty: int)
    requires IsUnit(Vec(tx - cow.x, ty - cow.y))
    ensures Keeps(s, Push(s, cow, tx, ty))
    decreases CowsAhead(s.cows, tx, ty, Vec(tx - cow.x, ty - cow.y))
  {
    if Refused(s, tx, ty) {
      KeepsRefl(s);
    } else {
      var o := OtherCowAt(s.cows, tx, ty, cow.id);
      if o.Some? {
        var k := o.value;
        var nx, ny := tx + (tx - cow.x), ty + (ty - cow.y);
        var v := Vec(tx - cow.x, ty - cow.y);
        assert Vec(nx - s.cows[k].x, ny - s.cows[k].y) == v;
        CowsAheadDrops(s.cows, k, tx, ty, v);
        PushKeeps(s, s.cows[k], nx, ny);
        KeptAfterChain(s, cow, tx, ty, k, nx, ny);
      } else {
        PushDirect(s, cow, tx, ty);
        LandKeeps(s, cow, tx, ty);
      }
    }
  }

  /** A refused chained push does not stop the pushing cow: with a fence behind the cow on
      the target, the pushed cow still moves in, and the two share a cell. */
  lemma SharedCellWitness()
    ensures var a, b := Cow(0, 3, 3, Red), Cow(1, 4, 3, Green);
      var s := State(Dog(0, 0, 0), [a, b], [Cell(5, 3)], 2, 0, 0, [], [], false, -1, 0);
      Push(s, a, 4, 3).cows == [Cow(0, 4, 3, Red), b]
  {
    var a, b := Cow(0, 3, 3, Red), Cow(1, 4, 3, Green);
    var s := State(Dog(0, 0, 0), [a, b], [Cell(5, 3)], 2, 0, 0, [], [], false, -1, 0);
    assert s.cows[0] == a && s.cows[1] == b;
    assert OtherCowAt(s.cows, 4, 3, 0) == Some(1);
    assert Refused(s, 5, 3);
    PushChained(s, a, 4, 3, 1, 5, 3);
    PushRefused(s, b, 5, 3);
    assert IndexOfId(s.cows, 0) == Some(0);
  }

  /** The parts of PushKeeps that PushLive needs. */
  lemma PushKeepsHerd(s: State, cow: Cow, tx: int, ty: int)
    requires IsUnit(Vec(tx - cow.x, ty - cow.y))
    ensures CowsOK(s.cows) ==> CowsOK(Push(s, cow, tx, ty).cows)
    ensures Push(s, cow, tx, ty).cowsScored >= s.cowsScored
    ensures Push(s, cow, tx, ty).cowsLost >= s.cowsLost
  {
    PushKeeps(s, cow, tx, ty);
  }

  lemma KeepsRefl(s: State)
    ensures Keeps(s, s)
  {
  }

  /** A push onto the dog's cell or onto a fence changes nothing. */
  lemma PushRefused(s: State, cow: Cow, tx: int, ty: int)
    requires IsUnit(Vec(tx - cow.x, ty - cow.y))
    requires Refused(s, tx, ty)
    ensures Push(s, cow, tx, ty) == s
  {
  }

  /** Landing brings no id into the herd that was not there. */
  lemma LandNoNewIds(s: State, cow: Cow, tx: int, ty: int, id: nat)
    requires HasId(Land(s, cow, tx, ty).cows, id)
    ensures HasId(s.cows, id)
  {
    var r := Land(s, cow, tx, ty).cows;
    var m :| 0 <= m < |r| && r[m].id == id;
    match IndexOfId(s.cows, cow.id) {
      case Some(i) =>
        var w := s.cows[i := Cow(cow.id, tx, ty, cow.color)];
        if r == w {
          assert s.cows[m].id == id;
        } else {
          RemoveAtIndex(w, i, m);
          var n := if m < i then m else m + 1;
          assert s.cows[n].id == id;
        }
      case None =>
    }
  }

  /** A push, chained or not, brings no id into the herd that was not there. */
  lemma {:induction false} PushNoNewIds(s: State, cow: Cow, tx: int, ty: int, id: nat)
    requires IsUnit(Vec(tx - cow.x, ty - cow.y))
    ensures HasId(Push(s, cow, tx, ty).cows, id) ==> HasId(s.cows, id)
    decreases CowsAhead(s.cows, tx, ty, Vec(tx - cow.x, ty - cow.y))
  {
    if !Refused(s, tx, ty) {
      var o := OtherCowAt(s.cows, tx, ty, cow.id);
      if o.Some? {
        var k := o.value;
        var nx, ny := tx + (tx - cow.x), ty + (ty - cow.y);
        var v := Vec(tx - cow.x, ty - cow.y);
        assert Vec(nx - s.cows[k].x, ny - s.cows[k].y) == v;
        CowsAheadDrops(s.cows, k, tx, ty, v);
        PushNoNewIds(s, s.cows[k], nx, ny, id);
        NoNewIdsAfterChain(s, cow, tx, ty, k, nx, ny, id);
      } else {
        PushDirect(s, cow, tx, ty);
        if HasId(Land(s, cow, tx, ty).cows, id) {
          LandNoNewIds(s, cow, tx, ty, id);
        }
      }
    }
  }

  /** The step of PushNoNewIds after the nested push. */
  lemma NoNewIdsAfterChain(s: State, cow: Cow, tx: int, ty: int, k: nat, nx: int, ny: int, id: nat)
    requires IsUnit(Vec(tx - cow.x, ty - cow.y))
    requires nx == tx + (tx - cow.x) && ny == ty + (ty - cow.y)
    requires !Refused(s, tx, ty) && OtherCowAt(s.cows, tx, ty, cow.id) == Some(k)
    requires HasId(Push(s, s.cows[k], nx, ny).cows, id) ==> HasId(s.cows, id)
    ensures HasId(Push(s, cow, tx, ty).cows, id) ==> HasId(s.cows, id)
  {
    PushChained(s, cow, tx, ty, k, nx, ny);
    var s1 := Push(s, s.cows[k], nx, ny);
    if HasId(Land(s1, cow, tx, ty).cows, id) {
      LandNoNewIds(s1, cow, tx, ty, id);
    }
  }

  /** Landing a cow whose id has left the herd changes nothing. */
  lemma LandAbsent(s: State, cow: Cow, tx: int, ty: int)
    requires !HasId(s.cows, cow.id)
    ensures Land(s, cow, tx, ty) == s
  {
  }

  /** Pushing a record whose cow has already left the herd (scored or lost earlier) still
      pushes on a different cow found on the target, and does nothing more. */
  lemma PushSkipsStale(s: State, cow: Cow, tx: int, ty: int, k: nat, nx: int, ny: int)
    requires IsUnit(Vec(tx - cow.x, ty - cow.y))
    requires nx == tx + (tx - cow.x) && ny == ty + (ty - cow.y)
    requires !Refused(s, tx, ty) && OtherCowAt(s.cows, tx, ty, cow.id) == Some(k)
    requires !HasId(s.cows, cow.id)
    ensures Push(s, cow, tx, ty) == Push(s, s.cows[k], nx, ny)
  {
    PushChained(s, cow, tx, ty, k, nx, ny);
    PushNoNewIds(s, s.cows[k], nx, ny, cow.id);
    LandAbsent(Push(s, s.cows[k], nx, ny), cow, tx, ty);
  }

  /** Without a cow on the target to push on, such a push changes nothing. */
  lemma PushStaleAlone(s: State, cow: Cow, tx: int, ty: int)
    requires IsUnit(Vec(tx - cow.x, ty - cow.y))
    requires OtherCowAt(s.cows, tx, ty, cow.id).None? && !HasId(s.cows, cow.id)
    ensures Push(s, cow, tx, ty) == s
  {
    if !Refused(s, tx, ty) {
      PushDirect(s, cow, tx, ty);
      LandAbsent(s, cow, tx, ty);
    }
  }

  /** No two live cows share an id. */
  predicate UniqueIds(cows: seq<Cow>) {
    forall j, k :: 0 <= j < k < |cows| ==> cows[j].id != cows[k].id
  }

  /** Landing leaves every cow with another id in place. */
  lemma LandSpares(s: State, cow: Cow, tx: int, ty: int, c: Cow)
    requires c in s.cows && c.id != cow.id
    ensures c in Land(s, cow, tx, ty).cows
  {
    match IndexOfId(s.cows, cow.id) {
      case Some(i) =>
        var w := s.cows[i := Cow(cow.id, tx, ty, cow.color)];
        var j :| 0 <= j < |s.cows| && s.cows[j] == c;
        assert w[j] == c;
        RemoveAtKeepsRest(w, i);
      case None =>
    }
  }

  /** The step of PushSparesBystanders after the nested push. */
  lemma SparedAfterChain(s: State, cow: Cow, tx: int, ty: int, k: nat, nx: int, ny: int, c: Cow)
    requires IsUnit(Vec(tx - cow.x, ty - cow.y))
    requires nx == tx + (tx - cow.x) && ny == ty + (ty - cow.y)
    requires !Refused(s, tx, ty) && OtherCowAt(s.cows, tx, ty, cow.id) == Some(k)
    requires c.id != cow.id && c in Push(s, s.cows[k], nx, ny).cows
    ensures c in Push(s, cow, tx, ty).cows
  {
    PushChained(s, cow, tx, ty, k, nx, ny);
    LandSpares(Push(s, s.cows[k], nx, ny), cow, tx, ty, c);
  }

  /** A chained push along `v` from (tx, ty) leaves alone every cow that is not the pushed
      one and does not stand on the ray ahead of the target. */
  lemma {:induction false} PushSparesBystanders(s: State, cow: Cow, tx: int, ty: int, c: Cow)
    requires IsUnit(Vec(tx - cow.x, ty - cow.y))
    requires UniqueIds(s.cows)
    requires c in s.cows && c.id != cow.id && !Ahead(c, tx, ty, Vec(tx - cow.x, ty - cow.y))
    ensures c in Push(s, cow, tx, ty).cows
    decreases CowsAhead(s.cows, tx, ty, Vec(tx - cow.x, ty - cow.y))
  {
    if Refused(s, tx, ty) {
    } else {
      var v := Vec(tx - cow.x, ty - cow.y);
      var o := OtherCowAt(s.cows, tx, ty, cow.id);
      if o.Some? {
        var k := o.value;
        var nx, ny := tx + (tx - cow.x), ty + (ty - cow.y);
        assert Vec(nx - s.cows[k].x, ny - s.cows[k].y) == v;
        var j :| 0 <= j < |s.cows| && s.cows[j] == c;
        assert j != k;
        CowsAheadDrops(s.cows, k, tx, ty, v);
        PushSparesBystanders(s, s.cows[k], nx, ny, c);
        SparedAfterChain(s, cow, tx, ty, k, nx, ny, c);
      } else {
        PushDirect(s, cow, tx, ty);
        LandSpares(s, cow, tx, ty, c);
      }
    }
  }

  /** The herd after `cow` was put on (tx, ty): it rests there if that is on the board, and
      it is gone otherwise. */
  predicate LandedAt(cows: seq<Cow>, cow: Cow, tx: int, ty: int) {
    (OnBoard(tx, ty) ==> Cow(cow.id, tx, ty, cow.color) in cows) &&
    (!OnBoard(tx, ty) ==> !HasId(cows, cow.id))
  }

  /** Landing the cow that is in the herd puts it on (tx, ty) if that is on the board, and
      otherwise removes it, scoring it in the pen and losing it off the grid. */
  lemma LandLive(s: State, cow: Cow, tx: int, ty: int)
    requires UniqueIds(s.cows) && cow in s.cows
    ensures LandedAt(Land(s, cow, tx, ty).cows, cow, tx, ty)
    ensures IsPen(tx, ty) ==> Land(s, cow, tx, ty).cowsScored == s.cowsScored + 1
    ensures !InGrid(tx, ty) ==> Land(s, cow, tx, ty).cowsLost == s.cowsLost + 1
  {
    var j :| 0 <= j < |s.cows| && s.cows[j] == cow;
    match IndexOfId(s.cows, cow.id) {
      case Some(i) =>
        assert i == j;
        var moved := Cow(cow.id, tx, ty, cow.color);
        var w := s.cows[i := moved];
        assert w[i] == moved;
        if !OnBoard(tx, ty) {
          var r := RemoveAt(w, i);
          forall m | 0 <= m < |r| ensures r[m].id != cow.id {
            RemoveAtIndex(w, i, m);
          }
        }
      case None =>
        assert false;
    }
  }

  /** Pushing a live cow one step onto a cell that is neither the dog's nor fenced always
      lands it there: it rests on the target if that is on the board, and is otherwise gone
      from the herd, scored if the target is in the pen and lost if it is off the grid. This
      holds even when the cell was occupied, because the chain only moves cows ahead of the
      target. */
  lemma PushLive(s: State, cow: Cow, tx: int, ty: int)
    requires IsUnit(Vec(tx - cow.x, ty - cow.y))
    requires CowsOK(s.cows) && cow in s.cows
    requires !Refused(s, tx, ty)
    ensures LandedAt(Push(s, cow, tx, ty).cows, cow, tx, ty)
    ensures IsPen(tx, ty) ==> Push(s, cow, tx, ty).cowsScored > s.cowsScored
    ensures !InGrid(tx, ty) ==> Push(s, cow, tx, ty).cowsLost > s.cowsLost
  {
    var v := Vec(tx - cow.x, ty - cow.y);
    var o := OtherCowAt(s.cows, tx, ty, cow.id);
    if o.Some? {
      var k := o.value;
      var nx, ny := tx + (tx - cow.x), ty + (ty - cow.y);
      assert Vec(nx - s.cows[k].x, ny - s.cows[k].y) == v;
      PushChained(s, cow, tx, ty, k, nx, ny);
      PushSparesBystanders(s, s.cows[k], nx, ny, cow);
      PushKeepsHerd(s, s.cows[k], nx, ny);
      LiveAfterChain(s, Push(s, s.cows[k], nx, ny), cow, tx, ty);
    } else {
      PushDirect(s, cow, tx, ty);
      LandLive(s, cow, tx, ty);
    }
  }

  /** The step of PushLive after the nested push. */
  lemma LiveAfterChain(s: State, s1: State, cow: Cow, tx: int, ty: int)
    requires UniqueIds(s1.cows) && cow in s1.cows
    requires s1.cowsScored >= s.cowsScored && s1.cowsLost >= s.cowsLost
    ensures LandedAt(Land(s1, cow, tx, ty).cows, cow, tx, ty)
    ensures IsPen(tx, ty) ==> Land(s1, cow, tx, ty).cowsScored > s.cowsScored
    ensures !InGrid(tx, ty) ==> Land(s1, cow, tx, ty).cowsLost > s.cowsLost
  {
    LandLive(s1, cow, tx, ty);
  }
}
