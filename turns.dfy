/** The effect of one completed move on the cubies: the turn it makes, the
    slice it selects, and the exact rotation of that slice. */
module Turns {
  import opened Constants
  import opened Lattice
  import opened Cubies
  import opened MoveParser
  import opened CubeModel

  // ---------------------------------------------------------------------
  // The turn of a move

  /** A move the engine can animate: its face is a key of the table. */
  predicate Known(m: Move) {
    m.face in MoveDefinitions
  }

  predicate AllKnown(ms: seq<Move>) {
    forall k :: 0 <= k < |ms| ==> Known(ms[k])
  }

  /** The turn of a move in quarter-turns: the entry's base angle, times the
      direction, doubled for a half turn. */
  function TurnOf(m: Move): int
    requires Known(m)
  {
    MoveDefinitions[m.face].angle * m.direction * (if m.double then 2 else 1)
  }

  /** The move that undoes m: same face and width, opposite direction. */
  function Inverse(m: Move): (r: Move)
    ensures r.face == m.face && r.double == m.double
  {
    Move(m.face, -m.direction, m.double)
  }

  /** A parsed move turns by one or two quarter-turns, a half turn exactly when
      it is doubled, and the opposite direction turns the other way. */
  lemma TurnRange(m: Move)
    requires Known(m) && m.direction in {-1, 1}
    ensures TurnOf(m) in {-2, -1, 1, 2}
    ensures TurnOf(m) in {-2, 2} <==> m.double
    ensures TurnOf(Inverse(m)) == -TurnOf(m)
  {
    EntriesWellFormed();
    TurnOfInverse(m);
  }

  /** The inverse turns by the opposite amount. */
  lemma TurnOfInverse(m: Move)
    requires Known(m)
    ensures TurnOf(Inverse(m)) == -TurnOf(m)
  {
    var a := MoveDefinitions[m.face].angle;
    var k := if m.double then 2 else 1;
    assert TurnOf(m) == a * m.direction * k;
    assert TurnOf(Inverse(m)) == a * (-m.direction) * k;
  }

  // ---------------------------------------------------------------------
  // Turning a slice

  /** The cubies after the ones at indices `members` have been rotated about
      `axis` by `turns` quarter-turns and put back; all others are untouched
      and every cubie keeps its index. */
  function Reattach(cs: seq<Cubie>, members: seq<nat>, axis: Axis, turns: int): (r: seq<Cubie>)
    requires AllWellFormed(cs)
    ensures |r| == |cs| && AllWellFormed(r)
  {
    seq(|cs|, i requires 0 <= i < |cs| => if i in members then RotateCubie(cs[i], axis, turns) else cs[i])
  }

  /** Indices into a sequence of `n` cubies, in strictly increasing order,
      as `Select` yields them. */
  predicate SortedIndices(members: seq<nat>, n: nat) {
    && (forall k :: 0 <= k < |members| ==> members[k] < n)
    && (forall k, l :: 0 <= k < l < |members| ==> members[k] < members[l])
  }

  /** Putting back one more member rotates exactly that cubie, which had not
      moved before. */
  lemma ReattachStep(cs: seq<Cubie>, members: seq<nat>, k: nat, axis: Axis, turns: int)
    requires AllWellFormed(cs) && SortedIndices(members, |cs|) && k < |members|
    ensures members[k] !in members[..k]
    ensures Reattach(cs, members[..k], axis, turns)[members[k]] == cs[members[k]]
    ensures Reattach(cs, members[..k + 1], axis, turns)
      == Reattach(cs, members[..k], axis, turns)[members[k] := RotateCubie(cs[members[k]], axis, turns)]
  {
    assert members[..k + 1] == members[..k] + [members[k]];
  }

  /** The cubies after the slice `slice` along `axis` has turned by `turns`. */
  function TurnSlice(cs: seq<Cubie>, axis: Axis, slice: int, turns: int): (r: seq<Cubie>)
    requires AllWellFormed(cs)
    ensures |r| == |cs| && AllWellFormed(r)
  {
    Reattach(cs, Select(cs, axis, slice), axis, turns)
  }

  /** The cubies after move m has completed. */
  function ApplyMove(cs: seq<Cubie>, m: Move): (r: seq<Cubie>)
    requires AllWellFormed(cs) && Known(m)
    ensures |r| == |cs| && AllWellFormed(r)
  {
    var d := MoveDefinitions[m.face];
    TurnSlice(cs, d.axis, d.slice, TurnOf(m))
  }

  /** The cubies after the moves have completed one after another. */
  function ApplyMoves(cs: seq<Cubie>, ms: seq<Move>): (r: seq<Cubie>)
    requires AllWellFormed(cs) && AllKnown(ms)
    ensures |r| == |cs| && AllWellFormed(r)
    decreases ms
  {
    if ms == [] then cs else ApplyMoves(ApplyMove(cs, ms[0]), ms[1..])
  }

  // ---------------------------------------------------------------------
  // What a turn does

  /** A cubie in the slice is rotated, colours included, and lands on the
      rotated position; a cubie outside the slice does not change at all. */
  lemma TurnSliceEffect(cs: seq<Cubie>, axis: Axis, slice: int, turns: int)
    requires AllWellFormed(cs)
    ensures forall i :: 0 <= i < |cs| && InSlice(cs[i].position.Get(axis), slice) ==>
      && TurnSlice(cs, axis, slice, turns)[i] == RotateCubie(cs[i], axis, turns)
      && TurnSlice(cs, axis, slice, turns)[i].position == Rotate(cs[i].position, axis, turns)
    ensures forall i :: 0 <= i < |cs| && !InSlice(cs[i].position.Get(axis), slice) ==>
      TurnSlice(cs, axis, slice, turns)[i] == cs[i]
  {
    forall i | 0 <= i < |cs| && InSlice(cs[i].position.Get(axis), slice)
      ensures TurnSlice(cs, axis, slice, turns)[i].position == Rotate(cs[i].position, axis, turns)
    {
      RotateCubiePosition(cs[i], axis, turns);
    }
  }

  /** Turning keeps every cubie's coordinate along the axis, so the turned
      slice, and every other slice along the same axis, holds the same
      cubies afterwards. */
  lemma TurnSliceKeepsSelection(cs: seq<Cubie>, axis: Axis, slice: int, turns: int)
    requires AllWellFormed(cs)
    ensures Select(TurnSlice(cs, axis, slice, turns), axis, slice) == Select(cs, axis, slice)
    ensures forall other :: Select(TurnSlice(cs, axis, slice, turns), axis, other) == Select(cs, axis, other)
  {
    var r := TurnSlice(cs, axis, slice, turns);
    TurnSliceEffect(cs, axis, slice, turns);
    forall i | 0 <= i < |cs|
      ensures r[i].position.Get(axis) == cs[i].position.Get(axis)
    {
      RotateFacts(cs[i].position, cs[i].position, axis, turns);
    }
    forall other {
      SelectSameCoordinates(r, cs, axis, other);
    }
  }

  /** A turn maps a cube at rest to a cube at rest: still 26 outward-coloured
      cubies on distinct non-origin lattice points. */
  lemma TurnSliceKeepsValid(cs: seq<Cubie>, axis: Axis, slice: int, turns: int)
    requires ValidCube(cs)
    ensures ValidCube(TurnSlice(cs, axis, slice, turns))
  {
    var r := TurnSlice(cs, axis, slice, turns);
    TurnSliceEffect(cs, axis, slice, turns);
    forall i | 0 <= i < |r|
      ensures Outward(r[i]) && OnLattice(r[i].position) && r[i].position != Origin
      ensures r[i].position.Get(axis) == cs[i].position.Get(axis)
    {
      RotateFacts(cs[i].position, cs[i].position, axis, turns);
      if InSlice(cs[i].position.Get(axis), slice) {
        RotateKeepsOutward(cs[i], axis, turns);
      }
    }
    forall i, j | 0 <= i < j < |r|
      ensures r[i].position != r[j].position
    {
      RotateFacts(cs[i].position, cs[j].position, axis, turns);
    }
  }

  /** Two turns of the same slice compose into one turn by the sum `u` of
      their turn counts. The sum is a parameter so that the solver matches
      `u` syntactically instead of unfolding `s + t` inside `TurnSlice`. */
  lemma TurnSliceCompose(cs: seq<Cubie>, axis: Axis, slice: int, s: int, t: int, u: int)
    requires AllWellFormed(cs) && u == s + t
    ensures TurnSlice(TurnSlice(cs, axis, slice, s), axis, slice, t) == TurnSlice(cs, axis, slice, u)
  {
    var members := Select(cs, axis, slice);
    var once := Reattach(cs, members, axis, s);
    TurnSliceKeepsSelection(cs, axis, slice, s);
    var twice := Reattach(once, members, axis, t);
    var direct := Reattach(cs, members, axis, u);
    forall i | 0 <= i < |cs|
      ensures twice[i] == direct[i]
    {
      if i in members {
        RotateCubieCompose(cs[i], axis, s, t, u);
      }
    }
    assert twice == direct;
  }

  /** A whole number of full turns leaves every cubie as it was. */
  lemma TurnSliceFullTurn(cs: seq<Cubie>, axis: Axis, slice: int, turns: int)
    requires AllWellFormed(cs) && turns % 4 == 0
    ensures TurnSlice(cs, axis, slice, turns) == cs
  {
  }

  /** Turning a slice twice by the same amount turns it by twice that. */
  lemma TurnSliceTwice(cs: seq<Cubie>, axis: Axis, slice: int, t: int)
    requires AllWellFormed(cs)
    ensures TurnSlice(TurnSlice(cs, axis, slice, t), axis, slice, t) == TurnSlice(cs, axis, slice, 2 * t)
  {
    TurnSliceCompose(cs, axis, slice, t, t, 2 * t);
  }

  /** Four equal turns of a slice restore the cubies. */
  lemma TurnSliceFourTimes(cs: seq<Cubie>, axis: Axis, slice: int, t: int)
    requires AllWellFormed(cs)
    ensures var c2 := TurnSlice(TurnSlice(cs, axis, slice, t), axis, slice, t);
      TurnSlice(TurnSlice(c2, axis, slice, t), axis, slice, t) == cs
  {
    var c2 := TurnSlice(TurnSlice(cs, axis, slice, t), axis, slice, t);
    TurnSliceTwice(cs, axis, slice, t);
    TurnSliceTwice(c2, axis, slice, t);
    var half := 2 * t;
    TurnSliceCompose(cs, axis, slice, half, half, 4 * t);
    assert 4 * t % 4 == 0;
    TurnSliceFullTurn(cs, axis, slice, 4 * t);
  }

  /** Two equal half turns of a slice restore the cubies. */
  lemma TurnSliceHalfTurnTwice(cs: seq<Cubie>, axis: Axis, slice: int, t: int, h: int)
    requires AllWellFormed(cs) && t == 2 * h
    ensures TurnSlice(TurnSlice(cs, axis, slice, t), axis, slice, t) == cs
  {
    TurnSliceCompose(cs, axis, slice, t, t, 4 * h);
    TurnSliceFullTurn(cs, axis, slice, 4 * h);
  }

  /** A move followed by its inverse restores the cubies exactly. */
  lemma ApplyMoveThenInverse(cs: seq<Cubie>, m: Move)
    requires AllWellFormed(cs) && Known(m)
    ensures ApplyMove(ApplyMove(cs, m), Inverse(m)) == cs
  {
    var d := MoveDefinitions[m.face];
    var inv := Inverse(m);
    assert MoveDefinitions[inv.face] == d;
    TurnOfInverse(m);
    TurnSliceCompose(cs, d.axis, d.slice, TurnOf(m), TurnOf(inv), 0);
    TurnSliceFullTurn(cs, d.axis, d.slice, 0);
  }

  /** A move applied twice turns its slice by twice its turn. */
  lemma ApplyMoveTwice(cs: seq<Cubie>, m: Move)
    requires AllWellFormed(cs) && Known(m)
    ensures var d := MoveDefinitions[m.face];
      ApplyMove(ApplyMove(cs, m), m) == TurnSlice(cs, d.axis, d.slice, 2 * TurnOf(m))
  {
    var d := MoveDefinitions[m.face];
    TurnSliceTwice(cs, d.axis, d.slice, TurnOf(m));
  }

  /** A move applied four times restores the cubies, and a half-turn move
      applied twice already does. */
  lemma MoveOrder(cs: seq<Cubie>, m: Move)
    requires AllWellFormed(cs) && Known(m)
    ensures ApplyMove(ApplyMove(ApplyMove(ApplyMove(cs, m), m), m), m) == cs
    ensures m.double ==> ApplyMove(ApplyMove(cs, m), m) == cs
  {
    var d := MoveDefinitions[m.face];
    var t := TurnOf(m);
    TurnSliceFourTimes(cs, d.axis, d.slice, t);
    if m.double {
      var h := d.angle * m.direction;
      assert t == 2 * h;
      TurnSliceHalfTurnTwice(cs, d.axis, d.slice, t, h);
    }
  }

  /** Running a move followed by more moves is running the move, then the
      rest. */
  lemma ApplyMovesCons(cs: seq<Cubie>, m: Move, rest: seq<Move>)
    requires AllWellFormed(cs) && Known(m) && AllKnown(rest)
    ensures AllKnown([m] + rest)
    ensures ApplyMoves(cs, [m] + rest) == ApplyMoves(ApplyMove(cs, m), rest)
  {
    assert ([m] + rest)[1..] == rest;
  }

  /** Queuing one move four times restores the cubies. */
  lemma FourMovesRestore(cs: seq<Cubie>, m: Move)
    requires AllWellFormed(cs) && Known(m)
    ensures AllKnown([m, m, m, m])
    ensures ApplyMoves(cs, [m, m, m, m]) == cs
  {
    var c1 := ApplyMove(cs, m);
    var c2 := ApplyMove(c1, m);
    var c3 := ApplyMove(c2, m);
    ApplyMovesCons(c3, m, []);
    assert [m] + [] == [m];
    ApplyMovesCons(c2, m, [m]);
    assert [m] + [m] == [m, m];
    ApplyMovesCons(c1, m, [m, m]);
    assert [m] + [m, m] == [m, m, m];
    ApplyMovesCons(cs, m, [m, m, m]);
    assert [m] + [m, m, m] == [m, m, m, m];
    MoveOrder(cs, m);
  }

  /** Moves complete in sequence: running a + b is running a, then b. */
  lemma {:induction false} ApplyMovesAppend(cs: seq<Cubie>, a: seq<Move>, b: seq<Move>)
    requires AllWellFormed(cs) && AllKnown(a) && AllKnown(b)
    ensures AllKnown(a + b)
    ensures ApplyMoves(cs, a + b) == ApplyMoves(ApplyMoves(cs, a), b)
    decreases a
  {
    assert AllKnown(a + b);
    if a != [] {
      assert (a + b)[1..] == a[1..] + b;
      ApplyMovesAppend(ApplyMove(cs, a[0]), a[1..], b);
    } else {
      assert a + b == b;
    }
  }

  /** A sequence of moves maps a cube at rest to a cube at rest. */
  lemma {:induction false} ApplyMovesKeepValid(cs: seq<Cubie>, ms: seq<Move>)
    requires ValidCube(cs) && AllKnown(ms)
    ensures ValidCube(ApplyMoves(cs, ms))
    decreases ms
  {
    if ms != [] {
      var d := MoveDefinitions[ms[0].face];
      TurnSliceKeepsValid(cs, d.axis, d.slice, TurnOf(ms[0]));
      ApplyMovesKeepValid(ApplyMove(cs, ms[0]), ms[1..]);
    }
  }

  /** Every move the parser yields can be animated. */
  lemma ParsedMovesKnown(input: string)
    ensures AllKnown(Parse(input))
  {
    ParseFaces(input);
  }
}
