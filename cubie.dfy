/** A cubie: one of the 26 visible sub-cubes, with a position and one colour
    slot per outward normal direction. */
module Cubies {
  import opened Constants
  import opened Lattice

  /** A colour slot: the normal it faces (`dir` along `axis`) and the sticker
      colour it shows when that normal points out of the cube. */
  datatype FaceSlot = FaceSlot(axis: Axis, dir: int, color: Color)

  /** The six slots, in the order +x, -x, +y, -y, +z, -z. */
  const FaceMapping: seq<FaceSlot> := [
    FaceSlot(X, 1, FaceColors['R']),   // right
    FaceSlot(X, -1, FaceColors['L']),  // left
    FaceSlot(Y, 1, FaceColors['U']),   // up
    FaceSlot(Y, -1, FaceColors['D']),  // down
    FaceSlot(Z, 1, FaceColors['F']),   // front
    FaceSlot(Z, -1, FaceColors['B'])   // back
  ]

  /** `colors[i]` is the colour shown towards the normal of `FaceMapping[i]`. */
  datatype Cubie = Cubie(position: Vec, colors: seq<Color>)

  predicate WellFormed(c: Cubie) {
    |c.colors| == |FaceMapping|
  }

  /** The slot's normal points out of the cube: the cubie sits in the outer
      layer on that side. */
  predicate IsExternalFace(position: Vec, slot: FaceSlot) {
    position.Get(slot.axis) == slot.dir * CubieSize
  }

  /** The colouring rule of a newly made cubie: a slot shows its face colour
      when it is external and the blank colour otherwise. */
  function SlotColor(position: Vec, slot: FaceSlot): Color {
    if IsExternalFace(position, slot) then slot.color else Blank
  }

  /** The cubie that `CreateCubie` makes. */
  function NewCubie(position: Vec): (c: Cubie)
    ensures WellFormed(c) && c.position == position
  {
    Cubie(position, seq(|FaceMapping|, i requires 0 <= i < |FaceMapping| => SlotColor(position, FaceMapping[i])))
  }

  /** Builds a cubie at `position`, colouring its six slots one at a time. */
  method CreateCubie(position: Vec) returns (cubie: Cubie)
    ensures cubie == NewCubie(position)
  {
    var materials: seq<Color> := [];
    for i := 0 to |FaceMapping|
      invariant materials == NewCubie(position).colors[..i]
    {
      var slot := FaceMapping[i];
      var isExternalFace := position.Get(slot.axis) == slot.dir * CubieSize;
      materials := materials + [if isExternalFace then slot.color else Blank];
    }
    cubie := Cubie(position, materials);
  }

  /** Every slot that shows a non-blank colour faces out of the cube, and every
      slot that faces out shows a non-blank colour. */
  predicate Outward(c: Cubie)
    requires WellFormed(c)
  {
    forall i :: 0 <= i < |FaceMapping| ==> (c.colors[i] != Blank <==> IsExternalFace(c.position, FaceMapping[i]))
  }

  /** Number of slots that show a sticker colour. */
  function ColoredCount(colors: seq<Color>): nat {
    if colors == [] then 0 else ColoredCount(colors[..|colors| - 1]) + (if colors[|colors| - 1] != Blank then 1 else 0)
  }

  function NonZeroCount(v: Vec): nat {
    (if v.x != 0 then 1 else 0) + (if v.y != 0 then 1 else 0) + (if v.z != 0 then 1 else 0)
  }

  /** A new cubie shows slot i's face colour exactly when slot i faces out,
      and the blank colour otherwise, so its colouring is outward. */
  lemma NewCubieColoring(position: Vec)
    ensures Outward(NewCubie(position))
    ensures forall i :: 0 <= i < |FaceMapping| ==>
      NewCubie(position).colors[i] == (if IsExternalFace(position, FaceMapping[i]) then FaceMapping[i].color else Blank)
  {
    FaceColorsDistinct();
  }

  /** Of two opposite slots at most one is coloured, so an outward cubie has at
      most three coloured slots; on the lattice it has exactly as many as it
      has non-zero coordinates (a corner three, an edge two, a centre one). */
  lemma ColoredSlots(c: Cubie)
    requires WellFormed(c) && Outward(c)
    ensures forall k :: 0 <= k < 3 ==> c.colors[2 * k] == Blank || c.colors[2 * k + 1] == Blank
    ensures ColoredCount(c.colors) <= 3
    ensures OnLattice(c.position) ==> ColoredCount(c.colors) == NonZeroCount(c.position)
  {
    var s := c.colors;
    assert s[..6] == s;
    assert forall n :: 1 <= n <= 6 ==> s[..n][..n - 1] == s[..n - 1];
    assert ColoredCount(s[..1]) == (if s[0] != Blank then 1 else 0);
    assert ColoredCount(s[..2]) == ColoredCount(s[..1]) + (if s[1] != Blank then 1 else 0);
    assert ColoredCount(s[..3]) == ColoredCount(s[..2]) + (if s[2] != Blank then 1 else 0);
    assert ColoredCount(s[..4]) == ColoredCount(s[..3]) + (if s[3] != Blank then 1 else 0);
    assert ColoredCount(s[..5]) == ColoredCount(s[..4]) + (if s[4] != Blank then 1 else 0);
    assert ColoredCount(s) == ColoredCount(s[..5]) + (if s[5] != Blank then 1 else 0);
    assert forall k :: 0 <= k < 3 ==> c.colors[2 * k] == Blank || c.colors[2 * k + 1] == Blank by {
      assert Outward(c);
    }
  }

  // ---------------------------------------------------------------------
  // Turning a cubie

  /** After a quarter-turn about `axis`, slot j shows what slot
      `SourceSlot(axis)[j]` showed before. */
  function SourceSlot(axis: Axis): seq<nat> {
    match axis
    case X => [0, 1, 5, 4, 2, 3]
    case Y => [4, 5, 2, 3, 1, 0]
    case Z => [3, 2, 0, 1, 4, 5]
  }

  /** The slot permutation agrees with the rotation: after a quarter-turn,
      slot j faces out of the cube exactly when the slot it takes its colour
      from faced out before. */
  lemma SourceSlotFollowsTurn(p: Vec, axis: Axis)
    ensures |SourceSlot(axis)| == |FaceMapping|
    ensures forall j :: 0 <= j < |FaceMapping| ==>
      && SourceSlot(axis)[j] < |FaceMapping|
      && (IsExternalFace(QuarterTurn(p, axis), FaceMapping[j]) <==> IsExternalFace(p, FaceMapping[SourceSlot(axis)[j]]))
  {
  }

  /** The cubie after a quarter-turn about `axis`: its position turns and its
      colours move with their normals. */
  function QuarterTurnCubie(c: Cubie, axis: Axis): (r: Cubie)
    requires WellFormed(c)
    ensures WellFormed(r)
  {
    var src := SourceSlot(axis);
    Cubie(QuarterTurn(c.position, axis), seq(|FaceMapping|, j requires 0 <= j < |FaceMapping| => c.colors[src[j]]))
  }

  function QuarterTurnsCubie(c: Cubie, axis: Axis, n: nat): (r: Cubie)
    requires WellFormed(c)
    ensures WellFormed(r)
  {
    if n == 0 then c else QuarterTurnCubie(QuarterTurnsCubie(c, axis, n - 1), axis)
  }

  /** The cubie turned by `turns` quarter-turns about `axis`. */
  function RotateCubie(c: Cubie, axis: Axis, turns: int): (r: Cubie)
    requires WellFormed(c)
    ensures WellFormed(r)
  {
    QuarterTurnsCubie(c, axis, turns % 4)
  }

  lemma {:induction false} QuarterTurnsCubiePosition(c: Cubie, axis: Axis, n: nat)
    requires WellFormed(c)
    ensures QuarterTurnsCubie(c, axis, n).position == QuarterTurns(c.position, axis, n)
  {
    if n > 0 {
      QuarterTurnsCubiePosition(c, axis, n - 1);
    }
  }

  /** A turned cubie sits at the turned position. */
  lemma RotateCubiePosition(c: Cubie, axis: Axis, turns: int)
    requires WellFormed(c)
    ensures RotateCubie(c, axis, turns).position == Rotate(c.position, axis, turns)
  {
    QuarterTurnsCubiePosition(c, axis, turns % 4);
  }

  /** A quarter-turn keeps a cubie's colouring outward: a sticker that faced
      out still faces out, now on the side its normal was turned to. */
  lemma QuarterTurnKeepsOutward(c: Cubie, axis: Axis)
    requires WellFormed(c) && Outward(c)
    ensures Outward(QuarterTurnCubie(c, axis))
  {
    var r := QuarterTurnCubie(c, axis);
    forall j | 0 <= j < |FaceMapping|
      ensures r.colors[j] != Blank <==> IsExternalFace(r.position, FaceMapping[j])
    {
      var i := SourceSlot(axis)[j];
      assert r.colors[j] == c.colors[i];
      assert c.colors[i] != Blank <==> IsExternalFace(c.position, FaceMapping[i]);
    }
  }

  lemma {:induction false} QuarterTurnsKeepOutward(c: Cubie, axis: Axis, n: nat)
    requires WellFormed(c) && Outward(c)
    ensures Outward(QuarterTurnsCubie(c, axis, n))
  {
    if n > 0 {
      QuarterTurnsKeepOutward(c, axis, n - 1);
      QuarterTurnKeepsOutward(QuarterTurnsCubie(c, axis, n - 1), axis);
    }
  }

  lemma RotateKeepsOutward(c: Cubie, axis: Axis, turns: int)
    requires WellFormed(c) && Outward(c)
    ensures Outward(RotateCubie(c, axis, turns))
  {
    QuarterTurnsKeepOutward(c, axis, turns % 4);
  }

  lemma {:induction false} QuarterTurnsCubieAdd(c: Cubie, axis: Axis, m: nat, n: nat)
    requires WellFormed(c)
    ensures QuarterTurnsCubie(QuarterTurnsCubie(c, axis, m), axis, n) == QuarterTurnsCubie(c, axis, m + n)
  {
    if n > 0 {
      QuarterTurnsCubieAdd(c, axis, m, n - 1);
    }
  }

  /** Four quarter-turns restore a cubie, colours included. */
  lemma FourQuarterTurnsCubie(c: Cubie, axis: Axis)
    requires WellFormed(c)
    ensures QuarterTurnsCubie(c, axis, 4) == c
  {
    var c1 := QuarterTurnCubie(c, axis);
    var c2 := QuarterTurnCubie(c1, axis);
    var c3 := QuarterTurnCubie(c2, axis);
    var c4 := QuarterTurnCubie(c3, axis);
    assert QuarterTurnsCubie(c, axis, 1) == c1;
    assert QuarterTurnsCubie(c, axis, 2) == c2;
    assert QuarterTurnsCubie(c, axis, 3) == c3;
    FourQuarterTurns(c.position, axis);
    assert c4.position == c.position;
    assert c4.colors == c.colors;
  }

  /** Turns of a cubie about one axis compose into one turn by the sum `u`
      of their counts; in particular a turn followed by the opposite turn
      restores the cubie. The sum is a parameter so that the solver matches
      `u` syntactically instead of unfolding `s + t` inside `RotateCubie`. */
  lemma RotateCubieCompose(c: Cubie, axis: Axis, s: int, t: int, u: int)
    requires WellFormed(c) && u == s + t
    ensures RotateCubie(RotateCubie(c, axis, s), axis, t) == RotateCubie(c, axis, u)
  {
    QuarterTurnsCubieAdd(c, axis, s % 4, t % 4);
    ModFourAdd(s, t);
    if s % 4 + t % 4 >= 4 {
      var k := (s + t) % 4;
      QuarterTurnsCubieAdd(c, axis, k, 4);
      FourQuarterTurnsCubie(QuarterTurnsCubie(c, axis, k), axis);
    }
  }
}
