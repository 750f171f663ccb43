/** Positions of cubies and the exact rotations applied to them. A position is
    an integer vector; a rotation by a whole number of quarter-turns about a
    coordinate axis is computed exactly, which is what the floating-point
    matrix arithmetic of the rendering library yields once re-snapped to the
    lattice. */
module Lattice {
  import opened Constants

  datatype Vec = Vec(x: int, y: int, z: int) {
    /** The coordinate along `axis`. */
    function Get(axis: Axis): int {
      match axis
      case X => x
      case Y => y
      case Z => z
    }
  }

  const Origin: Vec := Vec(0, 0, 0)

  predicate OnLayer(c: int) {
    c == -CubieSize || c == 0 || c == CubieSize
  }

  /** One of the 27 points of the 3x3x3 lattice. */
  predicate OnLattice(v: Vec) {
    OnLayer(v.x) && OnLayer(v.y) && OnLayer(v.z)
  }

  /** Rotation by +PI/2 about `axis` in a right-handed frame. */
  function QuarterTurn(v: Vec, axis: Axis): Vec {
    match axis
    case X => Vec(v.x, -v.z, v.y)
    case Y => Vec(v.z, v.y, -v.x)
    case Z => Vec(-v.y, v.x, v.z)
  }

  function QuarterTurns(v: Vec, axis: Axis, n: nat): Vec {
    if n == 0 then v else QuarterTurn(QuarterTurns(v, axis, n - 1), axis)
  }

  /** Rotation by `turns` quarter-turns (a negative count turns the other
      way): the angle turns * PI/2. */
  function Rotate(v: Vec, axis: Axis, turns: int): Vec {
    QuarterTurns(v, axis, turns % 4)
  }

  /** A quarter-turn keeps the coordinate along its own axis, keeps lattice
      points on the lattice, maps only the origin to the origin, and is one to one. */
  lemma QuarterTurnFacts(u: Vec, v: Vec, axis: Axis)
    ensures QuarterTurn(v, axis).Get(axis) == v.Get(axis)
    ensures OnLattice(QuarterTurn(v, axis)) <==> OnLattice(v)
    ensures QuarterTurn(v, axis) == Origin <==> v == Origin
    ensures QuarterTurn(u, axis) == QuarterTurn(v, axis) ==> u == v
  {
  }

  lemma {:induction false} QuarterTurnsFacts(u: Vec, v: Vec, axis: Axis, n: nat)
    ensures QuarterTurns(v, axis, n).Get(axis) == v.Get(axis)
    ensures OnLattice(QuarterTurns(v, axis, n)) <==> OnLattice(v)
    ensures QuarterTurns(v, axis, n) == Origin <==> v == Origin
    ensures QuarterTurns(u, axis, n) == QuarterTurns(v, axis, n) ==> u == v
  {
    if n > 0 {
      QuarterTurnsFacts(u, v, axis, n - 1);
      QuarterTurnFacts(QuarterTurns(u, axis, n - 1), QuarterTurns(v, axis, n - 1), axis);
    }
  }

  /** Turning by m and then by n quarter-turns is turning by m + n. */
  lemma {:induction false} QuarterTurnsAdd(v: Vec, axis: Axis, m: nat, n: nat)
    ensures QuarterTurns(QuarterTurns(v, axis, m), axis, n) == QuarterTurns(v, axis, m + n)
  {
    if n > 0 {
      QuarterTurnsAdd(v, axis, m, n - 1);
    }
  }

  /** Four quarter-turns are the identity. */
  lemma FourQuarterTurns(v: Vec, axis: Axis)
    ensures QuarterTurns(v, axis, 4) == v
  {
    var v1 := QuarterTurn(v, axis);
    var v2 := QuarterTurn(v1, axis);
    var v3 := QuarterTurn(v2, axis);
    assert QuarterTurns(v, axis, 1) == v1;
    assert QuarterTurns(v, axis, 2) == v2;
    assert QuarterTurns(v, axis, 3) == v3;
  }

  lemma FullTurn(v: Vec, axis: Axis, n: nat)
    ensures QuarterTurns(v, axis, n + 4) == QuarterTurns(v, axis, n)
  {
    QuarterTurnsAdd(v, axis, n, 4);
    FourQuarterTurns(QuarterTurns(v, axis, n), axis);
  }

  lemma ModFourAdd(s: int, t: int)
    ensures s % 4 + t % 4 == (s + t) % 4 || s % 4 + t % 4 == (s + t) % 4 + 4
  {
    var a, b := s % 4, t % 4;
    assert s == 4 * (s / 4) + a;
    assert t == 4 * (t / 4) + b;
    assert s + t == 4 * (s / 4 + t / 4) + (a + b);
    if a + b < 4 {
      assert (s + t) % 4 == a + b;
    } else {
      assert s + t == 4 * (s / 4 + t / 4 + 1) + (a + b - 4);
    }
  }

  /** Rotating keeps the coordinate along the axis, keeps the lattice, maps
      only the origin to the origin, and is one to one. */
  lemma RotateFacts(u: Vec, v: Vec, axis: Axis, turns: int)
    ensures Rotate(v, axis, turns).Get(axis) == v.Get(axis)
    ensures OnLattice(Rotate(v, axis, turns)) <==> OnLattice(v)
    ensures Rotate(v, axis, turns) == Origin <==> v == Origin
    ensures Rotate(u, axis, turns) == Rotate(v, axis, turns) ==> u == v
  {
    QuarterTurnsFacts(u, v, axis, turns % 4);
  }

  /** Rotations about one axis compose by adding their turn counts. */
  lemma RotateCompose(v: Vec, axis: Axis, s: int, t: int)
    ensures Rotate(Rotate(v, axis, s), axis, t) == Rotate(v, axis, s + t)
  {
    QuarterTurnsAdd(v, axis, s % 4, t % 4);
    ModFourAdd(s, t);
    if s % 4 + t % 4 >= 4 {
      FullTurn(v, axis, (s + t) % 4);
    }
  }

  /** A turn followed by the opposite turn restores the position. */
  lemma RotateInverse(v: Vec, axis: Axis, turns: int)
    ensures Rotate(Rotate(v, axis, turns), axis, -turns) == v
  {
    RotateCompose(v, axis, turns, -turns);
  }
}
