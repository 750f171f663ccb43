/** The assembly of 26 cubies as a value: the layout a new cube starts from,
    the slice selection of a move, and the effect of one completed move. */
module CubeModel {
  import opened Constants
  import opened Lattice
  import opened Cubies

  // ---------------------------------------------------------------------
  // The layout of a new cube

  function Scale(v: Vec, factor: int): Vec {
    Vec(v.x * factor, v.y * factor, v.z * factor)
  }

  /** What one pass of the innermost loop body adds at (x, y, z): nothing at
      the origin, otherwise one new cubie at that point scaled by the cubie
      size. */
  function Step(x: int, y: int, z: int): seq<Cubie> {
    if x == 0 && y == 0 && z == 0 then [] else [NewCubie(Scale(Vec(x, y, z), CubieSize))]
  }

  /** The cubies the innermost loop (over z) adds in its first n passes. */
  function Column(x: int, y: int, n: nat): seq<Cubie>
    requires n <= 3
  {
    if n == 0 then [] else Column(x, y, n - 1) + Step(x, y, n - 2)
  }

  /** The cubies the middle loop (over y) adds in its first n passes. */
  function Plane(x: int, n: nat): seq<Cubie>
    requires n <= 3
  {
    if n == 0 then [] else Plane(x, n - 1) + Column(x, n - 2, 3)
  }

  /** The cubies the outer loop (over x) adds in its first n passes. */
  function Block(n: nat): seq<Cubie>
    requires n <= 3
  {
    if n == 0 then [] else Block(n - 1) + Plane(n - 2, 3)
  }

  /** The cubies of a new cube, in creation order. */
  function InitialCubies(): seq<Cubie> {
    Block(3)
  }

  /** The innermost loop: the cubies of column (x, y), z running from -1 to
      1, skipping the origin. */
  method CreateColumn(x: int, y: int) returns (column: seq<Cubie>)
    ensures column == Column(x, y, 3)
  {
    column := [];
    for z := -1 to 2
      invariant column == Column(x, y, z + 1)
    {
      if x == 0 && y == 0 && z == 0 {
        continue;
      }
      var cubie := CreateCubie(Scale(Vec(x, y, z), CubieSize));
      column := column + [cubie];
    }
  }

  /** The middle loop: the cubies of plane x, y running from -1 to 1. */
  method CreatePlane(x: int) returns (plane: seq<Cubie>)
    ensures plane == Plane(x, 3)
  {
    plane := [];
    for y := -1 to 2
      invariant plane == Plane(x, y + 1)
    {
      var column := CreateColumn(x, y);
      plane := plane + column;
    }
  }

  /** The outer loop: the cubies of every plane, x running from -1 to 1, in
      the order a new cube creates them. */
  method CreateCubies() returns (cubies: seq<Cubie>)
    ensures cubies == InitialCubies()
  {
    cubies := [];
    for x := -1 to 2
      invariant cubies == Block(x + 1)
    {
      var plane := CreatePlane(x);
      cubies := cubies + plane;
    }
  }

  /** The position of a lattice point in loop order. */
  function LoopIndex(v: Vec): int {
    9 * (v.x + 1) + 3 * (v.y + 1) + (v.z + 1)
  }

  /** Every cubie is a fresh cubie, coloured for its own position. */
  predicate Fresh(cs: seq<Cubie>) {
    forall i :: 0 <= i < |cs| ==> cs[i] == NewCubie(cs[i].position)
  }

  /** p is a non-origin lattice point within the box from lo to hi. */
  predicate InBox(p: Vec, lo: Vec, hi: Vec) {
    && OnLattice(p) && p != Origin
    && lo.x <= p.x <= hi.x && lo.y <= p.y <= hi.y && lo.z <= p.z <= hi.z
  }

  /** Every cubie lies on a non-origin lattice point within the box. */
  predicate Boxed(cs: seq<Cubie>, lo: Vec, hi: Vec) {
    forall i :: 0 <= i < |cs| ==> InBox(cs[i].position, lo, hi)
  }

  /** The cubies follow the loop order strictly. */
  predicate InLoopOrder(cs: seq<Cubie>) {
    forall i, j :: 0 <= i < j < |cs| ==> LoopIndex(cs[i].position) < LoopIndex(cs[j].position)
  }

  /** Some cubie of cs sits at v. */
  predicate Occupied(cs: seq<Cubie>, v: Vec) {
    exists i :: 0 <= i < |cs| && cs[i].position == v
  }

  lemma OccupiedAppend(a: seq<Cubie>, b: seq<Cubie>, v: Vec)
    ensures Occupied(a + b, v) <==> Occupied(a, v) || Occupied(b, v)
  {
    if Occupied(a, v) {
      var i :| 0 <= i < |a| && a[i].position == v;
      assert (a + b)[i].position == v;
    }
    if Occupied(b, v) {
      var i :| 0 <= i < |b| && b[i].position == v;
      assert (a + b)[|a| + i].position == v;
    }
    if Occupied(a + b, v) {
      var i :| 0 <= i < |a + b| && (a + b)[i].position == v;
      if i < |a| { assert a[i].position == v; } else { assert b[i - |a|].position == v; }
    }
  }

  lemma FreshAppend(a: seq<Cubie>, b: seq<Cubie>)
    requires Fresh(a) && Fresh(b)
    ensures Fresh(a + b)
  {
    forall i | 0 <= i < |a + b|
      ensures (a + b)[i] == (if i < |a| then a[i] else b[i - |a|])
    {
    }
  }

  /** Two runs within boxes lie together within any box holding both. */
  lemma BoxedAppend(a: seq<Cubie>, b: seq<Cubie>, loA: Vec, hiA: Vec, loB: Vec, hiB: Vec, lo: Vec, hi: Vec)
    requires Boxed(a, loA, hiA) && Boxed(b, loB, hiB)
    requires lo.x <= loA.x && lo.y <= loA.y && lo.z <= loA.z && hiA.x <= hi.x && hiA.y <= hi.y && hiA.z <= hi.z
    requires lo.x <= loB.x && lo.y <= loB.y && lo.z <= loB.z && hiB.x <= hi.x && hiB.y <= hi.y && hiB.z <= hi.z
    ensures Boxed(a + b, lo, hi)
  {
    forall i | 0 <= i < |a + b|
      ensures InBox((a + b)[i].position, lo, hi)
    {
      if i < |a| {
        assert InBox(a[i].position, loA, hiA);
      } else {
        assert InBox(b[i - |a|].position, loB, hiB);
      }
    }
  }

  /** Two runs in loop order, the first wholly below key k and the second
      wholly at or above it, make one run in loop order. */
  lemma OrderAppend(a: seq<Cubie>, b: seq<Cubie>, k: int)
    requires InLoopOrder(a) && InLoopOrder(b)
    requires forall i :: 0 <= i < |a| ==> LoopIndex(a[i].position) < k
    requires forall j :: 0 <= j < |b| ==> k <= LoopIndex(b[j].position)
    ensures InLoopOrder(a + b)
  {
    forall i, j | 0 <= i < j < |a + b|
      ensures LoopIndex((a + b)[i].position) < LoopIndex((a + b)[j].position)
    {
      if j < |a| {
      } else if i < |a| {
        assert (a + b)[j] == b[j - |a|];
      } else {
        assert (a + b)[i] == b[i - |a|] && (a + b)[j] == b[j - |a|];
      }
    }
  }

  /** Every cubie of the first n passes of the z loop lies in column (x, y)
      below z = n - 1. */
  lemma {:induction false} ColumnShape(x: int, y: int, n: nat)
    requires OnLayer(x) && OnLayer(y) && n <= 3
    ensures Boxed(Column(x, y, n), Vec(x, y, -1), Vec(x, y, n - 2))
  {
    if n > 0 {
      ColumnShape(x, y, n - 1);
      var p := Vec(x, y, n - 2);
      assert Boxed(Step(x, y, n - 2), p, p) by {
        if Step(x, y, n - 2) != [] {
          assert Step(x, y, n - 2)[0].position == p;
        }
      }
      BoxedAppend(Column(x, y, n - 1), Step(x, y, n - 2), Vec(x, y, -1), Vec(x, y, n - 3), p, p,
        Vec(x, y, -1), p);
    }
  }

  lemma {:induction false} ColumnFresh(x: int, y: int, n: nat)
    requires n <= 3
    ensures Fresh(Column(x, y, n))
  {
    if n > 0 {
      ColumnFresh(x, y, n - 1);
      FreshAppend(Column(x, y, n - 1), Step(x, y, n - 2));
    }
  }

  lemma {:induction false} ColumnOrder(x: int, y: int, n: nat)
    requires OnLayer(x) && OnLayer(y) && n <= 3
    ensures InLoopOrder(Column(x, y, n))
  {
    if n > 0 {
      ColumnOrder(x, y, n - 1);
      ColumnShape(x, y, n - 1);
      var a, b := Column(x, y, n - 1), Step(x, y, n - 2);
      var k := 9 * (x + 1) + 3 * (y + 1) + (n - 1);
      forall i | 0 <= i < |a| ensures LoopIndex(a[i].position) < k {
        assert InBox(a[i].position, Vec(x, y, -1), Vec(x, y, n - 3));
      }
      OrderAppend(a, b, k);
    }
  }

  lemma StepOccupied(x: int, y: int, z: int, v: Vec)
    ensures Occupied(Step(x, y, z), v) <==> (x, y, z) != (0, 0, 0) && v == Vec(x, y, z)
  {
    if (x, y, z) != (0, 0, 0) && v == Vec(x, y, z) {
      assert Step(x, y, z)[0].position == v;
    }
  }

  lemma {:induction false} ColumnOccupied(x: int, y: int, n: nat)
    requires OnLayer(x) && OnLayer(y) && n <= 3
    ensures forall v :: Occupied(Column(x, y, n), v) <==>
      OnLattice(v) && v != Origin && v.x == x && v.y == y && v.z <= n - 2
  {
    if n > 0 {
      ColumnOccupied(x, y, n - 1);
      forall v
        ensures Occupied(Column(x, y, n), v) <==> OnLattice(v) && v != Origin && v.x == x && v.y == y && v.z <= n - 2
      {
        assert Column(x, y, n) == Column(x, y, n - 1) + Step(x, y, n - 2);
        OccupiedAppend(Column(x, y, n - 1), Step(x, y, n - 2), v);
        StepOccupied(x, y, n - 2, v);
      }
    }
  }

  /** Every cubie of the first n passes of the y loop lies in plane x below
      y = n - 1. */
  lemma {:induction false} PlaneShape(x: int, n: nat)
    requires OnLayer(x) && n <= 3
    ensures Boxed(Plane(x, n), Vec(x, -1, -1), Vec(x, n - 2, 1))
  {
    if n > 0 {
      PlaneShape(x, n - 1);
      ColumnShape(x, n - 2, 3);
      BoxedAppend(Plane(x, n - 1), Column(x, n - 2, 3), Vec(x, -1, -1), Vec(x, n - 3, 1),
        Vec(x, n - 2, -1), Vec(x, n - 2, 1), Vec(x, -1, -1), Vec(x, n - 2, 1));
    }
  }

  lemma {:induction false} PlaneFresh(x: int, n: nat)
    requires n <= 3
    ensures Fresh(Plane(x, n))
  {
    if n > 0 {
      PlaneFresh(x, n - 1);
      ColumnFresh(x, n - 2, 3);
      FreshAppend(Plane(x, n - 1), Column(x, n - 2, 3));
    }
  }

  lemma {:induction false} PlaneOrder(x: int, n: nat)
    requires OnLayer(x) && n <= 3
    ensures InLoopOrder(Plane(x, n))
  {
    if n > 0 {
      PlaneOrder(x, n - 1);
      PlaneShape(x, n - 1);
      ColumnShape(x, n - 2, 3);
      ColumnOrder(x, n - 2, 3);
      var a, b := Plane(x, n - 1), Column(x, n - 2, 3);
      var k := 9 * (x + 1) + 3 * (n - 1);
      forall i | 0 <= i < |a| ensures LoopIndex(a[i].position) < k {
        assert InBox(a[i].position, Vec(x, -1, -1), Vec(x, n - 3, 1));
      }
      forall j | 0 <= j < |b| ensures k <= LoopIndex(b[j].position) {
        assert InBox(b[j].position, Vec(x, n - 2, -1), Vec(x, n - 2, 1));
      }
      OrderAppend(a, b, k);
    }
  }

  lemma {:induction false} PlaneOccupied(x: int, n: nat)
    requires OnLayer(x) && n <= 3
    ensures forall v :: Occupied(Plane(x, n), v) <==>
      OnLattice(v) && v != Origin && v.x == x && v.y <= n - 2
  {
    if n > 0 {
      PlaneOccupied(x, n - 1);
      ColumnOccupied(x, n - 2, 3);
      forall v ensures Occupied(Plane(x, n), v) <==> Occupied(Plane(x, n - 1), v) || Occupied(Column(x, n - 2, 3), v) {
        OccupiedAppend(Plane(x, n - 1), Column(x, n - 2, 3), v);
      }
    }
  }

  /** Every cubie of the first n passes of the x loop lies below
      x = n - 1. */
  lemma {:induction false} BlockShape(n: nat)
    requires n <= 3
    ensures Boxed(Block(n), Vec(-1, -1, -1), Vec(n - 2, 1, 1))
  {
    if n > 0 {
      BlockShape(n - 1);
      PlaneShape(n - 2, 3);
      BoxedAppend(Block(n - 1), Plane(n - 2, 3), Vec(-1, -1, -1), Vec(n - 3, 1, 1),
        Vec(n - 2, -1, -1), Vec(n - 2, 1, 1), Vec(-1, -1, -1), Vec(n - 2, 1, 1));
    }
  }

  lemma {:induction false} BlockFresh(n: nat)
    requires n <= 3
    ensures Fresh(Block(n))
  {
    if n > 0 {
      BlockFresh(n - 1);
      PlaneFresh(n - 2, 3);
      FreshAppend(Block(n - 1), Plane(n - 2, 3));
    }
  }

  lemma {:induction false} BlockOrder(n: nat)
    requires n <= 3
    ensures InLoopOrder(Block(n))
  {
    if n > 0 {
      BlockOrder(n - 1);
      BlockShape(n - 1);
      PlaneShape(n - 2, 3);
      PlaneOrder(n - 2, 3);
      var a, b := Block(n - 1), Plane(n - 2, 3);
      var k := 9 * (n - 1);
      forall i | 0 <= i < |a| ensures LoopIndex(a[i].position) < k {
        assert InBox(a[i].position, Vec(-1, -1, -1), Vec(n - 3, 1, 1));
      }
      forall j | 0 <= j < |b| ensures k <= LoopIndex(b[j].position) {
        assert InBox(b[j].position, Vec(n - 2, -1, -1), Vec(n - 2, 1, 1));
      }
      OrderAppend(a, b, k);
    }
  }

  lemma {:induction false} BlockOccupied(n: nat)
    requires n <= 3
    ensures forall v :: Occupied(Block(n), v) <==> OnLattice(v) && v != Origin && v.x <= n - 2
  {
    if n > 0 {
      BlockOccupied(n - 1);
      PlaneOccupied(n - 2, 3);
      forall v ensures Occupied(Block(n), v) <==> Occupied(Block(n - 1), v) || Occupied(Plane(n - 2, 3), v) {
        OccupiedAppend(Block(n - 1), Plane(n - 2, 3), v);
      }
    }
  }

  /** The z loop adds one cubie per pass except at the origin. */
  lemma {:induction false} ColumnLength(x: int, y: int, n: nat)
    requires n <= 3
    ensures |Column(x, y, n)| == if x == 0 && y == 0 && n >= 2 then n - 1 else n
  {
    if n > 0 {
      ColumnLength(x, y, n - 1);
    }
  }

  lemma {:induction false} PlaneLength(x: int, n: nat)
    requires n <= 3
    ensures |Plane(x, n)| == if x == 0 && n >= 2 then 3 * n - 1 else 3 * n
  {
    if n > 0 {
      PlaneLength(x, n - 1);
      ColumnLength(x, n - 2, 3);
    }
  }

  lemma {:induction false} BlockLength(n: nat)
    requires n <= 3
    ensures |Block(n)| == if n >= 2 then 9 * n - 1 else 9 * n
  {
    if n > 0 {
      BlockLength(n - 1);
      PlaneLength(n - 2, 3);
    }
  }

  // ---------------------------------------------------------------------
  // The invariant of a cube at rest

  predicate AllWellFormed(cs: seq<Cubie>) {
    forall i :: 0 <= i < |cs| ==> WellFormed(cs[i])
  }

  /** 26 cubies on distinct non-origin lattice points, each with an outward
      colouring. */
  predicate ValidCube(cs: seq<Cubie>) {
    && |cs| == 26
    && AllWellFormed(cs)
    && (forall i :: 0 <= i < |cs| ==> Outward(cs[i]) && OnLattice(cs[i].position) && cs[i].position != Origin)
    && (forall i, j :: 0 <= i < j < |cs| ==> cs[i].position != cs[j].position)
  }

  /** A new cube has 26 distinct cubies, one on every lattice point but the
      origin, each coloured outward. */
  lemma InitialCubiesValid()
    ensures ValidCube(InitialCubies())
    ensures forall v :: OnLattice(v) && v != Origin ==>
      exists i :: 0 <= i < |InitialCubies()| && InitialCubies()[i].position == v
  {
    BlockValid(3);
  }

  /** All three passes of the x loop. It takes a variable `n` required to
      be 3, rather than the literal `Block(3)`, so that the solver does not
      unfold the cube cubie by cubie; the `n <= 3` lemmas above do the same. */
  lemma BlockValid(n: nat)
    requires n == 3
    ensures ValidCube(Block(n))
    ensures forall v :: OnLattice(v) && v != Origin ==> exists i :: 0 <= i < |Block(n)| && Block(n)[i].position == v
  {
    var cs := Block(n);
    BlockShape(n);
    BlockFresh(n);
    BlockOrder(n);
    BlockOccupied(n);
    BlockLength(n);
    forall i | 0 <= i < |cs|
      ensures WellFormed(cs[i]) && Outward(cs[i])
      ensures OnLattice(cs[i].position) && cs[i].position != Origin
    {
      assert InBox(cs[i].position, Vec(-1, -1, -1), Vec(1, 1, 1));
      NewCubieColoring(cs[i].position);
    }
    forall v | OnLattice(v) && v != Origin
      ensures exists i :: 0 <= i < |cs| && cs[i].position == v
    {
      assert Occupied(cs, v);
    }
  }

  // ---------------------------------------------------------------------
  // Slice selection

  function Abs(n: int): nat {
    if n < 0 then -n else n
  }

  /** The selection test: a coordinate closer than half a cubie to the middle
      (slice 0) or to the outer layer `slice`. */
  predicate InSlice(coord: int, slice: int) {
    if slice == 0 then 2 * Abs(coord) < CubieSize
    else 2 * Abs(coord - slice * CubieSize) < CubieSize
  }

  /** On integer coordinates the threshold test is an exact comparison. */
  lemma InSliceExact(coord: int, slice: int)
    ensures InSlice(coord, slice) <==> coord == slice * CubieSize
  {
  }

  /** The indices, in increasing order, of the cubies whose coordinate along
      `axis` lies in `slice`. */
  function Select(cs: seq<Cubie>, axis: Axis, slice: int): (r: seq<nat>)
    ensures forall k :: 0 <= k < |r| ==> r[k] < |cs|
    ensures forall k, l :: 0 <= k < l < |r| ==> r[k] < r[l]
    ensures forall i :: 0 <= i < |cs| ==> (i in r <==> InSlice(cs[i].position.Get(axis), slice))
  {
    if cs == [] then []
    else
      var last := |cs| - 1;
      Select(cs[..last], axis, slice) + (if InSlice(cs[last].position.Get(axis), slice) then [last] else [])
  }

  /** Selecting from one more cubie adds its index when it is in the slice. */
  lemma SelectPrefix(cs: seq<Cubie>, i: nat, axis: Axis, slice: int)
    requires i < |cs|
    ensures Select(cs[..i + 1], axis, slice)
      == Select(cs[..i], axis, slice) + (if InSlice(cs[i].position.Get(axis), slice) then [i] else [])
  {
    assert cs[..i + 1][..i] == cs[..i];
  }

  /** Selection looks only at the coordinate along the axis. */
  lemma SelectSameCoordinates(cs: seq<Cubie>, ds: seq<Cubie>, axis: Axis, slice: int)
    requires |cs| == |ds|
    requires forall i :: 0 <= i < |cs| ==> cs[i].position.Get(axis) == ds[i].position.Get(axis)
    ensures Select(cs, axis, slice) == Select(ds, axis, slice)
  {
    var r, q := Select(cs, axis, slice), Select(ds, axis, slice);
    SortedSameElements(r, q, |cs|);
  }

  /** Two strictly increasing index lists below n with the same members are equal. */
  lemma {:induction false} SortedSameElements(r: seq<nat>, q: seq<nat>, n: nat)
    requires forall k, l :: 0 <= k < l < |r| ==> r[k] < r[l]
    requires forall k, l :: 0 <= k < l < |q| ==> q[k] < q[l]
    requires forall i :: i in r <==> i in q
    ensures r == q
  {
    assert r != [] ==> r[0] in r;
    assert q != [] ==> q[0] in q;
    if r != [] && q != [] {
      assert r[0] in q && q[0] in r;
      assert r[0] == q[0];
      assert forall i :: i in r[1..] <==> i in r && i != r[0];
      assert forall i :: i in q[1..] <==> i in q && i != q[0];
      SortedSameElements(r[1..], q[1..], n);
    }
  }

  /** Along any axis, every cubie on the lattice lies in exactly one of the
      three slices, so the three selections split the cube and their sizes
      add up to the number of cubies. */
  lemma {:induction false} SlicesPartition(cs: seq<Cubie>, axis: Axis)
    requires forall i :: 0 <= i < |cs| ==> OnLattice(cs[i].position)
    ensures forall i :: 0 <= i < |cs| ==>
      var low, mid, high := Select(cs, axis, -1), Select(cs, axis, 0), Select(cs, axis, 1);
      && (i in low || i in mid || i in high)
      && !(i in low && i in mid) && !(i in low && i in high) && !(i in mid && i in high)
    ensures |Select(cs, axis, -1)| + |Select(cs, axis, 0)| + |Select(cs, axis, 1)| == |cs|
  {
    if cs != [] {
      SlicesPartition(cs[..|cs| - 1], axis);
    }
    forall i | 0 <= i < |cs|
      ensures var low, mid, high := Select(cs, axis, -1), Select(cs, axis, 0), Select(cs, axis, 1);
        && (i in low || i in mid || i in high)
        && !(i in low && i in mid) && !(i in low && i in high) && !(i in mid && i in high)
    {
      var c := cs[i].position.Get(axis);
      InSliceExact(c, -1);
      InSliceExact(c, 0);
      InSliceExact(c, 1);
    }
    if cs != [] {
      var c := cs[|cs| - 1].position.Get(axis);
      InSliceExact(c, -1);
      InSliceExact(c, 0);
      InSliceExact(c, 1);
    }
  }

  /** The number of cubies of cs in `slice` along `axis`. */
  function Count(cs: seq<Cubie>, axis: Axis, slice: int): nat {
    if cs == [] then 0
    else Count(cs[..|cs| - 1], axis, slice) + (if InSlice(cs[|cs| - 1].position.Get(axis), slice) then 1 else 0)
  }

  /** A selection has one index per cubie in the slice. */
  lemma {:induction false} SelectSize(cs: seq<Cubie>, axis: Axis, slice: int)
    ensures |Select(cs, axis, slice)| == Count(cs, axis, slice)
  {
    if cs != [] {
      SelectSize(cs[..|cs| - 1], axis, slice);
    }
  }

  /** Counting over two runs of cubies adds up. */
  lemma {:induction false} CountAppend(a: seq<Cubie>, b: seq<Cubie>, axis: Axis, slice: int)
    ensures Count(a + b, axis, slice) == Count(a, axis, slice) + Count(b, axis, slice)
  {
    if b != [] {
      CountAppend(a, b[..|b| - 1], axis, slice);
      assert (a + b)[..|a + b| - 1] == a + b[..|b| - 1];
      assert (a + b)[|a + b| - 1] == b[|b| - 1];
    } else {
      assert a + b == a;
    }
  }

  /** Whether the loop pass at (x, y, z) makes a cubie in `slice`. */
  function Hit(x: int, y: int, z: int, axis: Axis, slice: int): nat {
    if (x, y, z) != (0, 0, 0) && Vec(x, y, z).Get(axis) == slice then 1 else 0
  }

  lemma StepCount(x: int, y: int, z: int, axis: Axis, slice: int)
    ensures Count(Step(x, y, z), axis, slice) == Hit(x, y, z, axis, slice)
  {
    if (x, y, z) != (0, 0, 0) {
      InSliceExact(Vec(x, y, z).Get(axis), slice);
      assert Step(x, y, z)[..0] == [];
    }
  }

  lemma ColumnHits(x: int, y: int, axis: Axis, slice: int)
    ensures Count(Column(x, y, 3), axis, slice) ==
      Hit(x, y, -1, axis, slice) + Hit(x, y, 0, axis, slice) + Hit(x, y, 1, axis, slice)
  {
    CountAppend(Column(x, y, 2), Step(x, y, 1), axis, slice);
    CountAppend(Column(x, y, 1), Step(x, y, 0), axis, slice);
    CountAppend(Column(x, y, 0), Step(x, y, -1), axis, slice);
    StepCount(x, y, -1, axis, slice);
    StepCount(x, y, 0, axis, slice);
    StepCount(x, y, 1, axis, slice);
  }

  /** How many cubies of column (x, y) of a new cube lie in `slice`. */
  function ColumnCount(x: int, y: int, axis: Axis, slice: int): nat {
    var full := if x == 0 && y == 0 then 2 else 3;
    match axis
    case X => if x == slice then full else 0
    case Y => if y == slice then full else 0
    case Z => if x == 0 && y == 0 && slice == 0 then 0 else 1
  }

  lemma ColumnTotal(x: int, y: int, axis: Axis, slice: int)
    requires OnLayer(x) && OnLayer(y) && slice in {-1, 0, 1}
    ensures Count(Column(x, y, 3), axis, slice) == ColumnCount(x, y, axis, slice)
  {
    ColumnHits(x, y, axis, slice);
  }

  /** How many cubies of plane x of a new cube lie in `slice`. */
  function PlaneCount(x: int, axis: Axis, slice: int): nat {
    if axis == X then (if x == slice then (if x == 0 then 8 else 9) else 0)
    else if x == 0 && slice == 0 then 2 else 3
  }

  lemma PlaneSum(x: int, axis: Axis, slice: int)
    ensures Count(Plane(x, 3), axis, slice) ==
      Count(Column(x, -1, 3), axis, slice) + Count(Column(x, 0, 3), axis, slice) + Count(Column(x, 1, 3), axis, slice)
  {
    CountAppend(Plane(x, 2), Column(x, 1, 3), axis, slice);
    CountAppend(Plane(x, 1), Column(x, 0, 3), axis, slice);
    CountAppend(Plane(x, 0), Column(x, -1, 3), axis, slice);
  }

  lemma PlaneTotal(x: int, axis: Axis, slice: int)
    requires OnLayer(x) && slice in {-1, 0, 1}
    ensures Count(Plane(x, 3), axis, slice) == PlaneCount(x, axis, slice)
  {
    PlaneSum(x, axis, slice);
    ColumnTotal(x, -1, axis, slice);
    ColumnTotal(x, 0, axis, slice);
    ColumnTotal(x, 1, axis, slice);
  }

  /** How many cubies of the first n passes of the x loop lie in `slice`. */
  function BlockCount(n: nat, axis: Axis, slice: int): int {
    if axis == X then (if -1 <= slice <= n - 2 then (if slice == 0 then 8 else 9) else 0)
    else 3 * n - (if slice == 0 && n >= 2 then 1 else 0)
  }

  lemma BlockStepCount(n: nat, axis: Axis, slice: int)
    requires 0 < n <= 3
    ensures Count(Block(n), axis, slice) == Count(Block(n - 1), axis, slice) + Count(Plane(n - 2, 3), axis, slice)
  {
    CountAppend(Block(n - 1), Plane(n - 2, 3), axis, slice);
  }

  lemma {:induction false} BlockTotal(n: nat, axis: Axis, slice: int)
    requires n <= 3 && slice in {-1, 0, 1}
    ensures Count(Block(n), axis, slice) == BlockCount(n, axis, slice)
  {
    if n > 0 {
      BlockTotal(n - 1, axis, slice);
      BlockStepCount(n, axis, slice);
      PlaneTotal(n - 2, axis, slice);
    } else {
      assert Block(n) == [];
    }
  }

  /** On a new cube an outer slice holds 9 cubies and the middle slice 8: the
      origin has no cubie. */
  lemma InitialSliceSizes(axis: Axis, slice: int)
    requires slice in {-1, 0, 1}
    ensures |Select(InitialCubies(), axis, slice)| == if slice == 0 then 8 else 9
  {
    BlockSliceSizes(3, axis, slice);
  }

  lemma BlockSliceSizes(n: nat, axis: Axis, slice: int)
    requires n <= 3 && slice in {-1, 0, 1}
    ensures |Select(Block(n), axis, slice)| == BlockCount(n, axis, slice)
  {
    SelectSize(Block(n), axis, slice);
    BlockTotal(n, axis, slice);
  }
}
