/** The move sequencer of the cube engine as a state machine on values: a
    FIFO queue of moves, a flag that is set while a move is in flight, and the
    pivot that holds the cubies of that move until it completes. The engine
    class refines each of its methods to one transition here. */
module Sequencer {
  import opened Wrappers
  import opened Constants
  import opened Cubies
  import opened MoveParser
  import opened CubeModel
  import opened Turns

  /** The move in flight: the rotation the pivot is being tweened to. */
  datatype Tween = Tween(move: Move, axis: Axis, turns: int)

  /** `pivot` lists the indices of the cubies attached to the pivot, and
      `rotation` is the pivot's rotation about the tween's axis in
      quarter-turns. The completion callback sets it to the tween's turn
      while it puts the cubies back and then resets it, as the source does
      with `pivot.rotation[axis] = 0`; between transitions it is always 0. */
  datatype EngineState = EngineState(
    cubies: seq<Cubie>,
    queue: seq<Move>,
    animating: bool,
    pivot: seq<nat>,
    rotation: int,
    tween: Option<Tween>)

  /** The state right after construction. */
  function InitialState(): EngineState {
    EngineState(InitialCubies(), [], false, [], 0, None)
  }

  /** Consistency of a state between two transitions: a cube at rest, a
      queue of animatable moves, the flag set exactly while a tween runs, and
      the pivot holding exactly the slice of that tween. */
  predicate Coherent(s: EngineState) {
    && ValidCube(s.cubies)
    && AllKnown(s.queue)
    && s.rotation == 0
    && (s.animating <==> s.tween.Some?)
    && (s.tween.None? ==> s.pivot == [])
    && (s.tween.Some? ==>
          var t := s.tween.value;
          && Known(t.move)
          && t.axis == MoveDefinitions[t.move.face].axis
          && t.turns == TurnOf(t.move)
          && s.pivot == Select(s.cubies, t.axis, MoveDefinitions[t.move.face].slice))
  }

  /** The engine class drains its queue itself, so while it is idle the
      queue is empty. */
  predicate EngineCoherent(s: EngineState) {
    Coherent(s) && (!s.animating ==> s.queue == [])
  }

  /** The moves still to complete, in the order they will complete. */
  function Pending(s: EngineState): seq<Move> {
    (if s.tween.Some? then [s.tween.value.move] else []) + s.queue
  }

  /** Starting the animation of m: the cubies of its slice move to the
      pivot and the tween towards its turn starts. */
  function Animate(s: EngineState, m: Move): EngineState
    requires AllWellFormed(s.cubies) && Known(m)
  {
    var d := MoveDefinitions[m.face];
    s.(pivot := Select(s.cubies, d.axis, d.slice), tween := Some(Tween(m, d.axis, TurnOf(m))))
  }

  /** `processQueue`: on an empty queue only clear the flag; otherwise set it,
      take the head off the queue and animate it. */
  function ProcessQueue(s: EngineState): EngineState
    requires AllWellFormed(s.cubies) && AllKnown(s.queue)
  {
    if s.queue == [] then s.(animating := false)
    else Animate(s.(animating := true, queue := s.queue[1..]), s.queue[0])
  }

  /** `addMovesToQueue`: append, then start processing unless a move is in
      flight. */
  function AddMoves(s: EngineState, moves: seq<Move>): EngineState
    requires AllWellFormed(s.cubies) && AllKnown(s.queue) && AllKnown(moves)
  {
    var appended := s.(queue := s.queue + moves);
    assert AllKnown(appended.queue);
    if s.animating then appended else ProcessQueue(appended)
  }

  /** The end of a tween: the pivot has reached the turn, its cubies return
      to the cube rotated by it, the pivot's rotation is reset to zero and the
      flag is cleared. */
  function Finish(s: EngineState): EngineState
    requires AllWellFormed(s.cubies) && s.tween.Some?
  {
    var t := s.tween.value;
    s.(cubies := Reattach(s.cubies, s.pivot, t.axis, t.turns), pivot := [], rotation := 0,
       animating := false, tween := None)
  }

  /** The engine class's completion callback: finish, then process the
      queue again. */
  function Complete(s: EngineState): EngineState
    requires AllWellFormed(s.cubies) && AllKnown(s.queue) && s.tween.Some?
  {
    ProcessQueue(Finish(s))
  }

  // ---------------------------------------------------------------------
  // Properties of the transitions

  lemma InitialCoherent()
    ensures EngineCoherent(InitialState())
    ensures Pending(InitialState()) == []
  {
    InitialCubiesValid();
  }

  /** Processing an empty queue only clears the flag. */
  lemma ProcessEmptyQueue(s: EngineState)
    requires AllWellFormed(s.cubies) && s.queue == []
    ensures ProcessQueue(s) == s.(animating := false)
  {
  }

  /** Processing a non-empty queue removes exactly its head, sets the flag
      and puts exactly that move in flight, with its slice on the pivot. */
  lemma ProcessQueueTakesHead(s: EngineState)
    requires Coherent(s) && !s.animating && s.queue != []
    ensures var r := ProcessQueue(s);
      && EngineCoherent(r) && r.animating
      && r.tween == Some(Tween(s.queue[0], MoveDefinitions[s.queue[0].face].axis, TurnOf(s.queue[0])))
      && r.queue == s.queue[1..] && r.cubies == s.cubies
      && Pending(r) == Pending(s)
  {
  }

  /** Adding moves appends them to the pending moves in order and changes no
      cubie; while a move is in flight it leaves that move and its pivot
      alone. */
  lemma AddMovesAppends(s: EngineState, moves: seq<Move>)
    requires EngineCoherent(s) && AllKnown(moves)
    ensures EngineCoherent(AddMoves(s, moves))
    ensures Pending(AddMoves(s, moves)) == Pending(s) + moves
    ensures AddMoves(s, moves).cubies == s.cubies
    ensures s.animating ==> AddMoves(s, moves).tween == s.tween && AddMoves(s, moves).pivot == s.pivot
    ensures AddMoves(s, moves).animating <==> s.animating || moves != []
  {
    var appended := s.(queue := s.queue + moves);
    if !s.animating && moves != [] {
      ProcessQueueTakesHead(appended);
    }
  }

  /** Completing the move in flight applies exactly that move to the cubies,
      resets the pivot, and moves on to the next pending move by itself. */
  lemma CompleteAppliesHead(s: EngineState)
    requires EngineCoherent(s) && s.animating
    ensures EngineCoherent(Complete(s))
    ensures Complete(s).cubies == ApplyMove(s.cubies, s.tween.value.move)
    ensures Pending(Complete(s)) == Pending(s)[1..]
    ensures Complete(s).rotation == 0
    ensures Complete(s).animating <==> s.queue != []
  {
    var t := s.tween.value;
    var d := MoveDefinitions[t.move.face];
    var f := Finish(s);
    assert f.cubies == TurnSlice(s.cubies, d.axis, d.slice, t.turns);
    TurnSliceKeepsValid(s.cubies, d.axis, d.slice, t.turns);
    if s.queue != [] {
      ProcessQueueTakesHead(f);
    }
  }

  /** The state once every pending move has completed. */
  function Settle(s: EngineState): (r: EngineState)
    requires EngineCoherent(s)
    ensures EngineCoherent(r) && !r.animating && Pending(r) == []
    ensures AllKnown(Pending(s)) && r.cubies == ApplyMoves(s.cubies, Pending(s))
    decreases |Pending(s)|
  {
    if !s.animating then s
    else
      CompleteAppliesHead(s);
      var next := Complete(s);
      assert Pending(s) == [s.tween.value.move] + Pending(next);
      Settle(next)
  }

  /** Moves added to an idle engine complete in the order they were given. */
  lemma AddedMovesSettle(s: EngineState, moves: seq<Move>)
    requires EngineCoherent(s) && !s.animating && AllKnown(moves)
    ensures Settle(AddMoves(s, moves)).cubies == ApplyMoves(s.cubies, moves)
  {
    var added := AddMoves(s, moves);
    AddMovesAppends(s, moves);
    assert Pending(added) == moves;
    var r := Settle(added);
    assert r.cubies == ApplyMoves(added.cubies, Pending(added));
  }

  /** On an idle engine, for instance a fresh one, the moves of any input
      complete in the order they were written. */
  lemma ParsedMovesSettle(s: EngineState, input: string)
    requires EngineCoherent(s) && !s.animating
    ensures AllKnown(Parse(input))
    ensures Settle(AddMoves(s, Parse(input))).cubies == ApplyMoves(s.cubies, Parse(input))
  {
    ParsedMovesKnown(input);
    AddedMovesSettle(s, Parse(input));
  }

  /** On an idle engine, a move followed by its inverse leaves the cube as it
      was. */
  lemma MoveThenInverseSettles(s: EngineState, m: Move)
    requires EngineCoherent(s) && !s.animating && Known(m)
    ensures AllKnown([m, Inverse(m)])
    ensures Settle(AddMoves(s, [m, Inverse(m)])).cubies == s.cubies
  {
    var ms := [m, Inverse(m)];
    AddedMovesSettle(s, ms);
    ApplyMoveThenInverse(s.cubies, m);
    assert ms[1..] == [Inverse(m)];
    assert ApplyMoves(s.cubies, ms) == ApplyMoves(ApplyMove(s.cubies, m), [Inverse(m)]);
  }

  /** On an idle engine, a move queued four times leaves the cube as it was. */
  lemma FourMovesSettle(s: EngineState, m: Move)
    requires EngineCoherent(s) && !s.animating && Known(m)
    ensures AllKnown([m, m, m, m])
    ensures Settle(AddMoves(s, [m, m, m, m])).cubies == s.cubies
  {
    FourMovesRestore(s.cubies, m);
    AddedMovesSettle(s, [m, m, m, m]);
  }

  /** The queue at work on three moves: the first is in flight at once and
      the others wait in order; a move added meanwhile joins the tail and
      leaves the one in flight alone; each completion starts the next. */
  lemma ThreeMoveScenario(s: EngineState, a: Move, b: Move, c: Move, extra: Move)
    requires EngineCoherent(s) && !s.animating && Known(a) && Known(b) && Known(c) && Known(extra)
    ensures AllKnown([a, b, c]) && AllKnown([extra])
    ensures var s1 := AddMoves(s, [a, b, c]);
      && s1.animating && s1.tween.value.move == a && s1.queue == [b, c]
      && var s2 := AddMoves(s1, [extra]);
      && s2.tween == s1.tween && s2.queue == [b, c, extra]
      && var s3 := Complete(s2);
      && s3.cubies == ApplyMove(s.cubies, a) && s3.tween.value.move == b && s3.queue == [c, extra]
  {
    var s1 := AddMoves(s, [a, b, c]);
    AddMovesAppends(s, [a, b, c]);
    ProcessQueueTakesHead(s.(queue := [a, b, c]));
    var s2 := AddMoves(s1, [extra]);
    AddMovesAppends(s1, [extra]);
    CompleteAppliesHead(s2);
    var f := Finish(s2);
    assert f.queue == [b, c, extra];
  }
}
