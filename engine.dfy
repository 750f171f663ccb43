/** The cube engine: a class that owns the 26 cubies, the queue of moves
    waiting to be animated, the flag that is set while a move is in flight,
    and the pivot group the moving slice is attached to. Each method is
    proved to perform one transition of the sequencer. */
module Engine {
  import opened Wrappers
  import opened Constants
  import opened Cubies
  import opened MoveParser
  import opened CubeModel
  import opened Turns
  import opened Sequencer

  class RubiksCube {
    var cubies: seq<Cubie>
    var animationQueue: seq<Move>
    var isAnimating: bool
    /** Indices of the cubies currently attached to the pivot. */
    var pivot: seq<nat>
    /** Rotation of the pivot about the axis of the move in flight, in
        quarter-turns. */
    var pivotRotation: int
    /** The running tween, if any. */
    var tween: Option<Tween>

    function State(): EngineState
      reads this
    {
      EngineState(cubies, animationQueue, isAnimating, pivot, pivotRotation, tween)
    }

    predicate Valid()
      reads this
    {
      EngineCoherent(State())
    }

    /** A new engine holds a fresh cube and nothing to animate. */
    constructor()
      ensures State() == InitialState()
      ensures Valid()
    {
      cubies := [];
      animationQueue := [];
      isAnimating := false;
      pivot := [];
      pivotRotation := 0;
      tween := None;
      new;
      CreateCube();
      InitialCoherent();
    }

    /** Adds one cubie per lattice point except the origin, in the order
        of the three nested loops over x, y and z. */
    method CreateCube()
      modifies this
      ensures cubies == old(cubies) + InitialCubies()
      ensures old(cubies) == [] ==> cubies == InitialCubies()
      ensures animationQueue == old(animationQueue) && isAnimating == old(isAnimating)
      ensures pivot == old(pivot) && pivotRotation == old(pivotRotation) && tween == old(tween)
    {
      ghost var before := cubies;
      var created := CreateCubies();
      cubies := cubies + created;
      if before == [] {
        assert before + created == created;
      }
    }

    /** Queues the moves at the tail and starts processing unless a move is
        in flight. */
    method AddMovesToQueue(moves: seq<Move>)
      requires Valid() && AllKnown(moves)
      modifies this
      ensures State() == AddMoves(old(State()), moves)
      ensures Valid()
    {
      AddMovesAppends(State(), moves);
      animationQueue := animationQueue + moves;
      if !isAnimating {
        ProcessQueue();
      }
    }

    /** Takes the head of the queue and animates it, or clears the flag when
        the queue is empty. */
    method ProcessQueue()
      requires AllWellFormed(cubies) && AllKnown(animationQueue) && pivot == []
      modifies this
      ensures State() == Sequencer.ProcessQueue(old(State()))
    {
      if |animationQueue| == 0 {
        isAnimating := false;
        return;
      }
      isAnimating := true;
      var move := animationQueue[0];
      animationQueue := animationQueue[1..];
      AnimateMove(move);
    }

    /** Attaches the cubies of the move's slice to the pivot and starts the
        tween towards the move's turn. */
    method AnimateMove(move: Move)
      requires AllWellFormed(cubies) && Known(move) && pivot == []
      modifies this
      ensures State() == Animate(old(State()), move)
    {
      var d := MoveDefinitions[move.face];
      var turnAngle := d.angle * move.direction * (if move.double then 2 else 1);
      var cubiesToRotate := GetCubiesForMove(d.axis, d.slice);
      for k := 0 to |cubiesToRotate|
        invariant pivot == cubiesToRotate[..k]
        invariant cubies == old(cubies) && animationQueue == old(animationQueue)
        invariant isAnimating == old(isAnimating) && pivotRotation == old(pivotRotation) && tween == old(tween)
      {
        pivot := pivot + [cubiesToRotate[k]];
      }
      tween := Some(Tween(move, d.axis, turnAngle));
    }

    /** The tween's completion: the pivot has reached the turn, every cubie
        on it is put back rotated, the pivot's rotation is reset, the flag is
        cleared and the next queued move, if any, starts. */
    method OnComplete()
      requires Valid() && isAnimating
      modifies this
      ensures State() == Complete(old(State()))
      ensures Valid()
    {
      CompleteAppliesHead(State());
      var t := tween.value;
      pivotRotation := t.turns;
      DetachPivot(t.axis);
      pivotRotation := 0;
      isAnimating := false;
      tween := None;
      ProcessQueue();
    }

    /** Moves every cubie on the pivot back to the cube, keeping the pivot's
        rotation about `axis`. */
    method DetachPivot(axis: Axis)
      requires AllWellFormed(cubies) && SortedIndices(pivot, |cubies|)
      modifies this
      ensures cubies == Reattach(old(cubies), old(pivot), axis, pivotRotation)
      ensures pivot == []
      ensures animationQueue == old(animationQueue) && isAnimating == old(isAnimating)
      ensures pivotRotation == old(pivotRotation) && tween == old(tween)
    {
      var members := pivot;
      for k := 0 to |members|
        invariant cubies == Reattach(old(cubies), members[..k], axis, pivotRotation)
        invariant pivot == members[k..]
        invariant animationQueue == old(animationQueue) && isAnimating == old(isAnimating)
        invariant pivotRotation == old(pivotRotation) && tween == old(tween)
      {
        var i := pivot[0];
        ReattachStep(old(cubies), members, k, axis, pivotRotation);
        cubies := cubies[i := RotateCubie(cubies[i], axis, pivotRotation)];
        pivot := pivot[1..];
      }
      assert members[..|members|] == members;
    }

    /** The indices, in order, of the cubies whose coordinate along `axis`
        is within half a cubie of the middle (slice 0) or of the outer layer
        `slice`. */
    method GetCubiesForMove(axis: Axis, slice: int) returns (selected: seq<nat>)
      ensures selected == Select(cubies, axis, slice)
    {
      selected := [];
      for i := 0 to |cubies|
        invariant selected == Select(cubies[..i], axis, slice)
      {
        var pos := cubies[i].position.Get(axis);
        var inSlice;
        if slice == 0 {
          inSlice := 2 * Abs(pos) < CubieSize;
        } else {
          inSlice := 2 * Abs(pos - slice * CubieSize) < CubieSize;
        }
        assert inSlice == InSlice(pos, slice);
        SelectPrefix(cubies, i, axis, slice);
        if inSlice {
          selected := selected + [i];
        }
      }
      assert cubies[..|cubies|] == cubies;
    }
  }
}
