/** The React-component variant of the engine. Its state lives in hook state
    cells, and two effects drive it: one enqueues the `moves` prop once the
    scene exists, the other starts the head of the queue whenever nothing is
    in flight. Unlike the engine class, its completion callback only clears
    the flag and leaves the next move to the queue effect.

    Each effect or callback is one method of the class below; a state setter
    is an assignment that the next effect or callback observes. */
module SceneHook {
  import opened Wrappers
  import opened Constants
  import opened Cubies
  import opened MoveParser
  import opened CubeModel
  import opened Turns
  import opened Sequencer

  /** The state before the scene is mounted: no cubies, nothing queued. */
  function Unmounted(): EngineState {
    EngineState([], [], false, [], 0, None)
  }

  /** The queue updater of `addMovesToQueue`: the old queue followed by the
      new moves. */
  function Enqueue(s: EngineState, moves: seq<Move>): EngineState {
    s.(queue := s.queue + moves)
  }

  /** The effect on `moves`: nothing before the scene exists or for an empty
      list, otherwise enqueue. */
  function MovesEffect(sceneReady: bool, s: EngineState, moves: seq<Move>): EngineState {
    if sceneReady && |moves| > 0 then Enqueue(s, moves) else s
  }

  /** The effect on the queue and the flag: process the queue when nothing
      is in flight and something is queued. */
  function QueueEffect(s: EngineState): EngineState
    requires AllWellFormed(s.cubies) && AllKnown(s.queue)
  {
    if !s.animating && |s.queue| > 0 then ProcessQueue(s) else s
  }

  // ---------------------------------------------------------------------
  // The effects against the engine class

  /** The moves effect appends to the pending moves of a mounted scene, and
      changes nothing else; an unmounted scene ignores the moves. */
  lemma MovesEffectPending(sceneReady: bool, s: EngineState, moves: seq<Move>)
    requires Coherent(s) && AllKnown(moves)
    ensures var r := MovesEffect(sceneReady, s, moves);
      && Coherent(r)
      && Pending(r) == (if sceneReady then Pending(s) + moves else Pending(s))
      && r.cubies == s.cubies && r.tween == s.tween && r.pivot == s.pivot && r.animating == s.animating
  {
    if sceneReady && |moves| > 0 {
      assert AllKnown(s.queue + moves);
    }
  }

  /** Whatever state the other transitions leave, the queue effect restores
      the engine's invariant: idle only with an empty queue. It keeps the
      pending moves and the cubies. */
  lemma QueueEffectRestores(s: EngineState)
    requires Coherent(s)
    ensures EngineCoherent(QueueEffect(s))
    ensures Pending(QueueEffect(s)) == Pending(s)
    ensures QueueEffect(s).cubies == s.cubies
  {
    if !s.animating && |s.queue| > 0 {
      ProcessQueueTakesHead(s);
    }
  }

  /** The completion callback applies exactly the move in flight, clears the
      flag and leaves the queue alone. */
  lemma FinishAppliesHead(s: EngineState)
    requires Coherent(s) && s.animating
    ensures Coherent(Finish(s)) && !Finish(s).animating
    ensures Finish(s).cubies == ApplyMove(s.cubies, s.tween.value.move)
    ensures Pending(Finish(s)) == Pending(s)[1..] && Finish(s).queue == s.queue
  {
    var t := s.tween.value;
    var d := MoveDefinitions[t.move.face];
    assert Finish(s).cubies == TurnSlice(s.cubies, d.axis, d.slice, t.turns);
    TurnSliceKeepsValid(s.cubies, d.axis, d.slice, t.turns);
  }

  /** A completion followed by the queue effect it triggers is the engine
      class's completion. */
  lemma CompletionMatchesEngine(s: EngineState)
    requires Coherent(s) && s.animating
    ensures QueueEffect(Finish(s)) == Complete(s)
  {
    FinishAppliesHead(s);
  }

  /** On a mounted scene at rest between effects, the moves effect followed
      by the queue effect is the engine class's `addMovesToQueue`. */
  lemma AddingMatchesEngine(s: EngineState, moves: seq<Move>)
    requires EngineCoherent(s) && AllKnown(moves)
    ensures AllKnown(MovesEffect(true, s, moves).queue)
    ensures QueueEffect(MovesEffect(true, s, moves)) == AddMoves(s, moves)
  {
    MovesEffectPending(true, s, moves);
  }

  /** On a mounted, idle scene, the moves of any input complete in the order
      they were written, exactly as on the engine class; an input with no
      move leaves the scene as it was. */
  lemma SceneSettles(s: EngineState, input: string)
    requires EngineCoherent(s) && !s.animating
    ensures AllKnown(Parse(input)) && AllKnown(MovesEffect(true, s, Parse(input)).queue)
    ensures var r := QueueEffect(MovesEffect(true, s, Parse(input)));
      EngineCoherent(r) && Settle(r).cubies == ApplyMoves(s.cubies, Parse(input))
    ensures Parse(input) == [] ==> QueueEffect(MovesEffect(true, s, Parse(input))) == s
  {
    ParsedMovesKnown(input);
    if Parse(input) == [] {
      assert ApplyMoves(s.cubies, []) == s.cubies;
    } else {
      AddingMatchesEngine(s, Parse(input));
      ParsedMovesSettle(s, input);
    }
  }

  // ---------------------------------------------------------------------
  // The component

  class RubiksCubeScene {
    /** Whether the mount effect has built the scene. */
    var sceneReady: bool
    var cubies: seq<Cubie>
    var animationQueue: seq<Move>
    var isAnimating: bool
    var pivot: seq<nat>
    var pivotRotation: int
    var tween: Option<Tween>

    function State(): EngineState
      reads this
    {
      EngineState(cubies, animationQueue, isAnimating, pivot, pivotRotation, tween)
    }

    /** Before mounting the state is empty; afterwards it is a coherent
        engine state, though between effects the queue may wait while idle. */
    predicate Valid()
      reads this
    {
      && (!sceneReady ==> State() == Unmounted())
      && (sceneReady ==> Coherent(State()))
    }

    /** The first render: every state cell at its initial value. */
    constructor()
      ensures !sceneReady && State() == Unmounted()
      ensures Valid()
    {
      sceneReady := false;
      cubies := [];
      animationQueue := [];
      isAnimating := false;
      pivot := [];
      pivotRotation := 0;
      tween := None;
    }

    /** The mount effect: builds the scene and replaces the cubies with a
        fresh cube. */
    method Mount()
      requires Valid() && !sceneReady
      modifies this
      ensures sceneReady && State() == InitialState()
      ensures Valid()
    {
      sceneReady := true;
      CreateCube();
      InitialCoherent();
    }

    /** `createCube`: the three nested loops build the list that replaces
        the cubies. */
    method CreateCube()
      modifies this
      ensures cubies == InitialCubies()
      ensures sceneReady == old(sceneReady) && animationQueue == old(animationQueue)
      ensures isAnimating == old(isAnimating) && pivot == old(pivot)
      ensures pivotRotation == old(pivotRotation) && tween == old(tween)
    {
      var newCubies := CreateCubies();
      cubies := newCubies;
    }

    /** The effect on the `moves` prop. */
    method OnMovesChanged(moves: seq<Move>)
      requires Valid() && AllKnown(moves)
      modifies this
      ensures State() == MovesEffect(old(sceneReady), old(State()), moves)
      ensures sceneReady == old(sceneReady) && Valid()
    {
      if !sceneReady || |moves| == 0 {
        return;
      }
      MovesEffectPending(sceneReady, State(), moves);
      AddMovesToQueue(moves);
    }

    /** `addMovesToQueue`: the queue updater appends the moves. */
    method AddMovesToQueue(moves: seq<Move>)
      modifies this
      ensures State() == Enqueue(old(State()), moves)
      ensures sceneReady == old(sceneReady)
    {
      animationQueue := animationQueue + moves;
    }

    /** The effect on the flag and the queue. */
    method OnQueueChanged()
      requires Valid()
      modifies this
      ensures State() == QueueEffect(old(State()))
      ensures sceneReady == old(sceneReady) && Valid()
    {
      if !isAnimating && |animationQueue| > 0 {
        QueueEffectRestores(State());
        ProcessQueue();
      }
    }

    /** `processQueue`: clear the flag on an empty queue; otherwise the
        queue updater takes the head, sets the flag, animates the head and
        leaves the rest. */
    method ProcessQueue()
      requires AllWellFormed(cubies) && AllKnown(animationQueue) && pivot == []
      modifies this
      ensures State() == Sequencer.ProcessQueue(old(State()))
      ensures sceneReady == old(sceneReady)
    {
      if |animationQueue| == 0 {
        isAnimating := false;
        return;
      }
      var move := animationQueue[0];
      var rest := animationQueue[1..];
      isAnimating := true;
      AnimateMove(move);
      animationQueue := rest;
    }

    /** `animateMove`: attaches the slice of the move to the pivot and
        starts the tween towards the move's turn. */
    method AnimateMove(move: Move)
      requires AllWellFormed(cubies) && Known(move) && pivot == []
      modifies this
      ensures State() == Animate(old(State()), move)
      ensures sceneReady == old(sceneReady)
    {
      var d := MoveDefinitions[move.face];
      var turnAngle := d.angle * move.direction * (if move.double then 2 else 1);
      var cubiesToRotate := GetCubiesForMove(d.axis, d.slice);
      for k := 0 to |cubiesToRotate|
        invariant pivot == cubiesToRotate[..k]
        invariant cubies == old(cubies) && animationQueue == old(animationQueue)
        invariant isAnimating == old(isAnimating) && pivotRotation == old(pivotRotation) && tween == old(tween)
        invariant sceneReady == old(sceneReady)
      {
        pivot := pivot + [cubiesToRotate[k]];
      }
      tween := Some(Tween(move, d.axis, turnAngle));
    }

    /** The tween's completion: the cubies on the pivot are put back
        rotated, the pivot's rotation is reset and the flag is cleared; the
        queue effect then starts the next move. */
    method OnComplete()
      requires Valid() && isAnimating
      modifies this
      ensures State() == Finish(old(State()))
      ensures sceneReady == old(sceneReady) && Valid()
    {
      assert sceneReady;
      FinishAppliesHead(State());
      var t := tween.value;
      pivotRotation := t.turns;
      DetachPivot(t.axis);
      pivotRotation := 0;
      isAnimating := false;
      tween := None;
    }

    /** Moves every cubie on the pivot back to the cube group, keeping the
        pivot's rotation about `axis`. */
    method DetachPivot(axis: Axis)
      requires AllWellFormed(cubies) && SortedIndices(pivot, |cubies|)
      modifies this
      ensures cubies == Reattach(old(cubies), old(pivot), axis, pivotRotation)
      ensures pivot == []
      ensures animationQueue == old(animationQueue) && isAnimating == old(isAnimating)
      ensures pivotRotation == old(pivotRotation) && tween == old(tween) && sceneReady == old(sceneReady)
    {
      var members := pivot;
      for k := 0 to |members|
        invariant cubies == Reattach(old(cubies), members[..k], axis, pivotRotation)
        invariant pivot == members[k..]
        invariant animationQueue == old(animationQueue) && isAnimating == old(isAnimating)
        invariant pivotRotation == old(pivotRotation) && tween == old(tween) && sceneReady == old(sceneReady)
      {
        var i := pivot[0];
        ReattachStep(old(cubies), members, k, axis, pivotRotation);
        cubies := cubies[i := RotateCubie(cubies[i], axis, pivotRotation)];
        pivot := pivot[1..];
      }
      assert members[..|members|] == members;
    }

    /** `getCubiesForMove`: the indices, in order, of the cubies within
        half a cubie of the slice along `axis`. */
    method GetCubiesForMove(axis: Axis, slice: int) returns (selected: seq<nat>)
      ensures selected == Select(cubies, axis, slice)
    {
      selected := [];
      for i := 0 to |cubies|
        invariant selected == Select(cubies[..i], axis, slice)
      {
        var pos := cubies[i].position.Get(axis);
        var inSlice;
        if slice == 0 {
          inSlice := 2 * Abs(pos) < CubieSize;
        } else {
          inSlice := 2 * Abs(pos - slice * CubieSize) < CubieSize;
        }
        assert inSlice == InSlice(pos, slice);
        SelectPrefix(cubies, i, axis, slice);
        if inSlice {
          selected := selected + [i];
        }
      }
      assert cubies[..|cubies|] == cubies;
    }
  }
}
