# Rubik's cube engine: a verified model

This project models the cube state and move engine of RubiksCubeAnalyser, a
browser app that draws a 3x3x3 Rubik's cube and animates moves typed in
standard notation. The model covers these parts:

- **Move table.** `MOVE_DEFINITIONS` maps each face token to a rotation
  axis, a quarter-turn angle and a slice. The sticker colours and the cubie
  spacing are kept beside it (`constants.dfy`).
- **Parser.** `parseMoveString` turns a string such as `R U' F2` into move
  descriptors `{face, direction, double}` (`move_parser.dfy`).
- **Cubie factory.** `createCubie` makes one sub-cube with a position and
  six face colours (`cubie.dfy`).
- **Exact rotations.** Positions on the integer lattice are turned by exact
  quarter-turns about x, y and z (`lattice.dfy`).
- **The cube.** The 26 cubies built by `createCube`, and the slice
  selection done by `getCubiesForMove` (`cube_model.dfy`).
- **Turns.** What a completed move does to the cubies (`turns.dfy`).
- **Sequencer.** The animation queue as a state machine on values:
  - a FIFO of moves;
  - an "animating" flag;
  - a pivot holding the slice in flight;
  - the tween's completion callback that reattaches the slice.

  It lives in `sequencer.dfy`.
- **`RubiksCube` class.** The engine class of `src/lib/RubiksCube.js`, as a
  Dafny class. Each method is proved to perform one sequencer transition
  (`engine.dfy`).
- **React hook component.** `RubiksCubeScene` of
  `src/components/RubiksCube.js`, as a class whose methods are its effects
  and callbacks. It is proved to do what the engine class does
  (`hook.dfy`).

Angles are counted in quarter-turns: +1 stands for `PI_HALF`. A cubie's
orientation is its six colour slots, in `faceMapping` order (+x, −x, +y,
−y, +z, −z). A rotation by a quarter-turn moves the position exactly and
permutes the slots to match. Three.js instead rotates the mesh and leaves
its material array in place; the slot permutation is the equivalent view in
the world frame, with the floating-point matrix replaced by an exact one.

Main results:

- The parser yields only upper-case table faces. It ignores letter case and
  unknown modifiers, and drops blank tokens and unknown faces.
- A fresh cube is 26 distinct cubies, one on every lattice point except the
  centre. Their stickers face out. The slices along every axis partition
  the cube into 9, 8 and 9 cubies.
- A turn keeps the cube valid. It keeps the membership of the turned slice
  and of the other slices along the same axis; slices along the other two
  axes do change. Turns of one slice compose additively.
- A move followed by its inverse restores the cube. So does a move applied
  four times, and a double move applied twice.
- Moves added to an idle engine all complete, in order. The final cube is
  the moves applied one after another.
- While a move is in flight, added moves join the tail of the queue and
  leave the move in flight alone.
- On the component, the effect on the moves followed by the effect on the
  queue equals the engine class's `addMovesToQueue`. A tween completion
  followed by the queue effect equals the class's completion callback.

Where the code and the descriptions around it differ, the model follows the
code:

- **Lower-case entries.** The table has lower-case "wide" and "rotation"
  entries, but the parser upper-cases every token first. So those entries
  are never reached from text (`MoveParser.ParseFaces`).
- **Wide and rotation entries name one slice.** Each wide entry u d l r f b
  names a single slice, exactly like its upper-case face
  (`Constants.WideEntriesEqualSingleLayer`). The rotation entries x, y, z
  carry exactly the axis, angle and slice of R, U and F
  (`Constants.RotationEntriesEqualFaceTurns`).
  The comment in `src/lib/constants.js` calls them wide turns and whole-cube
  rotations, but they turn one slice only.
- **The middle slice holds 8 cubies.** No cubie is created at the centre,
  so the middle slice of a fresh cube holds 8 cubies, not 9
  (`CubeModel.InitialSliceSizes`).

## Model

| member | source | states |
|---|---|---|
| Constants.EntriesWellFormed | src/lib/constants.js:17-43 | every entry's `face` is its own key, its slice is -1, 0 or 1, and its angle is a non-zero quarter turn (±PI_HALF) |
| Constants.TableKeysExact | src/lib/constants.js:17-43 | the table's keys are exactly the nine upper-case and nine lower-case tokens |
| Constants.TableHasEighteenKeys | src/lib/constants.js:17-43 | the table has exactly eighteen distinct entries |
| Constants.UpperKeysAreNonLowerKeys | src/lib/constants.js:19-29 | the keys that are not lower-case letters are exactly U D L R F B M E S |
| Constants.OppositeFacesMirror | src/lib/constants.js:19-24 | U/D, L/R and F/B share an axis, name opposite outer slices and carry opposite angles |
| Constants.MiddleSliceMoves | src/lib/constants.js:27-29 | M, E, S turn the middle slice about x, y, z, and they are the only entries with slice 0 |
| Constants.WideEntriesEqualSingleLayer | src/lib/constants.js:19-37 | each lower-case wide entry has the same axis, angle and single slice as its upper-case face |
| Constants.RotationEntriesEqualFaceTurns | src/lib/constants.js:19-42 | the rotation entries x, y, z have the same axis, angle and single slice as R, U and F |
| Constants.FaceColorsDistinct | src/lib/constants.js:6-13 | the six face colours are keyed by U D L R F B, pairwise distinct, and none is the interior colour 0x101010 |
| MoveParser.ParseMoveString | src/lib/move_parser.js:3-28 | the loop over the tokens returns exactly `Parse(input)`: one descriptor per accepted token, in token order |
| MoveParser.TokenizeShape | src/lib/move_parser.js:6 | blank input splits into the single empty token; otherwise no token is empty; every token is free of whitespace and lower-case letters |
| MoveParser.ParseBlank | src/lib/move_parser.js:6-10 | whitespace-only input gives the single empty token, which is skipped, so no descriptor |
| MoveParser.ParseFaces | src/lib/move_parser.js:6-24 | every descriptor's face is an upper-case key of the table and its direction is 1 or -1 |
| MoveParser.ParseLength | src/lib/move_parser.js:9-25 | there are never more descriptors than tokens, and exactly as many iff every token is accepted |
| MoveParser.ParseTokensAppend | src/lib/move_parser.js:9-25 | parsing a concatenation of token lists concatenates the descriptors, so order is preserved |
| MoveParser.ParseTokensPointwise | src/lib/move_parser.js:9-25 | when every token is accepted, descriptor i is the one of token i |
| MoveParser.ParseTokensOrigin | src/lib/move_parser.js:9-25 | every descriptor comes from some token of the input |
| MoveParser.ParseSingleToken | src/lib/move_parser.js:12-24 | a one-token input with a known face (either case) gives one descriptor: the upper-cased face, direction -1 iff the modifier holds `'`, double iff it holds `2`; an unknown face gives none |
| MoveParser.ParseCaseInsensitive | src/lib/move_parser.js:6 | an input and its upper-cased form parse to the same descriptors |
| MoveParser.IgnoredModifier | src/lib/move_parser.js:21-22 | deleting a modifier character other than `'` and `2` leaves the token's descriptor unchanged |
| Cubies.NewCubie | src/lib/cubie.js:31-33 | the new cubie has six colour slots and sits at the given position |
| Cubies.CreateCubie | src/lib/cubie.js:4-34 | the loop over `faceMapping` yields the cubie whose slot i shows that face's colour when the cubie lies on that outer face, the interior colour otherwise |
| Cubies.NewCubieColoring | src/lib/cubie.js:19-29 | slot i of a new cubie is coloured iff it faces out, and then it shows the face colour of `faceMapping[i]` |
| Cubies.ColoredSlots | src/lib/cubie.js:10-24 | of two opposite slots at most one is coloured, so an outward cubie shows at most three stickers; on the lattice, one per non-zero coordinate |
| Cubies.RotateKeepsOutward | src/lib/RubiksCube.js:63-66 | a cubie turned by the pivot and reattached still shows stickers exactly on its outward faces |
| Cubies.RotateCubieCompose | src/lib/RubiksCube.js:63-66 | two turns of a cubie about one axis are one turn by the sum, colours included |
| Cubies.FourQuarterTurnsCubie | src/lib/RubiksCube.js:63-66 | four quarter-turns restore a cubie's position and colours |
| Lattice.RotateFacts | src/lib/RubiksCube.js:63-66 | a rotation keeps the coordinate along its axis, keeps the lattice, maps only the centre to the centre and is injective |
| Lattice.RotateInverse | src/lib/RubiksCube.js:63-66 | a turn followed by the opposite turn restores a position |
| CubeModel.CreateColumn | src/lib/RubiksCube.js:24-31 | the innermost loop over z builds `Column(x, y, 3)`, skipping the centre |
| CubeModel.CreatePlane | src/lib/RubiksCube.js:23-32 | the loop over y builds `Plane(x, 3)` |
| CubeModel.CreateCubies | src/lib/RubiksCube.js:22-33 | the three nested loops build `InitialCubies()` |
| CubeModel.InitialCubiesValid | src/lib/RubiksCube.js:21-34 | a fresh cube is 26 cubies at pairwise distinct non-centre lattice points, one at each such point, each coloured outward |
| CubeModel.InSliceExact | src/lib/RubiksCube.js:73-83 | on lattice coordinates the half-cubie threshold test holds iff the coordinate equals slice times the cubie size |
| CubeModel.Select | src/lib/RubiksCube.js:73-83 | the filter yields increasing indices, and an index is selected iff its cubie passes the threshold test |
| CubeModel.SlicesPartition | src/lib/RubiksCube.js:73-83 | when every cubie is on the lattice, the slices -1, 0 and 1 along an axis are disjoint and together select every cubie |
| CubeModel.InitialSliceSizes | src/lib/RubiksCube.js:73-83 | on a fresh cube, each outer slice holds 9 cubies and the middle slice 8 |
| Turns.TurnRange | src/lib/RubiksCube.js:54-55 | a parsed move turns by ±1 or ±2 quarter-turns, ±2 iff double, and its inverse turns by the opposite amount |
| Turns.ReattachStep | src/lib/RubiksCube.js:65 | putting back one more cubie from the pivot rotates exactly that cubie, which had not yet been rotated |
| Turns.TurnSliceEffect | src/lib/RubiksCube.js:57-66 | every cubie in the slice lands rotated, colours included, at the rotated position; every other cubie is unchanged |
| Turns.TurnSliceKeepsSelection | src/lib/RubiksCube.js:57-66 | after a turn the turned slice, and every other slice along the same axis, holds the same cubies |
| Turns.TurnSliceKeepsValid | src/lib/RubiksCube.js:57-66 | a turn maps a valid cube to a valid one: still 26 distinct outward cubies on the lattice |
| Turns.TurnSliceCompose | src/lib/RubiksCube.js:53-71 | two turns of one slice are one turn by the sum |
| Turns.TurnSliceFullTurn | src/lib/RubiksCube.js:53-71 | a whole number of full turns leaves the cubies as they were |
| Turns.TurnSliceFourTimes | src/lib/RubiksCube.js:53-71 | four equal turns of a slice restore the cubies |
| Turns.ApplyMoveThenInverse | src/lib/RubiksCube.js:53-71 | a move followed by its inverse restores the cubies exactly |
| Turns.ApplyMoveTwice | src/lib/RubiksCube.js:53-71 | a move applied twice turns its slice by twice its turn |
| Turns.MoveOrder | src/lib/RubiksCube.js:53-71 | a move applied four times restores the cubies, and a double move applied twice does |
| Turns.FourMovesRestore | src/lib/RubiksCube.js:53-71 | the move sequence of one move four times restores the cubies |
| Turns.ApplyMovesAppend | src/lib/RubiksCube.js:36-51 | applying a concatenation of move lists applies one list after the other |
| Turns.ApplyMovesKeepValid | src/lib/RubiksCube.js:53-71 | any sequence of moves keeps the cube valid |
| Turns.ParsedMovesKnown | src/lib/move_parser.js:16-24 | every parsed move names a table entry, so the engine can always look up its definition |
| Sequencer.InitialCoherent | src/lib/RubiksCube.js:7-19 | a new engine is idle with an empty queue, nothing pending and a valid fresh cube |
| Sequencer.ProcessEmptyQueue | src/lib/RubiksCube.js:44-47 | processing an empty queue only clears the flag |
| Sequencer.ProcessQueueTakesHead | src/lib/RubiksCube.js:48-50 | processing a non-empty queue removes exactly its head, sets the flag, puts that move in flight with its slice on the pivot, and changes no cubie |
| Sequencer.AddMovesAppends | src/lib/RubiksCube.js:36-41 | adding moves appends them to the pending moves in order and changes no cubie; while a move is in flight, that move and its pivot stay; the flag ends set iff it was set or moves were added |
| Sequencer.CompleteAppliesHead | src/lib/RubiksCube.js:63-69 | completion applies exactly the move in flight, resets the pivot rotation, drops that move from the pending ones, and starts the next one iff the queue is non-empty |
| Sequencer.Settle | src/lib/RubiksCube.js:63-69 | repeated completions drain every pending move, leaving the engine idle with the pending moves applied in order |
| Sequencer.AddedMovesSettle | src/lib/RubiksCube.js:36-69 | moves added to an idle engine complete in the order given |
| Sequencer.ParsedMovesSettle | src/lib/RubiksCube.js:36-69 | on an idle engine the moves of any input complete in the order they were written |
| Sequencer.MoveThenInverseSettles | src/lib/RubiksCube.js:36-69 | queuing a move and its inverse leaves the cube as it was |
| Sequencer.FourMovesSettle | src/lib/RubiksCube.js:36-69 | queuing one move four times leaves the cube as it was |
| Sequencer.ThreeMoveScenario | src/lib/RubiksCube.js:36-69 | with three moves queued, the first is in flight and the others wait in order; a move added meanwhile joins the tail; a completion applies the first and starts the second |
| Engine.RubiksCube.constructor | src/lib/RubiksCube.js:7-19 | a new engine holds the fresh cube, an empty queue, no move in flight |
| Engine.RubiksCube.CreateCube | src/lib/RubiksCube.js:21-34 | appends the fresh cube's cubies to the list and changes nothing else |
| Engine.RubiksCube.AddMovesToQueue | src/lib/RubiksCube.js:36-41 | performs the `AddMoves` transition and keeps the engine invariant |
| Engine.RubiksCube.ProcessQueue | src/lib/RubiksCube.js:43-51 | performs the `ProcessQueue` transition |
| Engine.RubiksCube.AnimateMove | src/lib/RubiksCube.js:53-62 | attaches the move's slice to the pivot, in cube order, and starts the tween towards the move's turn |
| Engine.RubiksCube.OnComplete | src/lib/RubiksCube.js:63-69 | performs the `Complete` transition and keeps the engine invariant |
| Engine.RubiksCube.DetachPivot | src/lib/RubiksCube.js:64-65 | puts every cubie on the pivot back, rotated by the pivot's rotation, and empties the pivot |
| Engine.RubiksCube.GetCubiesForMove | src/lib/RubiksCube.js:73-83 | returns the indices selected by the threshold test, in order |
| SceneHook.MovesEffectPending | src/components/RubiksCube.js:188-192 | on a mounted scene the moves effect appends to the pending moves; unmounted, it changes nothing |
| SceneHook.QueueEffectRestores | src/components/RubiksCube.js:182-186 | the queue effect restores "idle only with an empty queue" and keeps the pending moves and the cubies |
| SceneHook.FinishAppliesHead | src/components/RubiksCube.js:146-151 | the completion callback applies exactly the move in flight and clears the flag, leaving the queue |
| SceneHook.CompletionMatchesEngine | src/components/RubiksCube.js:146-151 | completion followed by the queue effect equals the engine class's completion |
| SceneHook.AddingMatchesEngine | src/components/RubiksCube.js:174-192 | for every move list, the empty one included, the moves effect followed by the queue effect equals the engine class's `addMovesToQueue` |
| SceneHook.SceneSettles | src/components/RubiksCube.js:182-192 | on a mounted, idle scene the moves of any input complete in the order written; an input with no move leaves the scene as it was |
| SceneHook.RubiksCubeScene.constructor | src/components/RubiksCube.js:11-17 | the first render holds every state cell at its initial value |
| SceneHook.RubiksCubeScene.Mount | src/components/RubiksCube.js:77-81 | the mount effect marks the scene ready and installs the fresh cube, giving the initial engine state |
| SceneHook.RubiksCubeScene.CreateCube | src/components/RubiksCube.js:101-122 | the nested loops' new list replaces the cubies; nothing else changes |
| SceneHook.RubiksCubeScene.OnMovesChanged | src/components/RubiksCube.js:188-192 | performs `MovesEffect` and keeps the component invariant |
| SceneHook.RubiksCubeScene.AddMovesToQueue | src/components/RubiksCube.js:174-180 | the queue becomes the old queue followed by the moves |
| SceneHook.RubiksCubeScene.OnQueueChanged | src/components/RubiksCube.js:182-186 | performs `QueueEffect` and keeps the component invariant |
| SceneHook.RubiksCubeScene.ProcessQueue | src/components/RubiksCube.js:155-172 | performs the sequencer's `ProcessQueue` transition |
| SceneHook.RubiksCubeScene.AnimateMove | src/components/RubiksCube.js:136-145 | attaches the move's slice to the pivot and starts the tween towards the move's turn |
| SceneHook.RubiksCubeScene.OnComplete | src/components/RubiksCube.js:146-151 | performs `Finish`: the slice is put back rotated and the flag cleared, with the queue left for the effect |
| SceneHook.RubiksCubeScene.DetachPivot | src/components/RubiksCube.js:147-148 | puts every cubie on the pivot back, rotated by the pivot's rotation, and empties the pivot |
| SceneHook.RubiksCubeScene.GetCubiesForMove | src/components/RubiksCube.js:124-134 | returns the indices selected by the threshold test, in order |

## Left out

- Rendering is not modelled, because it only draws the state: the WebGL
  renderer, camera, lights, orbit controls, resize handling, the animation
  frame loop and the second effect that adds groups to the scene.
- Meshes, box geometry and material options (roughness, metalness, the 0.95
  size factor) are not modelled. A cubie is its position and its six slot
  colours.
- Tween timing, easing and `ANIMATION_SPEED` are not modelled. A tween is
  its target turn, and its completion is one atomic callback. Intermediate
  pivot angles are never observed by the engine.
- Floating-point angles and matrices are replaced by exact integer
  quarter-turns. Three.js's world-matrix reparenting in `attach` becomes the
  exact rotation of position and colour slots. So the rounding that could
  move a cubie off the lattice is not modelled.
- React's scheduling, batching and stale closures are not modelled. Each
  effect or callback runs to completion before the next one. The queue
  updater in `processQueue` reads the same queue that the length test saw.
  Its side effects (setting the flag, starting the animation) run once.
- `console.log` in the parser and in `processQueue` is left out, because it
  is output only.
- `RubiksCube.scene`, `cubeGroup` and the scene graph are not modelled. The
  cube group is the list of cubies and the pivot is a list of indices.
- Page, UI and the `RubiksCubeScene` wrapper under `src/components/` are
  not part of this model.
- MoveParser.ToUpper: upper-cases ASCII letters only. JavaScript's
  `toUpperCase` also maps other letters, and some of them change the
  string's length.
- Engine.RubiksCube.AnimateMove requires a face that is a key of the table.
  The source would throw on destructuring `undefined` for any other face.
  Every parsed move is such a face (`Turns.ParsedMovesKnown`).
- SceneHook.RubiksCubeScene.AnimateMove has the same requirement as
  Engine.RubiksCube.AnimateMove, for the same reason.
- Sequencer.Settle: the state reached once every tween has completed. It
  models completions arriving one by one, not their timing.
- SceneHook.RubiksCubeScene.Mount: does not model the early return when the
  mount node is missing. The component always renders its node before
  effects run.
