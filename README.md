# Rubik's Cube simulator core in Dafny

This project models the discrete core of an OpenGL Rubik's Cube simulator:

- **The cube state.** There are 27 pieces. Each has a fixed grid position in {-1,0,1}³ and six sticker colours, indexed Front, Back, Left, Right, Up, Down. The module also covers:
  - the piece numbering (`positionToIndex`) and the position key (`encodePositionKey`);
  - face enumeration (`getFaceIndices`);
  - painting the solved cube (`initRubikCube`) and the solved check (`isCubeSolved`);
  - reset and scramble (`resetCube`, `shuffleCube`);
  - the four-turn self-test (`testRotationIdentity`).
- **The quarter-turn engine.** Covers `getOppositeFace`, `rotateCoordinates`, `rotatePositions`/`rotateFace`, the unused `rotatePieceOrientation`, and the relative-slot switch of `getAbsoluteFace`. A turn never moves a piece; it moves colours along a slot permutation and cycles each piece's four side stickers.
- **The animation record and the move queue.** One rotation is animated at a time. Up to 20 further (face, direction, scramble-flag) triples wait in a circular buffer. The operations are start, enqueue or drop, dequeue, cancel, and the per-frame update. The update commits exactly one face turn and then starts the next queued move.
- **The speed timer.** States IDLE, READY, RUNNING and STOPPED, with a move counter and a countdown of scramble moves still to complete.

Modules:

| file | module | contents |
|---|---|---|
| `rubik_types.dfy` | `RubikTypes` | face codes, the colour palette, positions, pieces, moves, the view mapping, timer states, constants |
| `rubik_state.dfy` | `RubikState` | numbering, keys, face slots, `FaceIndices`, the initial cube, `Solved`, class `Cube` |
| `rubik_rotation.dfy` | `RubikRotation` | coordinate rotation, slot permutation, side-sticker cycles, `Turned`, `RotatePositions`/`RotateFace`, the self-test, `AbsoluteFace` |
| `rubik_timer.dfy` | `RubikTimer` | timer transitions as functions over `TimerView`, class `SpeedTimer` |
| `rubik_animation.dfy` | `RubikAnimation` | class `MoveQueue` (three parallel arrays of 20, `head`, `count`), class `RotationAnimation` |
| `rubik_simulator.dfy` | `RubikSimulator` | class `Simulator`: the program's global state and the operations that span several parts |

The program's global objects become classes that are updated in place:

| global | class |
|---|---|
| `g_rubikCube` | `Cube` over an `array<Piece>` |
| `g_animation` | `RotationAnimation` |
| `g_moveQueue` | `MoveQueue` |
| `g_timer` | `SpeedTimer` |

`g_scrambleMovesPending` is held by `SpeedTimer`. Only the timer, reset and scramble code write it.

Every method is proved against a pure specification function:

| method | specification |
|---|---|
| `RotateFace` | `Turned` |
| `MoveQueue` operations | `Contents()`, the window of `count` triples starting at `head` |
| `SpeedTimer` methods | `ResetTimer`, `ArmTimer`, `ScrambleMoveCompleted`, `MoveStarted`, `TimerTick` |
| `Simulator` operations | `Pending()`, the animated move followed by the queue contents |

The program's properties are then proved about these functions.

The following modelling choices apply throughout:

- **Colours** form a datatype of the seven palette constants. `ToleranceIsEquality` shows that the 0.05 Manhattan tolerance of the solved check is colour equality on the palette.
- **Angles** are `real`.
- **Random choices** in `shuffleCube` become a caller-supplied sequence of numbers, `rolls`. Move i takes its face from `rolls[2i] % 6` and its direction from `rolls[2i+1] % 2 == 0`.
- **Log file.** `testRotationIdentity` does nothing without one. The model passes whether it is open as a parameter and returns the per-face match counts the program would log.
- **The camera-derived view mapping** is a parameter of `AbsoluteFace`.

Where the code and its comments disagree, the model follows the code. The colour comments in `include/rubik_constants.h:18-19` put Green on the Right and Blue on the Left. `initRubikCube` paints the x = -1 (LEFT) face Green and the x = 1 (RIGHT) face Blue.

## Model

| member | source | states |
|---|---|---|
| RubikTypes.ToleranceIsEquality | src/rubik_state.cpp:279-308 | two palette colours are farther apart than the 0.05 tolerance exactly when they differ |
| RubikState.PositionToIndex | src/rubik_state.cpp:61-72 | a grid point gets an index in 0..26; layer z=1 takes 0..8 and z=-1 takes 18..26 |
| RubikState.IndexPos | src/rubik_state.cpp:61-72 | every index 0..26 is the index of exactly one grid point |
| RubikState.PositionToIndexBijective | src/rubik_state.cpp:61-72 | the numbering is a bijection from {-1,0,1}³ onto 0..26 |
| RubikState.EncodePositionKey | src/rubik_state.cpp:142-147 | the key of a grid point lies in 0..26 |
| RubikState.EncodePositionKeyInjective | src/rubik_state.cpp:142-147 | different grid points get different keys |
| RubikState.FaceSlotOf | src/rubik_state.cpp:81-140 | a point on a face has a slot 0..8 in the face's scan order, and that slot's position is the point |
| RubikState.FaceSlotRoundTrip | src/rubik_state.cpp:81-140 | slot to position to slot is the identity |
| RubikState.FaceIndicesFacts | src/rubik_state.cpp:81-140 | the 9 face indices are distinct and in range; each lies on the face's plane; every piece on the plane is listed; slot 4 is the face centre |
| RubikState.ListedIffOnFace | src/rubik_state.cpp:81-140 | a piece index is listed for a face exactly when the piece lies on that face |
| RubikState.GetFaceIndices | src/rubik_state.cpp:81-140 | the nested scan loops fill the output array with exactly `FaceIndices(face)` |
| RubikState.ScanFrontOrBack | src/rubik_state.cpp:86-102 | the z-plane scan (rows by y, columns by x) yields `FaceIndices` for FRONT and BACK |
| RubikState.ScanLeftOrRight | src/rubik_state.cpp:104-120 | the x-plane scan yields `FaceIndices` for LEFT and RIGHT |
| RubikState.ScanUpOrDown | src/rubik_state.cpp:122-138 | the y-plane scan yields `FaceIndices` for UP and DOWN |
| RubikState.InitialPieces | src/rubik_state.cpp:161-241 | the initial cube is well formed and every piece sits at the position its index names |
| RubikState.InitialStickers | src/rubik_state.cpp:181-230 | after initialisation a sticker shows the face's colour exactly when the piece lies on that face, and black otherwise; face colours are distinct and not black |
| RubikState.InitialIsSolved | src/rubik_state.cpp:279-308 | the initial cube passes the solved check |
| RubikState.PaintColors | src/rubik_state.cpp:181-230 | the per-piece painting code produces `InitialColors` of the piece's position |
| RubikState.Cube.constructor | src/rubik_state.cpp:161-241 | a new cube holds the initial pieces |
| RubikState.Cube.Init | src/rubik_state.cpp:161-241 | after the k/j/i loops every grid point's piece is at that point, and the array equals the initial pieces |
| RubikState.Cube.FillRow | src/rubik_state.cpp:172-233 | one pass of the innermost loop writes the next three pieces of the initial cube and keeps the ones before them |
| RubikState.Cube.IsSolved | src/rubik_state.cpp:279-308 | the result is true exactly when every face's 9 stickers equal its slot-4 sticker |
| RubikState.Cube.FaceIsUniform | src/rubik_state.cpp:290-305 | the early-return loop over one face answers whether all 9 stickers equal the centre sticker |
| RubikRotation.OppositeFace | src/rubik_rotation.cpp:21-31 | the result is a valid face; an invalid input yields FRONT |
| RubikRotation.OppositeFaceInvolution | src/rubik_rotation.cpp:21-31 | the opposite of the opposite is the face itself; no face is its own opposite; opposite faces have opposite normals |
| RubikRotation.RotateCoordinates | src/rubik_rotation.cpp:147-200 | the coordinate on the rotation axis is kept; the grid maps into itself; an unknown axis leaves the point unchanged |
| RubikRotation.RotateCoordinatesInverse | src/rubik_rotation.cpp:147-200 | the two directions undo each other |
| RubikRotation.RotateCoordinatesFourTimes | src/rubik_rotation.cpp:147-200 | four same-direction rotations give the identity |
| RubikRotation.AxisMatchesNormal | src/rubik_rotation.cpp:295-317 | a face's rotation axis and sign are the axis and sign of its outward normal |
| RubikRotation.FaceTurnKeepsPlane | src/rubik_rotation.cpp:335-345 | turning a point on a face leaves it on that face in the grid, and keeps the centre fixed |
| RubikRotation.SlotPermutation | src/rubik_rotation.cpp:319-349 | the destination and source slot maps are mutually inverse permutations of 0..8, and both fix slot 4 |
| RubikRotation.DestSlotPos | src/rubik_rotation.cpp:335-348 | a slot's destination slot is the slot of its rotated position |
| RubikRotation.SourceSlotFourTimes | src/rubik_rotation.cpp:319-349 | following the source map four times returns to the start slot |
| RubikRotation.CycleFollowsTurn | src/rubik_rotation.cpp:369-421 | after the side cycle, the sticker on side h is the one from side g whenever the turn carries g's normal to h's |
| RubikRotation.CycleSidesDisplay | src/rubik_rotation.cpp:369-421 | for each axis and direction, the exact four side assignments the code performs, with the two axis stickers copied unchanged |
| RubikRotation.CycleSidesInverse | src/rubik_rotation.cpp:369-421 | the two side-cycle directions undo each other |
| RubikRotation.CycleSidesFourTimes | src/rubik_rotation.cpp:369-421 | four side cycles give the identity |
| RubikRotation.CycleSidesPermutes | src/rubik_rotation.cpp:369-421 | a side cycle keeps a piece's multiset of stickers |
| RubikRotation.Cycle4KeepsBag | src/rubik_rotation.cpp:380-421 | each temp-swap 4-cycle keeps the multiset of stickers |
| RubikRotation.Turned | src/rubik_rotation.cpp:278-432 | a turn yields a well-formed cube whose every piece is `TurnedPiece` of the original |
| RubikRotation.TurnedPiece | src/rubik_rotation.cpp:278-432 | a turned piece keeps its position and six stickers |
| RubikRotation.TurnedAt | src/rubik_rotation.cpp:356-421 | face slot d receives the stickers of its source slot; the centre copies them unchanged; other slots cycle their side stickers |
| RubikRotation.TurnedFrame | src/rubik_rotation.cpp:356-423 | pieces off the face are unchanged, no position changes, and the face centre keeps its whole sticker set |
| RubikRotation.TurnedOffFace | src/rubik_rotation.cpp:356-423 | a piece not listed for the turned face is unchanged |
| RubikRotation.FourTurnsAtSlot | src/rubik_rotation.cpp:441-448 | four turns of the same face restore the stickers at every face slot |
| RubikRotation.FourTurnsIdentity | src/rubik_state.cpp:330-362 | four turns of the same face in the same direction restore all 27 pieces |
| RubikRotation.TurnKeepsStickerSets | src/rubik_rotation.cpp:441-448 | a turn keeps the multiset of the pieces' sticker multisets |
| RubikRotation.OriginInjective | src/rubik_rotation.cpp:356-365 | distinct pieces draw their stickers from distinct pieces |
| RubikRotation.BijectionKeepsBag | src/rubik_rotation.cpp:356-365 | copying along an injective index map keeps a multiset |
| RubikRotation.RotatePositions | src/rubik_rotation.cpp:278-432 | the in-place backup, key table, mapping and copy loops leave the cube equal to `Turned` of the old cube |
| RubikRotation.SnapshotColors | src/rubik_rotation.cpp:285-293 | the backup holds the colours of the 9 face pieces in slot order |
| RubikRotation.KeyToSlotTable | src/rubik_rotation.cpp:322-332 | the key table maps each face slot's position key back to its slot |
| RubikRotation.DestinationOf | src/rubik_rotation.cpp:335-346 | the rotated position's key is always found, and it gives that slot's destination slot, so `destSlot` is never -1 |
| RubikRotation.RecordSource | src/rubik_rotation.cpp:335-349 | one pass of the mapping loop records slot i as the source of its destination and keeps earlier entries |
| RubikRotation.InvertedSlots | src/rubik_rotation.cpp:319-349 | once every source is recorded at its destination, the mapping equals the source map: a permutation that fixes slot 4 |
| RubikRotation.SlotMapping | src/rubik_rotation.cpp:319-349 | the mapping array built by the code is the source-slot permutation |
| RubikRotation.FaceSlotsHold | src/rubik_rotation.cpp:328-332 | on a well-placed cube each listed face piece sits at its slot's position |
| RubikRotation.WriteTurnedColors | src/rubik_rotation.cpp:356-423 | the copy-and-cycle loop writes exactly the turned colours of the 9 face pieces and nothing else |
| RubikRotation.PartlyTurnedEnds | src/rubik_rotation.cpp:356-423 | after all 9 slots are written the cube is the turned cube |
| RubikRotation.RotateFace | src/rubik_rotation.cpp:441-461 | a face turn leaves the cube equal to `Turned` of the old cube |
| RubikRotation.PieceOrientationVersusTurnCycle | src/rubik_rotation.cpp:211-269 | the unused per-piece helper agrees with the inline cycle on the X and Z axes and runs the Y-axis cycle the other way |
| RubikRotation.PieceOrientationYAxisCounterexample | src/rubik_rotation.cpp:255-260 | a concrete sticker on which the helper's clockwise UP cycle and the inline one disagree |
| RubikRotation.RotatePieceOrientation | src/rubik_rotation.cpp:211-269 | the helper rewrites one piece's stickers with its own cycle and leaves every other piece unchanged |
| RubikRotation.ChannelMatchesIsEquality | src/rubik_state.cpp:349-352 | all three channels of two palette colours match exactly when the colours are equal |
| RubikRotation.CountMatches | src/rubik_state.cpp:346-356 | the match count is at most 27·6·3, and it reaches that bound exactly when every piece's colours equal the saved ones |
| RubikRotation.RestoreColors | src/rubik_state.cpp:365-371 | writing the saved colours back restores the cube |
| RubikRotation.TestRotationIdentity | src/rubik_state.cpp:310-375 | without a log it does nothing; with one, each face's four turns give the full match count, and the cube ends unchanged |
| RubikRotation.AbsoluteFace | src/rubik_rotation.cpp:471-506 | relative slots 0..5 select the mapping's front, up, right, left, down and back; any other value selects front |
| RubikRotation.RelativeSlotsPairUp | src/rubik_rotation.cpp:476-486 | on a consistent view mapping, relative slots r and 5-r select opposite absolute faces |
| RubikRotation.StraightViewMapping | src/rubik_rotation.cpp:476-486 | with the unrotated mapping, slots 0..5 select FRONT, UP, RIGHT, LEFT, DOWN, BACK |
| RubikTimer.ResetTimer | src/rubik_timer.cpp:14-22 | IDLE with move count 0; the scramble countdown is untouched |
| RubikTimer.ArmTimer | src/rubik_timer.cpp:24-32 | READY with move count 0 |
| RubikTimer.ScrambleMoveCompleted | src/rubik_timer.cpp:34-42 | the state is unchanged unless the move was a scramble move with a positive countdown; otherwise the countdown drops by one without going negative, and the timer is armed exactly when it reaches 0 |
| RubikTimer.MoveStarted | src/rubik_timer.cpp:44-60 | READY becomes RUNNING with count 1; RUNNING counts up by one; IDLE and STOPPED are unchanged |
| RubikTimer.TimerTick | src/rubik_timer.cpp:62-77 | only RUNNING changes, and it becomes STOPPED exactly when no animation runs and the cube is solved |
| RubikTimer.CountersStayValid | src/rubik_timer.cpp:14-77 | every timer operation keeps the move count and countdown non-negative |
| RubikTimer.MoveCountMonotone | src/rubik_timer.cpp:14-60 | the move count does not go down except by arming, reset, or the READY to RUNNING restart |
| RubikTimer.ScrambleCountdown | src/rubik_timer.cpp:34-42 | after k of n scramble completions the countdown is n-k; the timer is untouched before the last and armed at it |
| RubikTimer.SpeedTimer.constructor | src/rubik_timer.cpp:14-22 | a new timer is IDLE with zero counters |
| RubikTimer.SpeedTimer.ResetTimerState | src/rubik_timer.cpp:14-22 | the timer becomes `ResetTimer` of its old view |
| RubikTimer.SpeedTimer.ArmTimerForSolve | src/rubik_timer.cpp:24-32 | the timer becomes `ArmTimer` of its old view |
| RubikTimer.SpeedTimer.HandleScrambleMoveCompletion | src/rubik_timer.cpp:34-42 | the timer becomes `ScrambleMoveCompleted` of its old view |
| RubikTimer.SpeedTimer.OnMoveStarted | src/rubik_timer.cpp:44-60 | the timer becomes `MoveStarted` of its old view |
| RubikTimer.SpeedTimer.UpdateTimer | src/rubik_timer.cpp:62-77 | the state becomes `TimerTick` of the old state; the counters are unchanged |
| RubikTimer.SpeedTimer.SetScrambleMovesPending | src/rubik_state.cpp:260-261 | only the scramble countdown changes, to the given value |
| RubikAnimation.Window | include/rubik_types.h:42-48 | the queue's contents have exactly `count` elements |
| RubikAnimation.WindowPush | src/rubik_animation.cpp:167-171 | writing a triple at `(head+count) % 20` and incrementing `count` appends it to the contents |
| RubikAnimation.WindowPop | src/rubik_animation.cpp:114-138 | the front of the contents is the triple at `head`; advancing `head` (or resetting it to 0 on empty) and decrementing `count` removes exactly the front |
| RubikAnimation.SlotsDiffer | src/rubik_animation.cpp:167 | the 20 circular positions after `head` are distinct |
| RubikAnimation.MoveQueue.constructor | src/rubik_animation.cpp:32 | a new queue is empty with `head` 0 |
| RubikAnimation.MoveQueue.Enqueue | src/rubik_animation.cpp:153-171 | a triple is accepted exactly when fewer than 20 are queued; an accepted triple is appended; a dropped one leaves the arrays, `head` and `count` unchanged |
| RubikAnimation.MoveQueue.Dequeue | src/rubik_animation.cpp:114-138 | on an empty queue it fails and changes nothing, flags included; otherwise it returns the oldest triple, clears the scramble flag at the old head, leaves every other flag alone and keeps the rest in order; `head` advances mod 20, or resets to 0 when the queue empties |
| RubikAnimation.MoveQueue.Clear | src/rubik_animation.cpp:100-104 | the queue becomes empty with `head` 0 and every scramble flag cleared |
| RubikAnimation.AdvancedAngle | src/rubik_animation.cpp:223-228 | the new angle is angle plus speed·dt, clamped so it never exceeds the target |
| RubikAnimation.RotationAnimation.constructor | src/rubik_animation.cpp:19-29 | a new record is inactive on FRONT, clockwise, with every affected index -1 |
| RubikAnimation.RotationAnimation.IsPieceInAnimation | src/rubik_animation.cpp:70-83 | true exactly when an animation is active and the piece is among the affected indices |
| RubikAnimation.RotationAnimation.AffectedAreFacePieces | src/rubik_animation.cpp:70-83 | during an animation the affected pieces are exactly the pieces on the turning face |
| RubikAnimation.RotationAnimation.Activate | src/rubik_animation.cpp:189-199 | the record becomes active with the given move, angle 0, target 90 and the face's indices |
| RubikAnimation.RotationAnimation.Deactivate | src/rubik_animation.cpp:89-97 | the record becomes inactive with angle 0, no scramble flag and every affected index -1 |
| RubikAnimation.RotationAnimation.Advance | src/rubik_animation.cpp:222-242 | the angle is advanced and clamped; the frame finishes exactly when the angle is within 0.0001 of the target |
| RubikSimulator.AdmitAllPrefix | src/rubik_animation.cpp:153-171 | issuing a run of moves admits the longest prefix that fits beside the animated move and the 20 queue slots, and drops the rest |
| RubikSimulator.ScrambleCount | src/rubik_animation.cpp:41 | the number of scramble moves in a list is bounded by its length; it is 0 exactly when none are scramble moves and the full length exactly when all are |
| RubikSimulator.ScrambleCountAppend | src/rubik_animation.cpp:41 | the scramble count of a concatenation is the sum of the counts |
| RubikSimulator.ScrambleMoves | src/rubik_state.cpp:262-265 | the i-th scramble move uses face `rolls[2i] % 6` and is clockwise exactly when `rolls[2i+1]` is even; all are scramble-flagged |
| RubikSimulator.ScrambleMovesStep | src/rubik_state.cpp:262-265 | issuing one more scramble move admits it as a single `startRotation` would |
| RubikSimulator.SecondScrambleWitness | src/rubik_state.cpp:255-266 | a second 20-move scramble during the first puts 21 scramble moves in flight against a countdown of 20, and the last one starts the solve clock |
| RubikSimulator.Simulator.constructor | src/rubik_animation.cpp:19-41 | the simulator starts with nothing in flight, the initial cube and an IDLE timer |
| RubikSimulator.Simulator.BeginMove | src/rubik_animation.cpp:186-199 | an inactive record starts the move: the timer is notified with `MoveStarted` and the record is activated on the face's pieces at angle 0 |
| RubikSimulator.Simulator.StartRotation | src/rubik_animation.cpp:146-211 | an invalid face changes nothing; otherwise the move is admitted or dropped as `Admit` says; the timer is notified only when the move starts at once; a running animation's angle is untouched; the scramble countdown stays in step for non-scramble moves |
| RubikSimulator.Simulator.QueueBehind | src/rubik_animation.cpp:153-184 | while animating, the move is appended to the queue or dropped at capacity; the animation record is untouched |
| RubikSimulator.Simulator.UpdateAnimation | src/rubik_animation.cpp:216-286 | while inactive nothing changes; an unfinished frame only advances the angle; a finishing frame turns the animated face once, removes that move, counts the scramble completion and starts the next queued move; the countdown stays in step |
| RubikSimulator.Simulator.FinishTurn | src/rubik_animation.cpp:242-282 | completing a frame turns the recorded face once, leaves the rest of the in-flight moves in order, and notifies the timer |
| RubikSimulator.Simulator.CompleteTurn | src/rubik_animation.cpp:242-272 | the cube turns once with the recorded face and direction, the record becomes inactive, and the scramble completion is counted |
| RubikSimulator.Simulator.StartNext | src/rubik_animation.cpp:274-281 | the oldest queued move, if any, becomes the animated move, and the in-flight sequence is unchanged |
| RubikSimulator.Simulator.CancelAnimationAndQueue | src/rubik_animation.cpp:87-105 | nothing is in flight; `count` and `head` are 0 and every scramble flag is cleared |
| RubikSimulator.Simulator.ResetCube | src/rubik_state.cpp:243-253 | nothing in flight, the initial (solved) cube, an IDLE timer with zero counters |
| RubikSimulator.Simulator.ShuffleCube | src/rubik_state.cpp:255-271 | with no moves it changes nothing; otherwise the countdown is set to `numMoves` and the scramble moves are issued in order, each admitted or dropped |
| RubikSimulator.Simulator.ShuffleCubeCounted | src/rubik_state.cpp:255-271 | the corrected scramble issues the same moves and keeps the countdown equal to the scramble moves in flight |
| RubikSimulator.Simulator.RequestCountedScrambleMove | src/rubik_state.cpp:262-265 | one scramble request of the corrected scramble keeps the countdown equal to the scramble moves in flight |
| RubikSimulator.Simulator.UpdateTimer | src/rubik_timer.cpp:62-77 | the timer state becomes `TimerTick` of its state, whether an animation runs, and whether the cube is solved |

The invariant "a non-empty queue implies an active animation" is part of `Simulator.Valid()`. Every simulator operation requires and ensures it.

## Left out

- Float easing and `displayAngle` (`easeInOutCubic`) are not modelled. Neither are the float matrix and vector maths (`axisAngleToMatrix`, `matrixMultiply`, `rotateVectorAroundAxis`) or `computeViewFaceMapping`. The view mapping is a parameter of `AbsoluteFace`.
- Rendering, GLUT input callbacks, the camera, `idle()` with its wall-clock time, and `main.cpp` are not modelled. The timer's start, current and end times, turns per second, and the overlay text are left out too.
- Logging is not modelled: `initLogFile`, timestamps and every `fprintf` block. `testRotationIdentity` returns its per-face match counts instead of writing them.
- `rand()` is not modelled; it is replaced by the caller-supplied `rolls` sequence.
- `pieceSize`, `gapSize` and `isVisible` are rendering-only and not modelled.
- RubikAnimation.RotationAnimation.Advance: angles are exact reals, so float rounding in the 0.0001 completion check is not modelled.
- RubikAnimation.RotationAnimation.IsPieceInAnimation: the method's contract speaks only of the affected-index array. The fact that those are the turning face's pieces is the lemma `AffectedAreFacePieces`.
- RubikState.Cube.IsSolved: colours are compared as palette values. The 0.05 float tolerance is shown equivalent by `ToleranceIsEquality` and is not recomputed per channel.

## Findings

| source | as written | input that shows it | evidently intended | confidence | as-written member | corrected member |
|---|---|---|---|---|---|---|
| src/rubik_state.cpp:255-266 | `shuffleCube` sets the scramble countdown to `numMoves`. It overwrites any moves still in flight and also counts requests that `startRotation` drops at a full queue (src/rubik_animation.cpp:155). | Press the scramble key twice before the first scramble's opening turn finishes. The first scramble leaves one queue slot, so the second admits one move and drops 19. That gives 21 scramble moves in flight against a countdown of 20. The timer arms after 20 of them, and the 21st then starts the solve clock as a RUNNING move. | The countdown should equal the number of scramble moves actually in flight, so the timer arms only after the last scramble move. | not executed | RubikSimulator.Simulator.ShuffleCube, RubikSimulator.SecondScrambleWitness | RubikSimulator.Simulator.ShuffleCubeCounted |
