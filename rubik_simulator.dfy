/**
 * The simulator's shared state (cube, active animation, move queue, speed
 * timer) and the operations that move requests through it: starting or
 * queueing a turn, advancing the animation frame by frame, cancelling,
 * resetting, scrambling and the timer tick.
 */
module RubikSimulator {
  import opened RubikTypes
  import opened RubikState
  import opened RubikRotation
  import opened RubikTimer
  import opened RubikAnimation

  /** Most requests in flight at once: the animated move plus a full queue. */
  const MaxInFlight: int := MoveQueueCapacity + 1

  function Min(a: int, b: int): int {
    if a <= b then a else b
  }

  /** A request joins the moves in flight unless an animated move and a full queue are already there. */
  function Admit(inFlight: seq<Move>, m: Move): seq<Move> {
    if |inFlight| < MaxInFlight then inFlight + [m] else inFlight
  }

  /** The moves in flight after a series of requests, one after the other. */
  function AdmitAll(inFlight: seq<Move>, ms: seq<Move>): seq<Move>
    decreases |ms|
  {
    if |ms| == 0 then inFlight
    else Admit(AdmitAll(inFlight, ms[..|ms| - 1]), ms[|ms| - 1])
  }

  /**
   * A series of requests is taken in order until the room left (out of
   * MaxInFlight) is used up; every later request is dropped.
   */
  lemma {:induction false} AdmitAllPrefix(inFlight: seq<Move>, ms: seq<Move>)
    requires |inFlight| <= MaxInFlight
    ensures AdmitAll(inFlight, ms) == inFlight + ms[..Min(|ms|, MaxInFlight - |inFlight|)]
    decreases |ms|
  {
    if |ms| > 0 {
      var front := ms[..|ms| - 1];
      AdmitAllPrefix(inFlight, front);
      assert front[..Min(|front|, MaxInFlight - |inFlight|)] == ms[..Min(|front|, MaxInFlight - |inFlight|)];
      if |front| < MaxInFlight - |inFlight| {
        assert ms[..|ms|] == ms;
        assert ms[..|front|] + [ms[|ms| - 1]] == ms;
      }
    }
  }

  /** How many moves of a sequence are scramble moves. */
  function ScrambleCount(ms: seq<Move>): (r: nat)
    ensures r <= |ms|
    ensures r == 0 <==> forall i :: 0 <= i < |ms| ==> !ms[i].scramble
    ensures r == |ms| <==> forall i :: 0 <= i < |ms| ==> ms[i].scramble
    decreases |ms|
  {
    if |ms| == 0 then 0
    else (if ms[0].scramble then 1 else 0) + ScrambleCount(ms[1..])
  }

  lemma {:induction false} ScrambleCountAppend(a: seq<Move>, b: seq<Move>)
    ensures ScrambleCount(a + b) == ScrambleCount(a) + ScrambleCount(b)
    decreases |a|
  {
    if |a| > 0 {
      assert (a + b)[1..] == a[1..] + b;
      ScrambleCountAppend(a[1..], b);
    } else {
      assert a + b == b;
    }
  }

  /**
   * The scramble requests drawn from a stream of random numbers: a face
   * from the first draw modulo 6, the direction from the second (clockwise
   * when even), each flagged as a scramble move.
   */
  function ScrambleMoves(rolls: seq<nat>, n: nat): (ms: seq<Move>)
    requires |rolls| >= 2 * n
    ensures |ms| == n
    ensures forall i :: 0 <= i < n ==> IsFace(ms[i].face) && ms[i].scramble
    ensures forall i :: 0 <= i < n ==> ms[i].face == rolls[2 * i] % 6 && (ms[i].clockwise <==> rolls[2 * i + 1] % 2 == 0)
  {
    seq(n, i requires 0 <= i < n => Move(rolls[2 * i] % 6, rolls[2 * i + 1] % 2 == 0, true))
  }

  /** Drawing one more scramble request admits it after the ones drawn before. */
  lemma ScrambleMovesStep(inFlight: seq<Move>, rolls: seq<nat>, i: nat)
    requires |rolls| >= 2 * (i + 1)
    ensures AdmitAll(inFlight, ScrambleMoves(rolls, i + 1))
            == Admit(AdmitAll(inFlight, ScrambleMoves(rolls, i)), Move(rolls[2 * i] % 6, rolls[2 * i + 1] % 2 == 0, true))
  {
    assert ScrambleMoves(rolls, i + 1)[..i] == ScrambleMoves(rolls, i);
  }

  /**
   * Two scrambles of 20 moves, the second requested while the first one's
   * opening turn is still animating. The first fills the animation and the
   * queue except for one slot, so the second gets one move in and 19
   * dropped: 21 scramble moves are in flight while the countdown was set
   * to 20. After 20 of them complete the timer is armed, and the 21st, a
   * scramble move, then starts the solve clock.
   */
  lemma SecondScrambleWitness(rolls1: seq<nat>, rolls2: seq<nat>)
    requires |rolls1| >= 2 * MoveQueueCapacity && |rolls2| >= 2 * MoveQueueCapacity
    ensures var first := AdmitAll([], ScrambleMoves(rolls1, MoveQueueCapacity));
            ScrambleCount(AdmitAll(first, ScrambleMoves(rolls2, MoveQueueCapacity))) == MoveQueueCapacity + 1
    ensures ScrambleMovesCompleted(TimerView(Idle, 0, MoveQueueCapacity), MoveQueueCapacity).state == Ready
    ensures MoveStarted(ScrambleMovesCompleted(TimerView(Idle, 0, MoveQueueCapacity), MoveQueueCapacity)).state == Running
  {
    var ms1 := ScrambleMoves(rolls1, MoveQueueCapacity);
    var ms2 := ScrambleMoves(rolls2, MoveQueueCapacity);
    AdmitAllPrefix([], ms1);
    var first := AdmitAll([], ms1);
    assert first == ms1;
    AdmitAllPrefix(first, ms2);
    assert AdmitAll(first, ms2) == ms1 + [ms2[0]];
    ScrambleCountAppend(ms1, [ms2[0]]);
    assert ScrambleCount([ms2[0]]) == 1;
    ScrambleCountdown(TimerView(Idle, 0, MoveQueueCapacity), MoveQueueCapacity, MoveQueueCapacity);
  }

  /** Whether a frame of deltaTime seconds brings an animation at this angle to its target. */
  predicate FrameCompletes(currentAngle: real, deltaTime: real) {
    AdvancedAngle(currentAngle, RotationSpeed, deltaTime, QuarterTurn) >= QuarterTurn - CompletionSlack
  }

  /** The simulator's global state: the cube, the animated turn, the queue behind it and the timer. */
  class Simulator {
    const cube: Cube
    const animation: RotationAnimation
    const queue: MoveQueue
    const timer: SpeedTimer

    /**
     * Each part is consistent; requests wait in the queue only behind an
     * animated turn, and every queued request names a real face.
     */
    ghost predicate Valid()
      reads this, cube.pieces, animation, animation.affectedIndices, queue, queue.moves, queue.dirs,
            queue.scrambleFlags, timer
    {
      PartsValid() && (queue.count > 0 ==> animation.isActive)
    }

    /** Each part is consistent and every queued request names a real face. */
    ghost predicate PartsValid()
      reads this, cube.pieces, animation, animation.affectedIndices, queue, queue.moves, queue.dirs,
            queue.scrambleFlags, timer
    {
      cube.Valid() && animation.Valid() && queue.Valid() && timer.Valid()
      && queue.moves != animation.affectedIndices
      && (forall k :: 0 <= k < queue.count ==> IsFace(queue.Contents()[k].face))
    }

    /** The requests in flight, in the order they will be played: the animated one first, then the queue. */
    ghost function Pending(): seq<Move>
      requires PartsValid()
      reads this, cube.pieces, animation, animation.affectedIndices, queue, queue.moves, queue.dirs,
            queue.scrambleFlags, timer
    {
      (if animation.isActive then [animation.Current()] else []) + queue.Contents()
    }

    /** The scramble countdown equals the number of scramble moves still in flight. */
    ghost predicate ScrambleAccounted()
      requires Valid()
      reads this, cube.pieces, animation, animation.affectedIndices, queue, queue.moves, queue.dirs,
            queue.scrambleFlags, timer
    {
      timer.scrambleMovesPending == ScrambleCount(Pending())
    }

    /** The program at start-up: a solved cube, nothing animated or queued, the timer idle. */
    constructor ()
      ensures Valid() && Pending() == [] && ScrambleAccounted()
      ensures cube.pieces[..] == InitialPieces() && timer.View() == TimerView(Idle, 0, 0)
    {
      cube := new Cube();
      animation := new RotationAnimation();
      queue := new MoveQueue();
      timer := new SpeedTimer();
    }

    /** The fresh start of an animated turn: the timer sees the move start, then the record is filled in. */
    method BeginMove(m: Move)
      requires PartsValid() && !animation.isActive && IsFace(m.face)
      modifies animation, animation.affectedIndices, timer
      ensures animation.Valid() && timer.Valid() && animation.isActive && animation.Current() == m
      ensures animation.currentAngle == 0.0 && animation.affectedIndices[..] == FaceIndices(m.face)
      ensures timer.View() == MoveStarted(old(timer.View()))
    {
      timer.OnMoveStarted();
      animation.Activate(m.face, m.clockwise, m.scramble);
    }

    /**
     * A turn request: ignored for a face code out of range; queued behind an
     * animated turn (and dropped when the queue is full); otherwise started
     * at once, which the timer sees as a move.
     */
    method StartRotation(face: int, clockwise: bool, isScrambleMove: bool)
      requires Valid()
      modifies animation, animation.affectedIndices, queue, queue.moves, queue.dirs, queue.scrambleFlags, timer
      ensures Valid()
      ensures !IsFace(face) ==> Pending() == old(Pending())
      ensures IsFace(face) ==> Pending() == Admit(old(Pending()), Move(face, clockwise, isScrambleMove))
      ensures timer.View() == if IsFace(face) && !old(animation.isActive) then MoveStarted(old(timer.View()))
                              else old(timer.View())
      ensures old(animation.isActive) ==> animation.currentAngle == old(animation.currentAngle)
      ensures IsFace(face) && !old(animation.isActive) ==>
                animation.currentAngle == 0.0 && animation.affectedIndices[..] == FaceIndices(face)
      ensures !isScrambleMove && old(ScrambleAccounted()) ==> ScrambleAccounted()
    {
      ghost var before := Pending();
      if face < FRONT || face > DOWN {
        return;
      }
      var m := Move(face, clockwise, isScrambleMove);
      if animation.isActive {
        QueueBehind(m);
        ScrambleCountAppend(before, [m]);
        return;
      }
      BeginMove(m);
      assert Pending() == [m] == Admit(before, m);
      ScrambleCountAppend(before, [m]);
    }

    /** A request arriving during an animated turn joins the back of the queue, or is dropped when it is full. */
    method QueueBehind(m: Move)
      requires Valid() && animation.isActive && IsFace(m.face)
      modifies queue, queue.moves, queue.dirs, queue.scrambleFlags
      ensures Valid() && Pending() == Admit(old(Pending()), m)
    {
      var accepted := queue.Enqueue(m);
    }

    /**
     * One frame: the animated turn advances by speed times the elapsed time,
     * and is finished once it reaches its target.
     */
    method UpdateAnimation(deltaTime: real)
      requires Valid()
      modifies cube.pieces, animation, animation.affectedIndices, queue, queue.scrambleFlags, timer
      ensures Valid()
      ensures !old(animation.isActive) ==> Pending() == old(Pending()) && timer.View() == old(timer.View())
                                           && cube.pieces[..] == old(cube.pieces[..])
      ensures old(animation.isActive) && !FrameCompletes(old(animation.currentAngle), deltaTime) ==>
                Pending() == old(Pending()) && timer.View() == old(timer.View())
                && cube.pieces[..] == old(cube.pieces[..])
                && animation.currentAngle == AdvancedAngle(old(animation.currentAngle), RotationSpeed, deltaTime, QuarterTurn)
      ensures old(animation.isActive) && FrameCompletes(old(animation.currentAngle), deltaTime) ==>
                cube.pieces[..] == Turned(old(cube.pieces[..]), old(animation.face), old(animation.clockwise))
                && Pending() == old(Pending())[1..]
                && timer.View() == (var t := ScrambleMoveCompleted(old(timer.View()), old(animation.isScrambleMove));
                                    if |old(Pending())| > 1 then MoveStarted(t) else t)
                && (animation.isActive ==> animation.currentAngle == 0.0)
      ensures old(ScrambleAccounted()) ==> ScrambleAccounted()
    {
      if !animation.isActive {
        return;
      }
      var finished := animation.Advance(deltaTime);
      if finished {
        FinishTurn();
      }
    }

    /**
     * The end of an animated turn: the cube is turned, the record cleared,
     * the scramble countdown told, and the next queued request started.
     */
    method FinishTurn()
      requires Valid() && animation.isActive
      modifies cube.pieces, animation, animation.affectedIndices, queue, queue.scrambleFlags, timer
      ensures Valid()
      ensures cube.pieces[..] == Turned(old(cube.pieces[..]), old(animation.face), old(animation.clockwise))
      ensures Pending() == old(Pending())[1..]
      ensures timer.View() == (var t := ScrambleMoveCompleted(old(timer.View()), old(animation.isScrambleMove));
                               if |old(Pending())| > 1 then MoveStarted(t) else t)
      ensures animation.isActive ==> animation.currentAngle == 0.0
      ensures old(ScrambleAccounted()) ==> ScrambleAccounted()
    {
      ghost var before := Pending();
      CompleteTurn();
      assert ScrambleCount(before) == (if before[0].scramble then 1 else 0) + ScrambleCount(before[1..]);
      StartNext();
    }

    /** The animated turn is applied to the cube, the record cleared and the scramble countdown told. */
    method CompleteTurn()
      requires Valid() && animation.isActive
      modifies cube.pieces, animation, animation.affectedIndices, timer
      ensures PartsValid() && !animation.isActive
      ensures cube.pieces[..] == Turned(old(cube.pieces[..]), old(animation.face), old(animation.clockwise))
      ensures Pending() == old(Pending())[1..] && old(Pending())[0] == old(animation.Current())
      ensures timer.View() == ScrambleMoveCompleted(old(timer.View()), old(animation.isScrambleMove))
    {
      var finished := animation.Current();
      RotateFace(cube, finished.face, finished.clockwise);
      animation.Deactivate();
      timer.HandleScrambleMoveCompletion(finished.scramble);
    }

    /** With no turn animated, the oldest queued request, if any, is started. */
    method StartNext()
      requires PartsValid() && !animation.isActive
      modifies animation, animation.affectedIndices, queue, queue.scrambleFlags, timer
      ensures Valid() && Pending() == old(Pending())
      ensures timer.View() == if old(queue.count) > 0 then MoveStarted(old(timer.View())) else old(timer.View())
      ensures animation.isActive ==> animation.currentAngle == 0.0
    {
      ghost var before := Pending();
      var found, next := queue.Dequeue();
      if found {
        BeginMove(next);
        assert Pending() == [next] + queue.Contents() == before;
      }
    }

    /** Stops the animated turn where it is and empties the queue; the cube and the timer are untouched. */
    method CancelAnimationAndQueue()
      requires Valid()
      modifies animation, animation.affectedIndices, queue, queue.scrambleFlags
      ensures Valid() && Pending() == [] && !animation.isActive && queue.count == 0 && queue.head == 0
      ensures forall i :: 0 <= i < MoveQueueCapacity ==> !queue.scrambleFlags[i]
    {
      animation.Deactivate();
      queue.Clear();
    }

    /** Back to the solved cube with nothing in flight, no scramble pending and the timer idle. */
    method ResetCube()
      requires Valid()
      modifies cube.pieces, animation, animation.affectedIndices, queue, queue.scrambleFlags, timer
      ensures Valid() && Pending() == [] && ScrambleAccounted()
      ensures cube.pieces[..] == InitialPieces() && Solved(cube.pieces[..])
      ensures timer.View() == TimerView(Idle, 0, 0)
    {
      CancelAnimationAndQueue();
      cube.Init();
      timer.SetScrambleMovesPending(0);
      timer.ResetTimerState();
      InitialIsSolved();
    }

    /**
     * A scramble as the program writes it: the timer is reset, the
     * countdown set to numMoves, and numMoves random turns requested as
     * scramble moves; requests beyond the room in flight are dropped.
     */
    method ShuffleCube(numMoves: int, rolls: seq<nat>)
      requires Valid() && (numMoves <= 0 || |rolls| >= 2 * numMoves)
      modifies animation, animation.affectedIndices, queue, queue.moves, queue.dirs, queue.scrambleFlags, timer
      ensures Valid()
      ensures numMoves <= 0 ==> Pending() == old(Pending()) && timer.View() == old(timer.View())
      ensures numMoves > 0 ==> Pending() == AdmitAll(old(Pending()), ScrambleMoves(rolls, numMoves))
      ensures numMoves > 0 ==> timer.View() == TimerView(Idle, 0, numMoves)
    {
      if numMoves <= 0 {
        return;
      }
      ghost var before := Pending();
      timer.ResetTimerState();
      timer.SetScrambleMovesPending(numMoves);
      for i := 0 to numMoves
        invariant Valid() && timer.View() == TimerView(Idle, 0, numMoves)
        invariant Pending() == AdmitAll(before, ScrambleMoves(rolls, i))
      {
        var face := rolls[2 * i] % 6;
        var clockwise := rolls[2 * i + 1] % 2 == 0;
        StartRotation(face, clockwise, true);
        ScrambleMovesStep(before, rolls, i);
      }
    }

    /**
     * The scramble with the countdown corrected: it counts only the
     * requests that were taken in, added to the scramble moves already in
     * flight, so it stays equal to the number of scramble moves in flight.
     */
    method ShuffleCubeCounted(numMoves: int, rolls: seq<nat>)
      requires Valid() && ScrambleAccounted() && (numMoves <= 0 || |rolls| >= 2 * numMoves)
      modifies animation, animation.affectedIndices, queue, queue.moves, queue.dirs, queue.scrambleFlags, timer
      ensures Valid() && ScrambleAccounted()
      ensures numMoves <= 0 ==> Pending() == old(Pending()) && timer.View() == old(timer.View())
      ensures numMoves > 0 ==> Pending() == AdmitAll(old(Pending()), ScrambleMoves(rolls, numMoves))
      ensures numMoves > 0 ==> timer.state == Idle && timer.moveCount == 0
    {
      if numMoves <= 0 {
        return;
      }
      ghost var before := Pending();
      timer.ResetTimerState();
      for i := 0 to numMoves
        invariant Valid() && ScrambleAccounted() && timer.state == Idle && timer.moveCount == 0
        invariant Pending() == AdmitAll(before, ScrambleMoves(rolls, i))
      {
        var face := rolls[2 * i] % 6;
        var clockwise := rolls[2 * i + 1] % 2 == 0;
        RequestCountedScrambleMove(face, clockwise);
        ScrambleMovesStep(before, rolls, i);
      }
    }

    /** One scramble request of the corrected scramble: the countdown goes up only if the request is taken in. */
    method RequestCountedScrambleMove(face: int, clockwise: bool)
      requires Valid() && ScrambleAccounted() && IsFace(face) && timer.state == Idle && timer.moveCount == 0
      modifies animation, animation.affectedIndices, queue, queue.moves, queue.dirs, queue.scrambleFlags, timer
      ensures Valid() && ScrambleAccounted() && timer.state == Idle && timer.moveCount == 0
      ensures Pending() == Admit(old(Pending()), Move(face, clockwise, true))
    {
      var admitted := !animation.isActive || queue.count < MoveQueueCapacity;
      ghost var inFlight := Pending();
      StartRotation(face, clockwise, true);
      ScrambleCountAppend(inFlight, [Move(face, clockwise, true)]);
      if admitted {
        timer.SetScrambleMovesPending(timer.scrambleMovesPending + 1);
      }
    }

    /**
     * The timer tick: a running timer stops once no turn is animated and the
     * cube is solved; the solved check is made only for a running timer.
     */
    method UpdateTimer()
      requires Valid()
      modifies timer
      ensures Valid()
      ensures timer.View() == old(timer.View()).(state := TimerTick(old(timer.state), animation.isActive, Solved(cube.pieces[..])))
    {
      if timer.state != Running {
        return;
      }
      var solved := cube.IsSolved();
      timer.UpdateTimer(animation.isActive, solved);
    }
  }
}
