/**
 * The speed-timer state machine (IDLE, READY, RUNNING, STOPPED), its move
 * counter, and the countdown of scramble moves still to complete. Times,
 * turns per second and the overlay text are not modelled.
 */
module RubikTimer {
  import opened RubikTypes

  /** The modelled part of the timer: its state, the move counter and the scramble countdown. */
  datatype TimerView = TimerView(state: TimerState, moveCount: int, scrambleMovesPending: int)

  /** The counters the program keeps non-negative. */
  predicate CountersValid(t: TimerView) {
    t.moveCount >= 0 && t.scrambleMovesPending >= 0
  }

  /** Back to IDLE with no moves counted; the scramble countdown is not the timer's to clear. */
  function ResetTimer(t: TimerView): (r: TimerView)
    ensures r.state == Idle && r.moveCount == 0 && r.scrambleMovesPending == t.scrambleMovesPending
  {
    t.(state := Idle, moveCount := 0)
  }

  /** Armed for a solve: READY with no moves counted. */
  function ArmTimer(t: TimerView): (r: TimerView)
    ensures r.state == Ready && r.moveCount == 0 && r.scrambleMovesPending == t.scrambleMovesPending
  {
    t.(state := Ready, moveCount := 0)
  }

  /**
   * One finished move: if it was a scramble move and the countdown is
   * positive, count it down, and arm the timer when the countdown reaches 0.
   */
  function ScrambleMoveCompleted(t: TimerView, wasScrambleMove: bool): (r: TimerView)
    ensures !wasScrambleMove || t.scrambleMovesPending <= 0 ==> r == t
    ensures wasScrambleMove && t.scrambleMovesPending > 0 ==>
              r.scrambleMovesPending == t.scrambleMovesPending - 1 && r.scrambleMovesPending >= 0
    ensures wasScrambleMove && t.scrambleMovesPending == 1 ==> r.state == Ready && r.moveCount == 0
    ensures wasScrambleMove && t.scrambleMovesPending > 1 ==> r.state == t.state && r.moveCount == t.moveCount
  {
    if !wasScrambleMove || t.scrambleMovesPending <= 0 then t
    else
      var t' := t.(scrambleMovesPending := t.scrambleMovesPending - 1);
      if t'.scrambleMovesPending == 0 then ArmTimer(t') else t'
  }

  /**
   * A move starts: READY turns into RUNNING with the counter cleared, and a
   * RUNNING timer counts the move. IDLE and STOPPED ignore it.
   */
  function MoveStarted(t: TimerView): (r: TimerView)
    ensures t.state == Ready ==> r.state == Running && r.moveCount == 1
    ensures t.state == Running ==> r.state == Running && r.moveCount == t.moveCount + 1
    ensures t.state == Idle || t.state == Stopped ==> r == t
    ensures r.scrambleMovesPending == t.scrambleMovesPending
  {
    var t1 := if t.state == Ready then t.(state := Running, moveCount := 0) else t;
    if t1.state == Running then t1.(moveCount := t1.moveCount + 1) else t1
  }

  /** The state after one timer tick: a RUNNING timer stops once no animation runs and the cube is solved. */
  function TimerTick(state: TimerState, animationActive: bool, solved: bool): (r: TimerState)
    ensures state != Running ==> r == state
    ensures r == Stopped <==> state == Stopped || (state == Running && !animationActive && solved)
  {
    if state != Running then state
    else if !animationActive && solved then Stopped
    else Running
  }

  /** Every timer operation keeps the counters non-negative. */
  lemma CountersStayValid(t: TimerView, wasScrambleMove: bool, animationActive: bool, solved: bool)
    requires CountersValid(t)
    ensures CountersValid(ResetTimer(t)) && CountersValid(ArmTimer(t))
    ensures CountersValid(ScrambleMoveCompleted(t, wasScrambleMove))
    ensures CountersValid(MoveStarted(t))
    ensures CountersValid(t.(state := TimerTick(t.state, animationActive, solved)))
  {
  }

  /**
   * The move counter never goes down except through reset, arming, or the
   * READY to RUNNING step that restarts it at 1.
   */
  lemma MoveCountMonotone(t: TimerView, wasScrambleMove: bool)
    ensures t.state != Ready ==> MoveStarted(t).moveCount >= t.moveCount
    ensures ScrambleMoveCompleted(t, wasScrambleMove).moveCount == t.moveCount
            || ScrambleMoveCompleted(t, wasScrambleMove).state == Ready
  {
  }

  /** The state after k completed scramble moves. */
  function ScrambleMovesCompleted(t: TimerView, k: nat): (r: TimerView)
    decreases k
  {
    if k == 0 then t else ScrambleMoveCompleted(ScrambleMovesCompleted(t, k - 1), true)
  }

  /**
   * A scramble of n moves counts down one per completed scramble move, leaves
   * the timer alone until the last one, and arms it exactly then.
   */
  lemma {:induction false} ScrambleCountdown(t: TimerView, n: int, k: nat)
    requires t.scrambleMovesPending == n && 0 < k <= n
    ensures ScrambleMovesCompleted(t, k).scrambleMovesPending == n - k
    ensures k < n ==> ScrambleMovesCompleted(t, k).state == t.state
                      && ScrambleMovesCompleted(t, k).moveCount == t.moveCount
    ensures k == n ==> ScrambleMovesCompleted(t, k).state == Ready
                       && ScrambleMovesCompleted(t, k).moveCount == 0
    decreases k
  {
    if k > 1 {
      ScrambleCountdown(t, n, k - 1);
    }
  }

  /** The program's timer record, reduced to the fields the model keeps. */
  class SpeedTimer {
    var state: TimerState
    var moveCount: int
    var scrambleMovesPending: int

    function View(): TimerView
      reads this
    {
      TimerView(state, moveCount, scrambleMovesPending)
    }

    ghost predicate Valid()
      reads this
    {
      CountersValid(View())
    }

    constructor ()
      ensures Valid() && View() == TimerView(Idle, 0, 0)
    {
      state := Idle;
      moveCount := 0;
      scrambleMovesPending := 0;
    }

    method ResetTimerState()
      requires Valid()
      modifies this
      ensures Valid() && View() == ResetTimer(old(View()))
    {
      state := Idle;
      moveCount := 0;
    }

    method ArmTimerForSolve()
      requires Valid()
      modifies this
      ensures Valid() && View() == ArmTimer(old(View()))
    {
      state := Ready;
      moveCount := 0;
    }

    method HandleScrambleMoveCompletion(wasScrambleMove: bool)
      requires Valid()
      modifies this
      ensures Valid() && View() == ScrambleMoveCompleted(old(View()), wasScrambleMove)
    {
      if !wasScrambleMove || scrambleMovesPending <= 0 {
        return;
      }
      scrambleMovesPending := scrambleMovesPending - 1;
      if scrambleMovesPending == 0 {
        ArmTimerForSolve();
      }
    }

    method OnMoveStarted()
      requires Valid()
      modifies this
      ensures Valid() && View() == MoveStarted(old(View()))
    {
      if state == Ready {
        state := Running;
        moveCount := 0;
      }
      if state == Running {
        moveCount := moveCount + 1;
      }
    }

    /** The state transition of a timer tick, given whether an animation runs and whether the cube is solved. */
    method UpdateTimer(animationActive: bool, solved: bool)
      requires Valid()
      modifies this
      ensures Valid() && View() == old(View()).(state := TimerTick(old(state), animationActive, solved))
    {
      if state != Running {
        return;
      }
      if !animationActive && solved {
        state := Stopped;
      }
    }

    /** Sets the scramble countdown, as a scramble does before queueing its moves. */
    method SetScrambleMovesPending(n: int)
      requires Valid() && n >= 0
      modifies this
      ensures Valid() && View() == old(View()).(scrambleMovesPending := n)
    {
      scrambleMovesPending := n;
    }
  }
}
