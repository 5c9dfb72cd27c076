/**
 * The single active rotation record and the 20-slot circular queue of
 * (face, direction, scramble) requests waiting behind it.
 */
module RubikAnimation {
  import opened RubikTypes
  import opened RubikState

  /**
   * The queued moves held by the three parallel arrays: count entries
   * starting at slot head, wrapping round the capacity.
   */
  function Window(moves: seq<int>, dirs: seq<bool>, flags: seq<bool>, head: int, count: int): (w: seq<Move>)
    requires |moves| == MoveQueueCapacity && |dirs| == MoveQueueCapacity && |flags| == MoveQueueCapacity
    requires 0 <= head < MoveQueueCapacity && 0 <= count <= MoveQueueCapacity
    ensures |w| == count
  {
    seq(count, k requires 0 <= k < count =>
      var i := (head + k) % MoveQueueCapacity;
      Move(moves[i], dirs[i], flags[i]))
  }

  /** Writing a move at slot (head + count) % capacity and counting it appends it at the back. */
  lemma WindowPush(moves: seq<int>, dirs: seq<bool>, flags: seq<bool>, head: int, count: int, m: Move)
    requires |moves| == MoveQueueCapacity && |dirs| == MoveQueueCapacity && |flags| == MoveQueueCapacity
    requires 0 <= head < MoveQueueCapacity && 0 <= count < MoveQueueCapacity
    ensures var i := (head + count) % MoveQueueCapacity;
            Window(moves[i := m.face], dirs[i := m.clockwise], flags[i := m.scramble], head, count + 1)
            == Window(moves, dirs, flags, head, count) + [m]
  {
    var i := (head + count) % MoveQueueCapacity;
    var w := Window(moves, dirs, flags, head, count);
    var w' := Window(moves[i := m.face], dirs[i := m.clockwise], flags[i := m.scramble], head, count + 1);
    forall k | 0 <= k < count
      ensures w'[k] == w[k]
    {
      SlotsDiffer(head, k, count);
    }
    assert w' == w + [m];
  }

  /** Two different offsets less than the capacity from the same head land in different slots. */
  lemma SlotsDiffer(head: int, k: int, l: int)
    requires 0 <= head < MoveQueueCapacity && 0 <= k < l < MoveQueueCapacity
    ensures (head + k) % MoveQueueCapacity != (head + l) % MoveQueueCapacity
  {
    if head + l < MoveQueueCapacity {
      assert (head + l) % MoveQueueCapacity == head + l;
    } else if head + k >= MoveQueueCapacity {
      assert (head + l) % MoveQueueCapacity == head + l - MoveQueueCapacity;
      assert (head + k) % MoveQueueCapacity == head + k - MoveQueueCapacity;
    } else {
      assert (head + l) % MoveQueueCapacity == head + l - MoveQueueCapacity;
    }
  }

  /**
   * Taking the front: the move at head is the oldest; moving head on by one
   * (back to 0 once the queue is empty) and clearing its scramble flag leaves
   * the rest in order.
   */
  lemma WindowPop(moves: seq<int>, dirs: seq<bool>, flags: seq<bool>, head: int, count: int)
    requires |moves| == MoveQueueCapacity && |dirs| == MoveQueueCapacity && |flags| == MoveQueueCapacity
    requires 0 <= head < MoveQueueCapacity && 0 < count <= MoveQueueCapacity
    ensures Window(moves, dirs, flags, head, count)[0] == Move(moves[head], dirs[head], flags[head])
    ensures var head' := if count - 1 == 0 then 0 else (head + 1) % MoveQueueCapacity;
            Window(moves, dirs, flags[head := false], head', count - 1)
            == Window(moves, dirs, flags, head, count)[1..]
  {
    var head' := if count - 1 == 0 then 0 else (head + 1) % MoveQueueCapacity;
    var w := Window(moves, dirs, flags, head, count);
    var w' := Window(moves, dirs, flags[head := false], head', count - 1);
    forall k | 0 <= k < count - 1
      ensures w'[k] == w[k + 1]
    {
      assert (head' + k) % MoveQueueCapacity == (head + k + 1) % MoveQueueCapacity;
      SlotsDiffer(head, 0, k + 1);
    }
    assert w' == w[1..];
  }

  /** The bounded circular queue of move requests. */
  class MoveQueue {
    const moves: array<int>
    const dirs: array<bool>
    const scrambleFlags: array<bool>
    var count: int
    var head: int

    ghost predicate Valid()
      reads this
    {
      moves.Length == MoveQueueCapacity && dirs.Length == MoveQueueCapacity
      && scrambleFlags.Length == MoveQueueCapacity && dirs != scrambleFlags
      && 0 <= count <= MoveQueueCapacity && 0 <= head < MoveQueueCapacity
    }

    /** The queued moves, oldest first. */
    ghost function Contents(): seq<Move>
      requires Valid()
      reads this, moves, dirs, scrambleFlags
    {
      Window(moves[..], dirs[..], scrambleFlags[..], head, count)
    }

    constructor ()
      ensures Valid() && Contents() == [] && count == 0 && head == 0
      ensures fresh(moves) && fresh(dirs) && fresh(scrambleFlags)
    {
      moves := new int[MoveQueueCapacity](_ => 0);
      dirs := new bool[MoveQueueCapacity](_ => false);
      scrambleFlags := new bool[MoveQueueCapacity](_ => false);
      count := 0;
      head := 0;
    }

    /** Appends a request unless the queue is full, in which case the request is dropped. */
    method Enqueue(m: Move) returns (accepted: bool)
      requires Valid()
      modifies this, moves, dirs, scrambleFlags
      ensures Valid() && head == old(head)
      ensures accepted <==> old(count) < MoveQueueCapacity
      ensures accepted ==> Contents() == old(Contents()) + [m] && count == old(count) + 1
      ensures !accepted ==> Contents() == old(Contents()) && count == old(count)
      ensures !accepted ==> moves[..] == old(moves[..]) && dirs[..] == old(dirs[..])
      ensures !accepted ==> scrambleFlags[..] == old(scrambleFlags[..])
    {
      if count >= MoveQueueCapacity {
        return false;
      }
      WindowPush(moves[..], dirs[..], scrambleFlags[..], head, count, m);
      var idx := (head + count) % MoveQueueCapacity;
      moves[idx] := m.face;
      dirs[idx] := m.clockwise;
      scrambleFlags[idx] := m.scramble;
      count := count + 1;
      return true;
    }

    /** Takes the oldest request, if there is one. */
    method Dequeue() returns (found: bool, m: Move)
      requires Valid()
      modifies this, scrambleFlags
      ensures Valid()
      ensures found <==> old(count) > 0
      ensures found ==> m == old(Contents())[0] && Contents() == old(Contents())[1..] && count == old(count) - 1
      ensures found ==> head == (if count == 0 then 0 else (old(head) + 1) % MoveQueueCapacity)
      ensures !found ==> Contents() == old(Contents()) && count == old(count) && head == old(head)
      ensures found ==> !scrambleFlags[old(head)]
      ensures forall i :: 0 <= i < MoveQueueCapacity && (!found || i != old(head)) ==> scrambleFlags[i] == old(scrambleFlags[i])
    {
      if count == 0 {
        return false, Move(FRONT, true, false);
      }
      WindowPop(moves[..], dirs[..], scrambleFlags[..], head, count);
      var idx := head;
      m := Move(moves[idx], dirs[idx], scrambleFlags[idx]);
      scrambleFlags[idx] := false;
      head := (head + 1) % MoveQueueCapacity;
      count := count - 1;
      if count == 0 {
        head := 0;
      }
      return true, m;
    }

    /** Empties the queue and clears every scramble flag. */
    method Clear()
      requires Valid()
      modifies this, scrambleFlags
      ensures Valid() && Contents() == [] && count == 0 && head == 0
      ensures forall i :: 0 <= i < MoveQueueCapacity ==> !scrambleFlags[i]
    {
      count := 0;
      head := 0;
      for i := 0 to MoveQueueCapacity
        modifies scrambleFlags
        invariant Valid() && count == 0 && head == 0
        invariant forall j :: 0 <= j < i ==> !scrambleFlags[j]
      {
        scrambleFlags[i] := false;
      }
    }
  }

  /** Tolerance below the target angle at which a turn counts as finished. */
  const CompletionSlack: real := 0.0001

  /** The angle after a frame: advanced by speed times the elapsed time, never past the target. */
  function AdvancedAngle(current: real, speed: real, deltaTime: real, target: real): (a: real)
    ensures a <= target
    ensures a == target || a == current + speed * deltaTime
    ensures current + speed * deltaTime <= target ==> a == current + speed * deltaTime
  {
    var a := current + speed * deltaTime;
    if a > target then target else a
  }

  /** The record of the quarter turn being animated. */
  class RotationAnimation {
    var isActive: bool
    var face: int
    var clockwise: bool
    var isScrambleMove: bool
    var currentAngle: real
    var targetAngle: real
    var speed: real
    const affectedIndices: array<int>

    /**
     * An active record animates a real face and lists that face's nine
     * pieces; an idle one lists none and rests at angle 0. The angle never
     * passes the quarter-turn target.
     */
    ghost predicate Valid()
      reads this, affectedIndices
    {
      affectedIndices.Length == 9
      && targetAngle == QuarterTurn && speed == RotationSpeed && currentAngle <= targetAngle
      && (isActive ==> IsFace(face) && affectedIndices[..] == FaceIndices(face))
      && (!isActive ==> currentAngle == 0.0 && !isScrambleMove
                        && forall i :: 0 <= i < 9 ==> affectedIndices[i] == -1)
    }

    /** The move being animated. */
    function Current(): Move
      reads this
    {
      Move(face, clockwise, isScrambleMove)
    }

    constructor ()
      ensures Valid() && !isActive && face == FRONT && clockwise && fresh(affectedIndices)
    {
      isActive := false;
      face := FRONT;
      clockwise := true;
      isScrambleMove := false;
      currentAngle := 0.0;
      targetAngle := QuarterTurn;
      speed := RotationSpeed;
      affectedIndices := new int[9](_ => -1);
    }

    /** Whether the piece with this index is one of the nine being turned. */
    method IsPieceInAnimation(pieceIndex: int) returns (inAnimation: bool)
      requires affectedIndices.Length == 9
      ensures inAnimation <==> isActive && pieceIndex in affectedIndices[..]
    {
      if !isActive {
        return false;
      }
      for i := 0 to 9
        invariant forall j :: 0 <= j < i ==> affectedIndices[j] != pieceIndex
      {
        if affectedIndices[i] == pieceIndex {
          return true;
        }
      }
      return false;
    }

    /** While a turn is animated, the listed pieces are exactly the pieces on the turning face. */
    lemma AffectedAreFacePieces(pieceIndex: int)
      requires Valid()
      ensures isActive && pieceIndex in affectedIndices[..] <==>
              isActive && 0 <= pieceIndex < 27 && OnFace(face, IndexPos(pieceIndex))
    {
      if isActive {
        ListedIffOnFace(face, pieceIndex);
      }
    }

    /** Starts animating a quarter turn of `face` from angle 0. */
    method Activate(face': int, clockwise': bool, isScrambleMove': bool)
      requires Valid() && IsFace(face')
      modifies this, affectedIndices
      ensures Valid() && isActive && Current() == Move(face', clockwise', isScrambleMove')
      ensures currentAngle == 0.0 && affectedIndices[..] == FaceIndices(face')
    {
      isActive := true;
      face := face';
      clockwise := clockwise';
      isScrambleMove := isScrambleMove';
      currentAngle := 0.0;
      targetAngle := QuarterTurn;
      speed := RotationSpeed;
      GetFaceIndices(face', affectedIndices);
    }

    /** Stops the animation: inactive, at angle 0, no scramble flag, no affected pieces. */
    method Deactivate()
      requires affectedIndices.Length == 9 && targetAngle == QuarterTurn && speed == RotationSpeed
      modifies this, affectedIndices
      ensures Valid() && !isActive && face == old(face) && clockwise == old(clockwise)
      ensures forall i :: 0 <= i < 9 ==> affectedIndices[i] == -1
    {
      isActive := false;
      isScrambleMove := false;
      currentAngle := 0.0;
      for i := 0 to 9
        modifies affectedIndices
        invariant forall j :: 0 <= j < i ==> affectedIndices[j] == -1
      {
        affectedIndices[i] := -1;
      }
    }

    /** Advances the angle by one frame and reports whether the turn has reached its target. */
    method Advance(deltaTime: real) returns (finished: bool)
      requires Valid() && isActive
      modifies this
      ensures Valid() && isActive && Current() == old(Current())
      ensures currentAngle == AdvancedAngle(old(currentAngle), speed, deltaTime, targetAngle)
      ensures finished <==> currentAngle >= targetAngle - CompletionSlack
    {
      currentAngle := currentAngle + speed * deltaTime;
      if currentAngle > targetAngle {
        currentAngle := targetAngle;
      }
      finished := currentAngle >= targetAngle - CompletionSlack;
    }
  }
}
