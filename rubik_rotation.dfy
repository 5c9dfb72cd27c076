/**
 * The quarter-turn engine: integer rotation of grid points, the slot
 * permutation of a turned face, the re-orientation of each moved piece's
 * stickers, and the in-place update of the piece array. Positions never
 * change; only sticker colours move between pieces.
 */
module RubikRotation {
  import opened RubikTypes
  import opened RubikState

  /** Opposite face: FRONT/BACK, LEFT/RIGHT, UP/DOWN; a code outside FRONT..DOWN gives FRONT. */
  function OppositeFace(face: int): (r: int)
    ensures IsFace(r)
    ensures !IsFace(face) ==> r == FRONT
  {
    if face == FRONT then BACK
    else if face == BACK then FRONT
    else if face == LEFT then RIGHT
    else if face == RIGHT then LEFT
    else if face == UP then DOWN
    else if face == DOWN then UP
    else FRONT
  }

  function Negated(p: Pos): Pos {
    Pos(-p.x, -p.y, -p.z)
  }

  /**
   * OppositeFace is an involution without fixed points on the six faces,
   * and the opposite face's normal points the other way.
   */
  lemma OppositeFaceInvolution(face: int)
    requires IsFace(face)
    ensures OppositeFace(OppositeFace(face)) == face
    ensures OppositeFace(face) != face
    ensures FaceNormal(OppositeFace(face)) == Negated(FaceNormal(face))
  {
    if face == FRONT {
      assert OppositeFace(face) == BACK;
    } else if face == BACK {
      assert OppositeFace(face) == FRONT;
    } else if face == LEFT {
      assert OppositeFace(face) == RIGHT;
    } else if face == RIGHT {
      assert OppositeFace(face) == LEFT;
    } else if face == UP {
      assert OppositeFace(face) == DOWN;
    } else {
      assert OppositeFace(face) == UP;
    }
  }

  /**
   * Quarter turn of a grid point about axis 0 (x), 1 (y) or 2 (z). The
   * turn goes the positive way when (clockwise ? -1 : 1) * axisSign > 0;
   * any other axis leaves the point where it is.
   */
  function RotateCoordinates(axis: int, axisSign: int, clockwise: bool, p: Pos): (r: Pos)
    ensures axis == 0 ==> r.x == p.x
    ensures axis == 1 ==> r.y == p.y
    ensures axis == 2 ==> r.z == p.z
    ensures InGrid(p) ==> InGrid(r)
    ensures !(0 <= axis <= 2) ==> r == p
  {
    var angleSign := (if clockwise then -1 else 1) * axisSign;
    if axis == 0 then
      (if angleSign > 0 then Pos(p.x, -p.z, p.y) else Pos(p.x, p.z, -p.y))
    else if axis == 1 then
      (if angleSign > 0 then Pos(p.z, p.y, -p.x) else Pos(-p.z, p.y, p.x))
    else if axis == 2 then
      (if angleSign > 0 then Pos(-p.y, p.x, p.z) else Pos(p.y, -p.x, p.z))
    else p
  }

  /** The two turn directions undo each other (for a non-zero axis sign). */
  lemma RotateCoordinatesInverse(axis: int, axisSign: int, clockwise: bool, p: Pos)
    requires axisSign != 0
    ensures RotateCoordinates(axis, axisSign, !clockwise, RotateCoordinates(axis, axisSign, clockwise, p)) == p
  {
  }

  /** Four quarter turns the same way bring every point back. */
  lemma RotateCoordinatesFourTimes(axis: int, axisSign: int, clockwise: bool, p: Pos)
    ensures var r1 := RotateCoordinates(axis, axisSign, clockwise, p);
            var r2 := RotateCoordinates(axis, axisSign, clockwise, r1);
            var r3 := RotateCoordinates(axis, axisSign, clockwise, r2);
            RotateCoordinates(axis, axisSign, clockwise, r3) == p
  {
    var positive := (if clockwise then -1 else 1) * axisSign > 0;
    if axis == 0 {
      if positive {
        assert RotateCoordinates(axis, axisSign, clockwise, p) == Pos(p.x, -p.z, p.y);
      }
    } else if axis == 1 {
      if positive {
        assert RotateCoordinates(axis, axisSign, clockwise, p) == Pos(p.z, p.y, -p.x);
      }
    } else if axis == 2 {
      if positive {
        assert RotateCoordinates(axis, axisSign, clockwise, p) == Pos(-p.y, p.x, p.z);
      }
    }
  }

  /** Axis turned by a face: z for FRONT/BACK, x for LEFT/RIGHT, y for UP/DOWN. */
  function RotationAxis(face: int): (axis: int)
    ensures 0 <= axis <= 2
  {
    if face == FRONT || face == BACK then 2
    else if face == LEFT || face == RIGHT then 0
    else if face == UP || face == DOWN then 1
    else 2
  }

  /** +1 for FRONT, RIGHT and UP, -1 for BACK, LEFT and DOWN. */
  function AxisSign(face: int): (sign: int)
    ensures sign == 1 || sign == -1
  {
    if face == BACK || face == LEFT || face == DOWN then -1 else 1
  }

  /** The face's normal points along its rotation axis, on the side given by its axis sign. */
  lemma AxisMatchesNormal(face: int)
    requires IsFace(face)
    ensures var n := FaceNormal(face);
            var axis := RotationAxis(face);
            (if axis == 0 then n.x else if axis == 1 then n.y else n.z) == AxisSign(face)
  {
  }

  /** Where a grid point goes when `face` is turned. */
  function FaceTurn(face: int, clockwise: bool, p: Pos): Pos {
    RotateCoordinates(RotationAxis(face), AxisSign(face), clockwise, p)
  }

  /** Turning a face keeps the points of its plane on that plane and fixes its centre. */
  lemma FaceTurnKeepsPlane(face: int, clockwise: bool, p: Pos)
    requires IsFace(face) && InGrid(p) && OnFace(face, p)
    ensures InGrid(FaceTurn(face, clockwise, p)) && OnFace(face, FaceTurn(face, clockwise, p))
    ensures FaceTurn(face, clockwise, FaceNormal(face)) == FaceNormal(face)
  {
  }

  /** Slot that the piece at slot s moves to. */
  function DestSlot(face: int, clockwise: bool, s: int): (d: int)
    requires IsFace(face) && 0 <= s < 9
    ensures 0 <= d < 9
  {
    FaceTurnKeepsPlane(face, clockwise, FaceSlotPos(face, s));
    FaceSlotOf(face, FaceTurn(face, clockwise, FaceSlotPos(face, s)))
  }

  /** Slot whose stickers arrive at slot d (the turn taken backwards). */
  function SourceSlot(face: int, clockwise: bool, d: int): (s: int)
    requires IsFace(face) && 0 <= d < 9
    ensures 0 <= s < 9
  {
    FaceTurnKeepsPlane(face, !clockwise, FaceSlotPos(face, d));
    FaceSlotOf(face, FaceTurn(face, !clockwise, FaceSlotPos(face, d)))
  }

  /**
   * The slot map of a turn is a permutation of 0..8 whose inverse is
   * SourceSlot, and it fixes the centre slot 4.
   */
  lemma SlotPermutation(face: int, clockwise: bool, s: int)
    requires IsFace(face) && 0 <= s < 9
    ensures DestSlot(face, clockwise, SourceSlot(face, clockwise, s)) == s
    ensures SourceSlot(face, clockwise, DestSlot(face, clockwise, s)) == s
    ensures DestSlot(face, clockwise, 4) == 4 && SourceSlot(face, clockwise, 4) == 4
  {
    var p := FaceSlotPos(face, s);
    FaceTurnKeepsPlane(face, clockwise, p);
    FaceTurnKeepsPlane(face, !clockwise, p);
    RotateCoordinatesInverse(RotationAxis(face), AxisSign(face), clockwise, p);
    RotateCoordinatesInverse(RotationAxis(face), AxisSign(face), !clockwise, p);
    FaceSlotRoundTrip(face, s);
    assert FaceSlotPos(face, 4) == FaceNormal(face);
    FaceSlotRoundTrip(face, 4);
  }

  /** Four turns of a face send every slot back to itself. */
  lemma SourceSlotFourTimes(face: int, clockwise: bool, d: int)
    requires IsFace(face) && 0 <= d < 9
    ensures var s1 := SourceSlot(face, clockwise, d);
            var s2 := SourceSlot(face, clockwise, s1);
            var s3 := SourceSlot(face, clockwise, s2);
            SourceSlot(face, clockwise, s3) == d
  {
    var s1 := SourceSlot(face, clockwise, d);
    var s2 := SourceSlot(face, clockwise, s1);
    var s3 := SourceSlot(face, clockwise, s2);
    var p := FaceSlotPos(face, d);
    var axis, sign := RotationAxis(face), AxisSign(face);
    var r1 := RotateCoordinates(axis, sign, !clockwise, p);
    var r2 := RotateCoordinates(axis, sign, !clockwise, r1);
    var r3 := RotateCoordinates(axis, sign, !clockwise, r2);
    FaceTurnKeepsPlane(face, !clockwise, p);
    FaceTurnKeepsPlane(face, !clockwise, r1);
    FaceTurnKeepsPlane(face, !clockwise, r2);
    assert FaceSlotPos(face, s1) == r1;
    assert FaceSlotPos(face, s2) == r2;
    assert FaceSlotPos(face, s3) == r3;
    RotateCoordinatesFourTimes(axis, sign, !clockwise, p);
    FaceSlotRoundTrip(face, d);
  }

  /** Direction of the sticker cycle: the turn direction, flipped on a negative axis. */
  function OrientationClockwise(face: int, clockwise: bool): bool {
    if AxisSign(face) < 0 then !clockwise else clockwise
  }

  /**
   * Cycles the four side stickers of a piece (those not on the rotation
   * axis) one step; the two stickers on the axis stay.
   */
  function CycleSides(c: seq<Color>, axis: int, orientationClockwise: bool): (r: seq<Color>)
    requires |c| == 6
    ensures |r| == 6
  {
    if orientationClockwise then
      if axis == 2 then Cycle4(c, UP, LEFT, DOWN, RIGHT)
      else if axis == 0 then Cycle4(c, FRONT, DOWN, BACK, UP)
      else if axis == 1 then Cycle4(c, FRONT, RIGHT, BACK, LEFT)
      else c
    else
      if axis == 2 then Cycle4(c, UP, RIGHT, DOWN, LEFT)
      else if axis == 0 then Cycle4(c, FRONT, UP, BACK, DOWN)
      else if axis == 1 then Cycle4(c, FRONT, LEFT, BACK, RIGHT)
      else c
  }

  /** Face a takes the sticker of face b, b that of d, d that of e, and e that of a. */
  function Cycle4(c: seq<Color>, a: int, b: int, d: int, e: int): (r: seq<Color>)
    requires |c| == 6 && IsFace(a) && IsFace(b) && IsFace(d) && IsFace(e)
    ensures |r| == 6
  {
    c[a := c[b]][b := c[d]][d := c[e]][e := c[a]]
  }

  /** The stickers with those at i and j exchanged. */
  function Swap(s: seq<Color>, i: int, j: int): (r: seq<Color>)
    requires 0 <= i < |s| && 0 <= j < |s|
    ensures |r| == |s|
  {
    s[i := s[j]][j := s[i]]
  }

  /** Exchanging two stickers keeps the bag of stickers. */
  lemma SwapKeepsBag(s: seq<Color>, i: int, j: int)
    requires 0 <= i < |s| && 0 <= j < |s|
    ensures multiset(Swap(s, i, j)) == multiset(s)
  {
  }

  /** A four-cycle is three exchanges: a with b, then b with d, then d with e. */
  lemma Cycle4AsSwaps(c: seq<Color>, a: int, b: int, d: int, e: int)
    requires |c| == 6 && IsFace(a) && IsFace(b) && IsFace(d) && IsFace(e)
    requires a != b && a != d && a != e && b != d && b != e && d != e
    ensures Cycle4(c, a, b, d, e) == Swap(Swap(Swap(c, a, b), b, d), d, e)
  {
    var r := Swap(Swap(Swap(c, a, b), b, d), d, e);
    forall k | 0 <= k < 6
      ensures Cycle4(c, a, b, d, e)[k] == r[k]
    {
    }
  }

  /** A four-cycle of distinct faces is three exchanges, so it keeps the bag of stickers. */
  lemma Cycle4KeepsBag(c: seq<Color>, a: int, b: int, d: int, e: int)
    requires |c| == 6 && IsFace(a) && IsFace(b) && IsFace(d) && IsFace(e)
    requires a != b && a != d && a != e && b != d && b != e && d != e
    ensures multiset(Cycle4(c, a, b, d, e)) == multiset(c)
  {
    Cycle4AsSwaps(c, a, b, d, e);
    SwapKeepsBag(c, a, b);
    SwapKeepsBag(Swap(c, a, b), b, d);
    SwapKeepsBag(Swap(Swap(c, a, b), b, d), d, e);
  }


  /**
   * The sticker cycle carries each sticker to the direction the turn carries
   * its face normal to: the sticker on face g ends up on the face whose
   * normal is the turned normal of g. Stickers on the axis stay put.
   */
  lemma CycleFollowsTurn(c: seq<Color>, face: int, clockwise: bool, g: int, h: int)
    requires |c| == 6 && IsFace(face) && IsFace(g) && IsFace(h)
    requires FaceNormal(h) == FaceTurn(face, clockwise, FaceNormal(g))
    ensures CycleSides(c, RotationAxis(face), OrientationClockwise(face, clockwise))[h] == c[g]
  {
  }

  /** One step of the sticker cycle written out as a sequence display, per axis and direction. */
  lemma CycleSidesDisplay(c: seq<Color>, axis: int, o: bool)
    requires |c| == 6
    ensures var r := CycleSides(c, axis, o);
            if axis == 0 then
              r == (if o then [c[5], c[4], c[2], c[3], c[0], c[1]] else [c[4], c[5], c[2], c[3], c[1], c[0]])
            else if axis == 1 then
              r == (if o then [c[3], c[2], c[0], c[1], c[4], c[5]] else [c[2], c[3], c[1], c[0], c[4], c[5]])
            else if axis == 2 then
              r == (if o then [c[0], c[1], c[5], c[4], c[2], c[3]] else [c[0], c[1], c[4], c[5], c[3], c[2]])
            else r == c
  {
  }

  /** The two cycle directions undo each other. */
  lemma CycleSidesInverse(c: seq<Color>, axis: int, o: bool)
    requires |c| == 6
    ensures CycleSides(CycleSides(c, axis, o), axis, !o) == c
  {
    CycleSidesDisplay(c, axis, o);
    CycleSidesDisplay(CycleSides(c, axis, o), axis, !o);
  }

  /** Four steps of the sticker cycle are the identity. */
  lemma CycleSidesFourTimes(c: seq<Color>, axis: int, o: bool)
    requires |c| == 6
    ensures var c1 := CycleSides(c, axis, o);
            var c2 := CycleSides(c1, axis, o);
            var c3 := CycleSides(c2, axis, o);
            CycleSides(c3, axis, o) == c
  {
    var c1 := CycleSides(c, axis, o);
    var c2 := CycleSides(c1, axis, o);
    var c3 := CycleSides(c2, axis, o);
    CycleSidesDisplay(c, axis, o);
    CycleSidesDisplay(c1, axis, o);
    CycleSidesDisplay(c2, axis, o);
    CycleSidesDisplay(c3, axis, o);
  }

  /** No sticker is lost or duplicated by the cycle. */
  lemma CycleSidesPermutes(c: seq<Color>, axis: int, o: bool)
    requires |c| == 6
    ensures multiset(CycleSides(c, axis, o)) == multiset(c)
  {
    if !(0 <= axis <= 2) {
    } else if o && axis == 2 {
      Cycle4KeepsBag(c, UP, LEFT, DOWN, RIGHT);
    } else if o && axis == 0 {
      Cycle4KeepsBag(c, FRONT, DOWN, BACK, UP);
    } else if o {
      Cycle4KeepsBag(c, FRONT, RIGHT, BACK, LEFT);
    } else if axis == 2 {
      Cycle4KeepsBag(c, UP, RIGHT, DOWN, LEFT);
    } else if axis == 0 {
      Cycle4KeepsBag(c, FRONT, UP, BACK, DOWN);
    } else {
      Cycle4KeepsBag(c, FRONT, LEFT, BACK, RIGHT);
    }
  }

  /** Stickers a slot receives from its source: the centre keeps them as they are, the others are cycled. */
  function SlotColors(face: int, clockwise: bool, d: int, c: seq<Color>): (r: seq<Color>)
    requires |c| == 6
    ensures |r| == 6
  {
    if d == 4 then c else CycleSides(c, RotationAxis(face), OrientationClockwise(face, clockwise))
  }

  /**
   * The cube after a quarter turn of `face`: the piece at slot d of the face
   * takes the stickers of the piece at SourceSlot(d), re-oriented; pieces off
   * the face and all positions stay as they were.
   */
  function Turned(ps: seq<Piece>, face: int, clockwise: bool): (r: seq<Piece>)
    requires WellFormed(ps) && IsFace(face)
    ensures WellFormed(r)
    ensures forall n :: 0 <= n < 27 ==> r[n] == TurnedPiece(ps, face, clockwise, n)
  {
    seq(27, n requires 0 <= n < 27 => TurnedPiece(ps, face, clockwise, n))
  }

  /** Piece n after the turn. */
  function TurnedPiece(ps: seq<Piece>, face: int, clockwise: bool, n: int): (q: Piece)
    requires WellFormed(ps) && IsFace(face) && 0 <= n < 27
    ensures q.position == ps[n].position && |q.colors| == 6
  {
    var p := IndexPos(n);
    if OnFace(face, p) then
      var d := FaceSlotOf(face, p);
      var src := FaceIndices(face)[SourceSlot(face, clockwise, d)];
      ps[n].(colors := SlotColors(face, clockwise, d, ps[src].colors))
    else ps[n]
  }

  /** What a turn does at slot d of the turned face. */
  lemma TurnedAt(ps: seq<Piece>, face: int, clockwise: bool, d: int)
    requires WellFormed(ps) && IsFace(face) && 0 <= d < 9
    ensures var r := Turned(ps, face, clockwise);
            var n := FaceIndices(face)[d];
            var src := FaceIndices(face)[SourceSlot(face, clockwise, d)];
            r[n] == ps[n].(colors := SlotColors(face, clockwise, d, ps[src].colors))
  {
    FaceIndicesFacts(face);
    var n := FaceIndices(face)[d];
    PositionToIndexBijective(FaceSlotPos(face, d), FaceSlotPos(face, d));
    FaceSlotRoundTrip(face, d);
    assert IndexPos(n) == FaceSlotPos(face, d);
  }

  /**
   * A turn writes only the stickers of the nine face pieces: every other
   * piece is unchanged, every position is unchanged, and the centre piece of
   * the turned face keeps its whole sticker set.
   */
  lemma TurnedFrame(ps: seq<Piece>, face: int, clockwise: bool)
    requires WellFormed(ps) && IsFace(face)
    ensures forall n :: 0 <= n < 27 && n !in FaceIndices(face) ==> Turned(ps, face, clockwise)[n] == ps[n]
    ensures forall n :: 0 <= n < 27 ==> Turned(ps, face, clockwise)[n].position == ps[n].position
    ensures Turned(ps, face, clockwise)[FaceIndices(face)[4]] == ps[FaceIndices(face)[4]]
  {
    FaceIndicesFacts(face);
    TurnedAt(ps, face, clockwise, 4);
    SlotPermutation(face, clockwise, 4);
  }

  /** The cube after k quarter turns of the same face in the same direction. */
  ghost function TurnedTimes(ps: seq<Piece>, face: int, clockwise: bool, k: nat): (r: seq<Piece>)
    requires WellFormed(ps) && IsFace(face)
    ensures WellFormed(r)
    decreases k
  {
    if k == 0 then ps else Turned(TurnedTimes(ps, face, clockwise, k - 1), face, clockwise)
  }

  /** Four quarter turns of the same face in the same direction restore every piece. */
  lemma FourTurnsIdentity(ps: seq<Piece>, face: int, clockwise: bool)
    requires WellFormed(ps) && IsFace(face)
    ensures TurnedTimes(ps, face, clockwise, 4) == ps
  {
    var t1 := Turned(ps, face, clockwise);
    var t2 := Turned(t1, face, clockwise);
    var t3 := Turned(t2, face, clockwise);
    var t4 := Turned(t3, face, clockwise);
    assert TurnedTimes(ps, face, clockwise, 1) == t1;
    assert TurnedTimes(ps, face, clockwise, 2) == t2;
    assert TurnedTimes(ps, face, clockwise, 3) == t3;
    assert TurnedTimes(ps, face, clockwise, 4) == t4;
    var idx := FaceIndices(face);
    forall n | 0 <= n < 27
      ensures t4[n] == ps[n]
    {
      if n in idx {
        var d :| 0 <= d < 9 && idx[d] == n;
        FourTurnsAtSlot(ps, face, clockwise, d);
      } else {
        TurnedOffFace(ps, face, clockwise, n);
        TurnedOffFace(t1, face, clockwise, n);
        TurnedOffFace(t2, face, clockwise, n);
        TurnedOffFace(t3, face, clockwise, n);
      }
    }
    assert t4 == ps;
  }

  /** A piece that is not on the turned face is left exactly as it was. */
  lemma TurnedOffFace(ps: seq<Piece>, face: int, clockwise: bool, n: int)
    requires WellFormed(ps) && IsFace(face) && 0 <= n < 27 && n !in FaceIndices(face)
    ensures Turned(ps, face, clockwise)[n] == ps[n]
  {
    FaceIndicesFacts(face);
  }

  /** The colours at one slot after four turns: each step takes them from the source slot. */
  lemma FourTurnsAtSlot(ps: seq<Piece>, face: int, clockwise: bool, d: int)
    requires WellFormed(ps) && IsFace(face) && 0 <= d < 9
    ensures var t1 := Turned(ps, face, clockwise);
            var t2 := Turned(t1, face, clockwise);
            var t3 := Turned(t2, face, clockwise);
            Turned(t3, face, clockwise)[FaceIndices(face)[d]] == ps[FaceIndices(face)[d]]
  {
    var t1 := Turned(ps, face, clockwise);
    var t2 := Turned(t1, face, clockwise);
    var t3 := Turned(t2, face, clockwise);
    var t4 := Turned(t3, face, clockwise);
    var idx := FaceIndices(face);
    var s1 := SourceSlot(face, clockwise, d);
    var s2 := SourceSlot(face, clockwise, s1);
    var s3 := SourceSlot(face, clockwise, s2);
    SourceSlotFourTimes(face, clockwise, d);
    assert SourceSlot(face, clockwise, s3) == d;
    TurnedAt(t3, face, clockwise, d);
    TurnedAt(t2, face, clockwise, s1);
    TurnedAt(t1, face, clockwise, s2);
    TurnedAt(ps, face, clockwise, s3);
    var c := ps[idx[d]].colors;
    var c1 := SlotColors(face, clockwise, s3, c);
    var c2 := SlotColors(face, clockwise, s2, c1);
    var c3 := SlotColors(face, clockwise, s1, c2);
    assert t1[idx[s3]].colors == c1;
    assert t2[idx[s2]].colors == c2;
    assert t3[idx[s1]].colors == c3;
    assert t4[idx[d]] == ps[idx[d]].(colors := SlotColors(face, clockwise, d, c3));
    SlotPermutation(face, clockwise, d);
    SlotPermutation(face, clockwise, s1);
    SlotPermutation(face, clockwise, s2);
    SlotPermutation(face, clockwise, s3);
    // the centre slot is fixed, so every slot of the orbit is the centre or none is
    if d == 4 {
      assert s1 == 4 && s2 == 4 && s3 == 4;
    } else {
      assert s1 != 4 && s2 != 4 && s3 != 4;
      CycleSidesFourTimes(c, RotationAxis(face), OrientationClockwise(face, clockwise));
    }
  }

  /**
   * The quarter turn in place: snapshots the nine face pieces' stickers,
   * builds the slot mapping, then writes each face piece's stickers from its
   * source slot, cycling the side stickers of every piece but the centre.
   */
  method RotatePositions(cube: Cube, face: int, clockwise: bool)
    requires cube.Valid() && IsFace(face)
    modifies cube.pieces
    ensures cube.Valid()
    ensures cube.pieces[..] == Turned(old(cube.pieces[..]), face, clockwise)
  {
    ghost var ps := cube.pieces[..];
    var indices := new int[9];
    GetFaceIndices(face, indices);
    var backupColors := SnapshotColors(cube, indices);

    var rotationAxis, axisSign;
    if face == FRONT || face == BACK {
      rotationAxis := 2;
      axisSign := if face == FRONT then 1 else -1;
    } else if face == LEFT || face == RIGHT {
      rotationAxis := 0;
      axisSign := if face == RIGHT then 1 else -1;
    } else {
      rotationAxis := 1;
      axisSign := if face == UP then 1 else -1;
    }

    FaceSlotsHold(ps, face);
    var mapping := SlotMapping(cube, face, clockwise, indices, rotationAxis, axisSign);
    WriteTurnedColors(cube, face, clockwise, indices, backupColors, mapping, rotationAxis, axisSign, ps);
    assert Placed(cube.pieces[..]) by {
      assert forall n :: 0 <= n < 27 ==> cube.pieces[n].position == ps[n].position;
    }
  }

  /** Copies the sticker lists of the nine face pieces. */
  method SnapshotColors(cube: Cube, indices: array<int>) returns (backupColors: array<seq<Color>>)
    requires cube.pieces.Length == 27 && indices.Length == 9
    requires forall s :: 0 <= s < 9 ==> 0 <= indices[s] < 27
    ensures fresh(backupColors) && backupColors.Length == 9
    ensures forall s :: 0 <= s < 9 ==> backupColors[s] == cube.pieces[indices[s]].colors
  {
    backupColors := new seq<Color>[9];
    for i := 0 to 9
      modifies backupColors
      invariant forall s :: 0 <= s < i ==> backupColors[s] == cube.pieces[indices[s]].colors
    {
      backupColors[i] := cube.pieces[indices[i]].colors;
    }
  }

  /**
   * Writes each face slot's new stickers: those of its source slot, cycled
   * unless the slot is the centre. Afterwards the pieces are exactly the
   * turned cube.
   */
  method WriteTurnedColors(cube: Cube, face: int, clockwise: bool, indices: array<int>,
                           backupColors: array<seq<Color>>, mapping: array<int>,
                           rotationAxis: int, axisSign: int, ghost ps: seq<Piece>)
    requires WellFormed(ps) && IsFace(face) && cube.pieces[..] == ps
    requires indices.Length == 9 && indices[..] == FaceIndices(face)
    requires backupColors.Length == 9 && forall s :: 0 <= s < 9 ==> backupColors[s] == ps[indices[s]].colors
    requires mapping.Length == 9 && forall d :: 0 <= d < 9 ==> mapping[d] == SourceSlot(face, clockwise, d)
    requires rotationAxis == RotationAxis(face) && axisSign == AxisSign(face)
    modifies cube.pieces
    ensures cube.pieces[..] == Turned(ps, face, clockwise)
  {
    ghost var target := Turned(ps, face, clockwise);
    PartlyTurnedStart(ps, target, face);
    for i := 0 to 9
      invariant cube.pieces[..] == PartlyTurned(ps, target, face, i)
    {
      var srcIdx := mapping[i];
      var colors := backupColors[srcIdx];
      if i != 4 {
        var orientationClockwise := clockwise;
        if axisSign < 0 {
          orientationClockwise := !orientationClockwise;
        }
        colors := CycleSides(colors, rotationAxis, orientationClockwise);
      }
      assert colors == SlotColors(face, clockwise, i, ps[FaceIndices(face)[SourceSlot(face, clockwise, i)]].colors);
      TurnedAt(ps, face, clockwise, i);
      PartlyTurnedStep(ps, target, face, i);
      cube.pieces[indices[i]] := cube.pieces[indices[i]].(colors := colors);
    }
    TurnedFrame(ps, face, clockwise);
    PartlyTurnedEnds(ps, target, face);
  }

  /** The pieces after the first i slots of the face are written: those slots as in target, the rest as in ps. */
  ghost function PartlyTurned(ps: seq<Piece>, target: seq<Piece>, face: int, i: int): (r: seq<Piece>)
    requires |ps| == 27 && |target| == 27 && IsFace(face) && 0 <= i <= 9
    ensures |r| == 27
  {
    seq(27, n requires 0 <= n < 27 => if n in FaceIndices(face)[..i] then target[n] else ps[n])
  }

  lemma PartlyTurnedStart(ps: seq<Piece>, target: seq<Piece>, face: int)
    requires |ps| == 27 && |target| == 27 && IsFace(face)
    ensures PartlyTurned(ps, target, face, 0) == ps
  {
  }

  /** Writing slot i's target piece extends the written prefix by one slot. */
  lemma PartlyTurnedStep(ps: seq<Piece>, target: seq<Piece>, face: int, i: int)
    requires |ps| == 27 && |target| == 27 && IsFace(face) && 0 <= i < 9
    ensures PartlyTurned(ps, target, face, i)[FaceIndices(face)[i]] == ps[FaceIndices(face)[i]]
    ensures PartlyTurned(ps, target, face, i)[FaceIndices(face)[i] := target[FaceIndices(face)[i]]]
            == PartlyTurned(ps, target, face, i + 1)
  {
    var idx := FaceIndices(face);
    FaceIndexDistinct(face, i);
    assert idx[..i + 1] == idx[..i] + [idx[i]];
    assert idx[i] !in idx[..i];
  }

  /** With all nine slots written the pieces are the target, when the target agrees with ps off the face. */
  lemma PartlyTurnedEnds(ps: seq<Piece>, target: seq<Piece>, face: int)
    requires |ps| == 27 && |target| == 27 && IsFace(face)
    requires forall n :: 0 <= n < 27 && n !in FaceIndices(face) ==> target[n] == ps[n]
    ensures PartlyTurned(ps, target, face, 9) == target
  {
    assert FaceIndices(face)[..9] == FaceIndices(face);
  }

  /**
   * The slot mapping of a turn: for each destination slot, the slot whose
   * piece lands there, found by rotating every face piece's position and
   * looking the result up in a position-key table.
   */
  method SlotMapping(cube: Cube, face: int, clockwise: bool, indices: array<int>, rotationAxis: int, axisSign: int)
    returns (mapping: array<int>)
    requires IsFace(face) && indices.Length == 9 && SlotsHold(cube.pieces[..], face, indices[..])
    requires rotationAxis == RotationAxis(face) && axisSign == AxisSign(face)
    ensures fresh(mapping) && mapping.Length == 9
    ensures forall d :: 0 <= d < 9 ==> mapping[d] == SourceSlot(face, clockwise, d)
  {
    var keyToSlot := KeyToSlotTable(cube, face, indices);
    mapping := new int[9];
    for i := 0 to 9
      modifies mapping
      invariant forall s :: 0 <= s < i ==> mapping[DestSlot(face, clockwise, s)] == s
    {
      var position := cube.pieces[indices[i]].position;
      RecordSource(face, clockwise, keyToSlot, mapping, position, i, rotationAxis, axisSign);
    }
    InvertedSlots(face, clockwise, mapping[..]);
  }

  /** The listed indices name, slot by slot, the pieces sitting at the face's scan positions. */
  predicate SlotsHold(ps: seq<Piece>, face: int, indices: seq<int>)
    requires IsFace(face)
  {
    |indices| == 9 && forall s :: 0 <= s < 9 ==> 0 <= indices[s] < |ps| && ps[indices[s]].position == FaceSlotPos(face, s)
  }

  /** On a placed cube the face's index list holds. */
  lemma FaceSlotsHold(ps: seq<Piece>, face: int)
    requires Placed(ps) && IsFace(face)
    ensures SlotsHold(ps, face, FaceIndices(face))
  {
    forall s | 0 <= s < 9
      ensures ps[FaceIndices(face)[s]].position == FaceSlotPos(face, s)
    {
      SlotOfIndex(face, s);
    }
  }

  /** A table that sends every slot's destination back to the slot lists the source slot of each destination. */
  lemma InvertedSlots(face: int, clockwise: bool, m: seq<int>)
    requires IsFace(face) && |m| == 9
    requires forall s :: 0 <= s < 9 ==> m[DestSlot(face, clockwise, s)] == s
    ensures forall d :: 0 <= d < 9 ==> m[d] == SourceSlot(face, clockwise, d)
  {
    forall d | 0 <= d < 9
      ensures m[d] == SourceSlot(face, clockwise, d)
    {
      SlotPermutation(face, clockwise, d);
    }
  }

  /** Records slot i as the source of the slot its piece moves to. */
  method RecordSource(face: int, clockwise: bool, keyToSlot: array<int>, mapping: array<int>, position: Pos, i: int,
                      rotationAxis: int, axisSign: int)
    requires IsFace(face) && 0 <= i < 9 && position == FaceSlotPos(face, i)
    requires rotationAxis == RotationAxis(face) && axisSign == AxisSign(face)
    requires keyToSlot.Length == 27 && forall s :: 0 <= s < 9 ==> keyToSlot[KeyOf(FaceSlotPos(face, s))] == s
    requires mapping.Length == 9 && mapping != keyToSlot
    requires forall s :: 0 <= s < i ==> mapping[DestSlot(face, clockwise, s)] == s
    modifies mapping
    ensures forall s :: 0 <= s <= i ==> mapping[DestSlot(face, clockwise, s)] == s
  {
    var destSlot := DestinationOf(face, clockwise, keyToSlot, position, i, rotationAxis, axisSign);
    DestSlotsDistinct(face, clockwise, i);
    mapping[destSlot] := i;
  }

  /** Slot that the piece at slot i moves to: its position turned, then looked up by position key. */
  method DestinationOf(face: int, clockwise: bool, keyToSlot: array<int>, position: Pos, i: int,
                       rotationAxis: int, axisSign: int) returns (destSlot: int)
    requires IsFace(face) && 0 <= i < 9 && position == FaceSlotPos(face, i)
    requires rotationAxis == RotationAxis(face) && axisSign == AxisSign(face)
    requires keyToSlot.Length == 27 && forall s :: 0 <= s < 9 ==> keyToSlot[KeyOf(FaceSlotPos(face, s))] == s
    ensures destSlot == DestSlot(face, clockwise, i)
  {
    DestSlotPos(face, clockwise, i);
    var r := RotateCoordinates(rotationAxis, axisSign, clockwise, position);
    var key := EncodePositionKey(r.x, r.y, r.z);
    destSlot := keyToSlot[key];
  }

  /** Table from position key to face slot: -1 for the 18 pieces off the face. */
  method KeyToSlotTable(cube: Cube, face: int, indices: array<int>) returns (keyToSlot: array<int>)
    requires IsFace(face) && indices.Length == 9 && SlotsHold(cube.pieces[..], face, indices[..])
    ensures fresh(keyToSlot) && keyToSlot.Length == 27
    ensures forall s :: 0 <= s < 9 ==> keyToSlot[KeyOf(FaceSlotPos(face, s))] == s
  {
    keyToSlot := new int[27];
    for i := 0 to 27
      modifies keyToSlot
    {
      keyToSlot[i] := -1;
    }
    for i := 0 to 9
      modifies keyToSlot
      invariant forall s :: 0 <= s < i ==> keyToSlot[KeyOf(FaceSlotPos(face, s))] == s
    {
      var position := cube.pieces[indices[i]].position;
      KeysOfSlotsDistinct(face, i);
      var key := EncodePositionKey(position.x, position.y, position.z);
      keyToSlot[key] := i;
    }
  }

  /** The piece index of slot i differs from that of every other slot. */
  lemma FaceIndexDistinct(face: int, i: int)
    requires IsFace(face) && 0 <= i < 9
    ensures forall s :: 0 <= s < 9 && s != i ==> FaceIndices(face)[s] != FaceIndices(face)[i]
  {
    FaceIndicesFacts(face);
  }

  /** Position keys of different face slots differ. */
  lemma KeysOfSlotsDistinct(face: int, i: int)
    requires IsFace(face) && 0 <= i < 9
    ensures forall s :: 0 <= s < 9 && s != i ==> KeyOf(FaceSlotPos(face, s)) != KeyOf(FaceSlotPos(face, i))
  {
    forall s | 0 <= s < 9 && s != i
      ensures KeyOf(FaceSlotPos(face, s)) != KeyOf(FaceSlotPos(face, i))
    {
      FaceSlotRoundTrip(face, s);
      FaceSlotRoundTrip(face, i);
      if KeyOf(FaceSlotPos(face, s)) == KeyOf(FaceSlotPos(face, i)) {
        EncodePositionKeyInjective(FaceSlotPos(face, s), FaceSlotPos(face, i));
      }
    }
  }

  /** The turn carries the grid point of slot s to the grid point of its destination slot. */
  lemma DestSlotPos(face: int, clockwise: bool, s: int)
    requires IsFace(face) && 0 <= s < 9
    ensures FaceTurn(face, clockwise, FaceSlotPos(face, s)) == FaceSlotPos(face, DestSlot(face, clockwise, s))
  {
    FaceTurnKeepsPlane(face, clockwise, FaceSlotPos(face, s));
  }

  /** Different slots move to different slots. */
  lemma DestSlotsDistinct(face: int, clockwise: bool, i: int)
    requires IsFace(face) && 0 <= i < 9
    ensures forall s :: 0 <= s < 9 && s != i ==> DestSlot(face, clockwise, s) != DestSlot(face, clockwise, i)
  {
    forall s | 0 <= s < 9 && s != i
      ensures DestSlot(face, clockwise, s) != DestSlot(face, clockwise, i)
    {
      SlotPermutation(face, clockwise, s);
      SlotPermutation(face, clockwise, i);
    }
  }

  /** The piece index at slot i of a face stands for the slot's position, and only that slot's. */
  lemma SlotOfIndex(face: int, i: int)
    requires IsFace(face) && 0 <= i < 9
    ensures var n := FaceIndices(face)[i];
            IndexPos(n) == FaceSlotPos(face, i) && OnFace(face, IndexPos(n)) && FaceSlotOf(face, IndexPos(n)) == i
  {
    FaceIndicesFacts(face);
    PositionToIndexBijective(FaceSlotPos(face, i), FaceSlotPos(face, i));
    FaceSlotRoundTrip(face, i);
  }

  /** A quarter turn of one face of the cube. */
  method RotateFace(cube: Cube, face: int, clockwise: bool)
    requires cube.Valid() && IsFace(face)
    modifies cube.pieces
    ensures cube.Valid()
    ensures cube.pieces[..] == Turned(old(cube.pieces[..]), face, clockwise)
  {
    RotatePositions(cube, face, clockwise);
  }

  /** The bag of stickers of each piece, piece by piece. */
  function StickerSets(ps: seq<Piece>): (r: seq<multiset<Color>>)
    ensures |r| == |ps|
  {
    seq(|ps|, n requires 0 <= n < |ps| => multiset(ps[n].colors))
  }

  /** Piece whose stickers piece n holds after the turn: the source slot's piece on the face, n itself elsewhere. */
  function Origin(face: int, clockwise: bool, n: int): (m: int)
    requires IsFace(face) && 0 <= n < 27
    ensures 0 <= m < 27
  {
    var p := IndexPos(n);
    if OnFace(face, p) then FaceIndices(face)[SourceSlot(face, clockwise, FaceSlotOf(face, p))] else n
  }

  /** Origin is one-to-one, so a turn hands every piece's stickers to exactly one piece. */
  lemma OriginInjective(face: int, clockwise: bool, n: int, m: int)
    requires IsFace(face) && 0 <= n < 27 && 0 <= m < 27 && n != m
    ensures Origin(face, clockwise, n) != Origin(face, clockwise, m)
  {
    var pn, pm := IndexPos(n), IndexPos(m);
    if OnFace(face, pn) && OnFace(face, pm) {
      var dn, dm := FaceSlotOf(face, pn), FaceSlotOf(face, pm);
      assert FaceSlotPos(face, dn) == pn && FaceSlotPos(face, dm) == pm;
      SlotPermutation(face, clockwise, dn);
      SlotPermutation(face, clockwise, dm);
      FaceIndexDistinct(face, SourceSlot(face, clockwise, dn));
    } else if OnFace(face, pn) {
      SlotOfIndex(face, SourceSlot(face, clockwise, FaceSlotOf(face, pn)));
    } else if OnFace(face, pm) {
      SlotOfIndex(face, SourceSlot(face, clockwise, FaceSlotOf(face, pm)));
    }
  }

  /** Reading a sequence through a one-to-one index map keeps its bag of elements. */
  lemma {:induction false} BijectionKeepsBag<T>(s: seq<T>, t: seq<T>, f: int -> int)
    requires |s| == |t|
    requires forall i :: 0 <= i < |t| ==> 0 <= f(i) < |s| && t[i] == s[f(i)]
    requires forall i, j :: 0 <= i < j < |t| ==> f(i) != f(j)
    ensures multiset(t) == multiset(s)
    decreases |t|
  {
    if |t| > 0 {
      var k := |t| - 1;
      var j := f(k);
      var s' := s[..j] + s[j + 1..];
      var t' := t[..k];
      var f' := i => if f(i) < j then f(i) else f(i) - 1;
      forall i | 0 <= i < |t'|
        ensures 0 <= f'(i) < |s'| && t'[i] == s'[f'(i)]
      {
        assert f(i) != f(k);
      }
      forall i, i2 | 0 <= i < i2 < |t'|
        ensures f'(i) != f'(i2)
      {
        assert f(i) != f(k) && f(i2) != f(k) && f(i) != f(i2);
      }
      BijectionKeepsBag(s', t', f');
      assert s == s[..j] + [s[j]] + s[j + 1..];
      assert t == t' + [t[k]];
    }
  }

  /** Each turn keeps the bag of per-piece sticker sets: stickers move between pieces, none is lost. */
  lemma TurnKeepsStickerSets(ps: seq<Piece>, face: int, clockwise: bool)
    requires WellFormed(ps) && IsFace(face)
    ensures multiset(StickerSets(Turned(ps, face, clockwise))) == multiset(StickerSets(ps))
  {
    var t := Turned(ps, face, clockwise);
    var f := n => if 0 <= n < 27 then Origin(face, clockwise, n) else 0;
    forall n | 0 <= n < 27
      ensures StickerSets(t)[n] == StickerSets(ps)[f(n)]
    {
      var p := IndexPos(n);
      if OnFace(face, p) {
        var d := FaceSlotOf(face, p);
        CycleSidesPermutes(ps[Origin(face, clockwise, n)].colors, RotationAxis(face), OrientationClockwise(face, clockwise));
      }
    }
    forall i, j | 0 <= i < j < 27
      ensures f(i) != f(j)
    {
      OriginInjective(face, clockwise, i, j);
    }
    BijectionKeepsBag(StickerSets(ps), StickerSets(t), f);
  }

  /**
   * Stand-alone re-orientation of one piece's stickers about an axis, as a
   * separate helper: for the x and z axes it is the cycle of RotatePositions;
   * for the y axis its clockwise cycle sends LEFT to FRONT.
   */
  function PieceOrientationCycle(c: seq<Color>, axis: int, clockwise: bool): (r: seq<Color>)
    requires |c| == 6
    ensures |r| == 6
  {
    if axis == 2 then
      (if clockwise then Cycle4(c, UP, LEFT, DOWN, RIGHT) else Cycle4(c, UP, RIGHT, DOWN, LEFT))
    else if axis == 0 then
      (if clockwise then Cycle4(c, FRONT, DOWN, BACK, UP) else Cycle4(c, FRONT, UP, BACK, DOWN))
    else if axis == 1 then
      (if clockwise then Cycle4(c, FRONT, LEFT, BACK, RIGHT) else Cycle4(c, FRONT, RIGHT, BACK, LEFT))
    else c
  }

  /**
   * The helper agrees with the cycle that RotatePositions applies on the x
   * and z axes and any other axis code, and runs the opposite way on the y axis.
   */
  lemma PieceOrientationVersusTurnCycle(c: seq<Color>, axis: int, clockwise: bool)
    requires |c| == 6
    ensures axis != 1 ==> PieceOrientationCycle(c, axis, clockwise) == CycleSides(c, axis, clockwise)
    ensures axis == 1 ==> PieceOrientationCycle(c, axis, clockwise) == CycleSides(c, axis, !clockwise)
  {
  }

  /**
   * On the y axis the helper's clockwise cycle does not follow the turn: after
   * a clockwise UP turn the front-up edge's red sticker must face LEFT (where
   * the turn carries the FRONT normal), but the helper leaves BACK's black
   * sticker there.
   */
  lemma PieceOrientationYAxisCounterexample()
    ensures FaceNormal(LEFT) == FaceTurn(UP, true, FaceNormal(FRONT))
    ensures var c := InitialColors(Pos(0, 1, 1));
            c[FRONT] == Red
            && CycleSides(c, RotationAxis(UP), OrientationClockwise(UP, true))[LEFT] == Red
            && PieceOrientationCycle(c, RotationAxis(UP), true)[LEFT] == Black
  {
  }

  /** Re-orients the stickers of one piece in place; nothing else changes. */
  method RotatePieceOrientation(cube: Cube, pieceIndex: int, axis: int, clockwise: bool)
    requires cube.Valid() && 0 <= pieceIndex < 27
    modifies cube.pieces
    ensures cube.Valid()
    ensures cube.pieces[..] == old(cube.pieces[..])[pieceIndex := old(cube.pieces[pieceIndex])
                                 .(colors := PieceOrientationCycle(old(cube.pieces[pieceIndex].colors), axis, clockwise))]
  {
    var p := cube.pieces[pieceIndex];
    cube.pieces[pieceIndex] := p.(colors := PieceOrientationCycle(p.colors, axis, clockwise));
  }

  /** Number of colour channels compared per cube: 27 pieces, 6 stickers, 3 channels. */
  const EntriesPerCube: int := 27 * 6 * 3

  /** How many of the three RGB channels of two stickers lie within 0.001 of each other. */
  function ChannelMatches(a: Color, b: Color): (k: int)
    ensures 0 <= k <= 3
  {
    var (r1, g1, b1) := Rgb(a);
    var (r2, g2, b2) := Rgb(b);
    (if Abs(r1 - r2) < 0.001 then 1 else 0)
    + (if Abs(g1 - g2) < 0.001 then 1 else 0)
    + (if Abs(b1 - b2) < 0.001 then 1 else 0)
  }

  /** All three channels match exactly when the two stickers are the same palette colour. */
  lemma ChannelMatchesIsEquality(a: Color, b: Color)
    ensures ChannelMatches(a, b) == 3 <==> a == b
  {
  }

  /**
   * Four clockwise turns of each face in turn, each started from the original
   * colours, comparing every colour channel with the original; the cube is
   * restored afterwards. Returns the match count per face, FRONT to DOWN, or
   * nothing when no log is open.
   */
  method TestRotationIdentity(cube: Cube, logOpen: bool) returns (matchCounts: seq<int>)
    requires cube.Valid()
    modifies cube.pieces
    ensures cube.Valid() && cube.pieces[..] == old(cube.pieces[..])
    ensures !logOpen ==> matchCounts == []
    ensures logOpen ==> |matchCounts| == 6 && forall k :: 0 <= k < 6 ==> matchCounts[k] == EntriesPerCube
  {
    if !logOpen {
      return [];
    }
    ghost var ps := cube.pieces[..];
    var originalColors := new seq<Color>[27];
    for p := 0 to 27
      modifies originalColors
      invariant forall q :: 0 <= q < p ==> originalColors[q] == ps[q].colors
    {
      originalColors[p] := cube.pieces[p].colors;
    }

    matchCounts := [];
    for faceIdx := 0 to 6
      modifies cube.pieces
      invariant cube.Valid() && cube.pieces[..] == ps
      invariant |matchCounts| == faceIdx
      invariant forall k :: 0 <= k < faceIdx ==> matchCounts[k] == EntriesPerCube
    {
      var face := faceIdx;
      RestoreColors(cube, originalColors, ps);
      for turn := 0 to 4
        modifies cube.pieces
        invariant cube.Valid() && cube.pieces[..] == TurnedTimes(ps, face, true, turn)
      {
        RotateFace(cube, face, true);
      }
      FourTurnsIdentity(ps, face, true);
      var matches := CountMatches(cube, originalColors);
      matchCounts := matchCounts + [matches];
    }
    RestoreColors(cube, originalColors, ps);
  }

  /** Writes the saved colours back into every piece. */
  method RestoreColors(cube: Cube, originalColors: array<seq<Color>>, ghost ps: seq<Piece>)
    requires cube.Valid() && Placed(ps) && WellFormed(ps)
    requires originalColors.Length == 27 && forall q :: 0 <= q < 27 ==> originalColors[q] == ps[q].colors
    modifies cube.pieces
    ensures cube.Valid() && cube.pieces[..] == ps
  {
    for p := 0 to 27
      invariant forall q :: 0 <= q < p ==> cube.pieces[q] == ps[q]
      invariant forall q :: p <= q < 27 ==> cube.pieces[q].position == ps[q].position
    {
      cube.pieces[p] := cube.pieces[p].(colors := originalColors[p]);
    }
    assert cube.pieces[..] == ps;
  }

  /** Counts the colour channels that agree with the saved colours; all of them agree exactly when every sticker does. */
  method CountMatches(cube: Cube, originalColors: array<seq<Color>>) returns (matches: int)
    requires cube.Valid() && originalColors.Length == 27
    requires forall q :: 0 <= q < 27 ==> |originalColors[q]| == 6
    ensures 0 <= matches <= EntriesPerCube
    ensures matches == EntriesPerCube <==> forall q :: 0 <= q < 27 ==> cube.pieces[q].colors == originalColors[q]
  {
    matches := 0;
    for p := 0 to 27
      invariant 0 <= matches <= 18 * p
      invariant matches == 18 * p <==> forall q :: 0 <= q < p ==> cube.pieces[q].colors == originalColors[q]
    {
      var pieceMatches := 0;
      for f := 0 to 6
        invariant 0 <= pieceMatches <= 3 * f
        invariant pieceMatches == 3 * f <==> forall g :: 0 <= g < f ==> cube.pieces[p].colors[g] == originalColors[p][g]
      {
        ChannelMatchesIsEquality(cube.pieces[p].colors[f], originalColors[p][f]);
        pieceMatches := pieceMatches + ChannelMatches(cube.pieces[p].colors[f], originalColors[p][f]);
      }
      assert pieceMatches == 18 <==> cube.pieces[p].colors == originalColors[p];
      matches := matches + pieceMatches;
    }
  }

  /**
   * Selects the absolute face for a viewer-relative slot: 0 front, 1 up,
   * 2 right, 3 left, 4 down, 5 back; anything else is the front.
   */
  function AbsoluteFace(mapping: ViewFaceMapping, relativeFace: int): (r: int)
    ensures relativeFace == 0 ==> r == mapping.front
    ensures relativeFace == 1 ==> r == mapping.up
    ensures relativeFace == 2 ==> r == mapping.right
    ensures relativeFace == 3 ==> r == mapping.left
    ensures relativeFace == 4 ==> r == mapping.down
    ensures relativeFace == 5 ==> r == mapping.back
    ensures !(0 <= relativeFace <= 5) ==> r == mapping.front
  {
    match relativeFace
    case 0 => mapping.front
    case 1 => mapping.up
    case 2 => mapping.right
    case 3 => mapping.left
    case 4 => mapping.down
    case 5 => mapping.back
    case _ => mapping.front
  }

  /** A view mapping as the view code builds one: back, down and left are the opposites of front, up and right. */
  predicate ConsistentMapping(m: ViewFaceMapping) {
    IsFace(m.front) && IsFace(m.up) && IsFace(m.right)
    && m.back == OppositeFace(m.front) && m.down == OppositeFace(m.up) && m.left == OppositeFace(m.right)
  }

  /**
   * For a consistent mapping the relative slots pair up as opposites:
   * r and 5 - r name opposite faces.
   */
  lemma RelativeSlotsPairUp(m: ViewFaceMapping, r: int)
    requires ConsistentMapping(m) && 0 <= r <= 5
    ensures IsFace(AbsoluteFace(m, r))
    ensures AbsoluteFace(m, 5 - r) == OppositeFace(AbsoluteFace(m, r))
  {
    OppositeFaceInvolution(m.front);
    OppositeFaceInvolution(m.up);
    OppositeFaceInvolution(m.right);
  }

  /** Viewed straight on, each relative slot names the face of the same role. */
  lemma StraightViewMapping()
    ensures var m := ViewFaceMapping(FRONT, BACK, LEFT, RIGHT, UP, DOWN);
            ConsistentMapping(m)
            && AbsoluteFace(m, 0) == FRONT && AbsoluteFace(m, 1) == UP && AbsoluteFace(m, 2) == RIGHT
            && AbsoluteFace(m, 3) == LEFT && AbsoluteFace(m, 4) == DOWN && AbsoluteFace(m, 5) == BACK
  {
  }
}
