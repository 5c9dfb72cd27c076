/**
 * The cube state: where each of the 27 pieces lives in the piece array,
 * which pieces make up each face, the solved start state and the solved check.
 */
module RubikState {
  import opened RubikTypes

  /**
   * Array index of the piece at grid point (i, j, k): layer z = 1 first,
   * then z = 0, then z = -1; inside a layer rows by y, columns by x.
   */
  function PositionToIndex(i: int, j: int, k: int): (r: int)
    ensures InGrid(Pos(i, j, k)) ==> 0 <= r < 27
    ensures InGrid(Pos(i, j, k)) ==> (k == 1 <==> r < 9) && (k == -1 <==> 18 <= r)
  {
    var kOffset := if k == 1 then 0 else if k == 0 then 9 else 18;
    kOffset + (j + 1) * 3 + (i + 1)
  }

  function IndexOf(p: Pos): int {
    PositionToIndex(p.x, p.y, p.z)
  }

  /** The grid point whose piece sits at array index n (inverse of PositionToIndex). */
  function IndexPos(n: int): (p: Pos)
    requires 0 <= n < 27
    ensures InGrid(p) && IndexOf(p) == n
  {
    Pos(n % 3 - 1, (n / 3) % 3 - 1, 1 - n / 9)
  }

  /** PositionToIndex is a bijection from {-1,0,1}^3 onto 0..26. */
  lemma PositionToIndexBijective(p: Pos, q: Pos)
    requires InGrid(p) && InGrid(q)
    ensures 0 <= IndexOf(p) < 27 && IndexPos(IndexOf(p)) == p
    ensures IndexOf(p) == IndexOf(q) ==> p == q
  {
  }

  /** Lookup key of a grid point, used to match positions without comparing coordinates. */
  function EncodePositionKey(x: int, y: int, z: int): (r: int)
    ensures InGrid(Pos(x, y, z)) ==> 0 <= r < 27
  {
    (x + 1) * 9 + (y + 1) * 3 + (z + 1)
  }

  function KeyOf(p: Pos): int {
    EncodePositionKey(p.x, p.y, p.z)
  }

  /** Different grid points have different keys. */
  lemma EncodePositionKeyInjective(p: Pos, q: Pos)
    requires InGrid(p) && InGrid(q) && KeyOf(p) == KeyOf(q)
    ensures p == q
  {
  }

  /** The plane of a face: FRONT z = 1, BACK z = -1, LEFT x = -1, RIGHT x = 1, UP y = 1, DOWN y = -1. */
  predicate OnFace(face: int, p: Pos) {
    if face == FRONT then p.z == 1
    else if face == BACK then p.z == -1
    else if face == LEFT then p.x == -1
    else if face == RIGHT then p.x == 1
    else if face == UP then p.y == 1
    else if face == DOWN then p.y == -1
    else false
  }

  /** Outward unit normal of a face; it is also the position of that face's centre piece. */
  function FaceNormal(face: int): (n: Pos)
    requires IsFace(face)
    ensures InGrid(n) && OnFace(face, n)
  {
    if face == FRONT then Pos(0, 0, 1)
    else if face == BACK then Pos(0, 0, -1)
    else if face == LEFT then Pos(-1, 0, 0)
    else if face == RIGHT then Pos(1, 0, 0)
    else if face == UP then Pos(0, 1, 0)
    else Pos(0, -1, 0)
  }

  /**
   * Grid point visited at step s of the face scan: FRONT and BACK go row by
   * row in y and left to right in x; LEFT and RIGHT row by row in y and from
   * front to back in z; UP and DOWN from front to back in z and left to right in x.
   */
  function FaceSlotPos(face: int, s: int): (p: Pos)
    requires IsFace(face) && 0 <= s < 9
    ensures InGrid(p) && OnFace(face, p)
  {
    var a := s / 3;
    var b := s % 3;
    if face == FRONT then Pos(b - 1, a - 1, 1)
    else if face == BACK then Pos(b - 1, a - 1, -1)
    else if face == LEFT then Pos(-1, a - 1, 1 - b)
    else if face == RIGHT then Pos(1, a - 1, 1 - b)
    else if face == UP then Pos(b - 1, 1, 1 - a)
    else Pos(b - 1, -1, 1 - a)
  }

  /** Scan step at which a grid point on the face's plane is visited. */
  function FaceSlotOf(face: int, p: Pos): (s: int)
    requires IsFace(face)
    ensures InGrid(p) && OnFace(face, p) ==> 0 <= s < 9 && FaceSlotPos(face, s) == p
  {
    if face == FRONT || face == BACK then (p.y + 1) * 3 + (p.x + 1)
    else if face == LEFT || face == RIGHT then (p.y + 1) * 3 + (1 - p.z)
    else (1 - p.z) * 3 + (p.x + 1)
  }

  lemma FaceSlotRoundTrip(face: int, s: int)
    requires IsFace(face) && 0 <= s < 9
    ensures FaceSlotOf(face, FaceSlotPos(face, s)) == s
  {
  }

  /** The nine piece indices of a face, in scan order. */
  function FaceIndices(face: int): (r: seq<int>)
    requires IsFace(face)
    ensures |r| == 9
    ensures forall s :: 0 <= s < 9 ==> 0 <= r[s] < 27
  {
    seq(9, s requires 0 <= s < 9 => IndexOf(FaceSlotPos(face, s)))
  }

  /**
   * The face scan yields nine distinct pieces, each on the face's plane,
   * every piece of that plane appears, and slot 4 is the face's centre piece
   * (both free coordinates 0).
   */
  lemma FaceIndicesFacts(face: int)
    requires IsFace(face)
    ensures forall s :: 0 <= s < 9 ==> 0 <= FaceIndices(face)[s] < 27
    ensures forall s :: 0 <= s < 9 ==> OnFace(face, IndexPos(FaceIndices(face)[s]))
    ensures forall s, t :: 0 <= s < t < 9 ==> FaceIndices(face)[s] != FaceIndices(face)[t]
    ensures forall n :: 0 <= n < 27 && OnFace(face, IndexPos(n)) ==> n in FaceIndices(face)
    ensures IndexPos(FaceIndices(face)[4]) == FaceNormal(face)
  {
    forall s | 0 <= s < 9
      ensures 0 <= FaceIndices(face)[s] < 27 && IndexPos(FaceIndices(face)[s]) == FaceSlotPos(face, s)
    {
      PositionToIndexBijective(FaceSlotPos(face, s), FaceSlotPos(face, s));
    }
    forall s, t | 0 <= s < t < 9
      ensures FaceIndices(face)[s] != FaceIndices(face)[t]
    {
      FaceSlotRoundTrip(face, s);
      FaceSlotRoundTrip(face, t);
    }
    forall n | 0 <= n < 27 && OnFace(face, IndexPos(n))
      ensures n in FaceIndices(face)
    {
      var s := FaceSlotOf(face, IndexPos(n));
      assert FaceIndices(face)[s] == n;
    }
  }

  /** A piece index is listed for a face exactly when the piece lies on that face's plane. */
  lemma ListedIffOnFace(face: int, n: int)
    requires IsFace(face)
    ensures n in FaceIndices(face) <==> 0 <= n < 27 && OnFace(face, IndexPos(n))
  {
    FaceIndicesFacts(face);
  }

  /** Scan-order fill of a caller's nine-slot array with the face's piece indices. */
  method GetFaceIndices(face: int, indices: array<int>)
    requires IsFace(face) && indices.Length == 9
    modifies indices
    ensures indices[..] == FaceIndices(face)
  {
    if face == FRONT || face == BACK {
      ScanFrontOrBack(face, indices);
    } else if face == LEFT || face == RIGHT {
      ScanLeftOrRight(face, indices);
    } else {
      ScanUpOrDown(face, indices);
    }
  }

  /** FRONT or BACK: the plane z = 1 or z = -1, rows y = -1..1, each row x = -1..1. */
  method ScanFrontOrBack(face: int, indices: array<int>)
    requires (face == FRONT || face == BACK) && indices.Length == 9
    modifies indices
    ensures indices[..] == FaceIndices(face)
  {
    var idx := 0;
    var k := if face == FRONT then 1 else -1;
    var j := -1;
    while j <= 1
      invariant -1 <= j <= 2 && idx == 3 * (j + 1)
      invariant forall s :: 0 <= s < idx ==> indices[s] == FaceIndices(face)[s]
    {
      var i := -1;
      while i <= 1
        invariant -1 <= i <= 2 && idx == 3 * (j + 1) + (i + 1)
        invariant forall s :: 0 <= s < idx ==> indices[s] == FaceIndices(face)[s]
      {
        assert FaceSlotPos(face, idx) == Pos(i, j, k);
        indices[idx] := PositionToIndex(i, j, k);
        idx := idx + 1;
        i := i + 1;
      }
      j := j + 1;
    }
  }

  /** LEFT or RIGHT: the plane x = -1 or x = 1, rows y = -1..1, each row z = 1 down to -1. */
  method ScanLeftOrRight(face: int, indices: array<int>)
    requires (face == LEFT || face == RIGHT) && indices.Length == 9
    modifies indices
    ensures indices[..] == FaceIndices(face)
  {
    var idx := 0;
    var i := if face == LEFT then -1 else 1;
    var j := -1;
    while j <= 1
      invariant -1 <= j <= 2 && idx == 3 * (j + 1)
      invariant forall s :: 0 <= s < idx ==> indices[s] == FaceIndices(face)[s]
    {
      var k := 1;
      while k >= -1
        invariant -2 <= k <= 1 && idx == 3 * (j + 1) + (1 - k)
        invariant forall s :: 0 <= s < idx ==> indices[s] == FaceIndices(face)[s]
      {
        assert FaceSlotPos(face, idx) == Pos(i, j, k);
        indices[idx] := PositionToIndex(i, j, k);
        idx := idx + 1;
        k := k - 1;
      }
      j := j + 1;
    }
  }

  /** UP or DOWN: the plane y = 1 or y = -1, rows z = 1 down to -1, each row x = -1..1. */
  method ScanUpOrDown(face: int, indices: array<int>)
    requires (face == UP || face == DOWN) && indices.Length == 9
    modifies indices
    ensures indices[..] == FaceIndices(face)
  {
    var idx := 0;
    var j := if face == UP then 1 else -1;
    var k := 1;
    while k >= -1
      invariant -2 <= k <= 1 && idx == 3 * (1 - k)
      invariant forall s :: 0 <= s < idx ==> indices[s] == FaceIndices(face)[s]
    {
      var i := -1;
      while i <= 1
        invariant -1 <= i <= 2 && idx == 3 * (1 - k) + (i + 1)
        invariant forall s :: 0 <= s < idx ==> indices[s] == FaceIndices(face)[s]
      {
        assert FaceSlotPos(face, idx) == Pos(i, j, k);
        indices[idx] := PositionToIndex(i, j, k);
        idx := idx + 1;
        i := i + 1;
      }
      k := k - 1;
    }
  }

  /** Every piece has six stickers. */
  predicate WellFormed(ps: seq<Piece>) {
    |ps| == 27 && forall n :: 0 <= n < 27 ==> |ps[n].colors| == 6
  }

  /** Every piece sits at the grid point its index stands for. */
  predicate Placed(ps: seq<Piece>) {
    |ps| == 27 && forall n :: 0 <= n < 27 ==> ps[n].position == IndexPos(n)
  }

  /** The sticker facing `face` on the piece at scan step s of that face. */
  function FaceSticker(ps: seq<Piece>, face: int, s: int): Color
    requires WellFormed(ps) && IsFace(face) && 0 <= s < 9
  {
    ps[FaceIndices(face)[s]].colors[face]
  }

  /** Solved: on every face, all nine stickers equal the sticker of the face's centre piece. */
  predicate Solved(ps: seq<Piece>)
    requires WellFormed(ps)
  {
    forall face, s :: 0 <= face < 6 && 0 <= s < 9 ==> FaceSticker(ps, face, s) == FaceSticker(ps, face, 4)
  }

  /** Colour painted on a face in the solved state. */
  function FaceColor(face: int): Color
    requires IsFace(face)
  {
    if face == FRONT then Red
    else if face == BACK then Orange
    else if face == LEFT then Green
    else if face == RIGHT then Blue
    else if face == UP then White
    else Yellow
  }

  /** Stickers of a piece in the solved state, painted face by face. */
  function InitialColors(p: Pos): seq<Color> {
    [ if p.z == 1 then Red else Black,
      if p.z == -1 then Orange else Black,
      if p.x == -1 then Green else Black,
      if p.x == 1 then Blue else Black,
      if p.y == 1 then White else Black,
      if p.y == -1 then Yellow else Black ]
  }

  /** The 27 pieces of the solved cube. */
  function InitialPieces(): (ps: seq<Piece>)
    ensures WellFormed(ps) && Placed(ps)
  {
    seq(27, n requires 0 <= n < 27 => Piece(IndexPos(n), InitialColors(IndexPos(n))))
  }

  /**
   * In the solved state a sticker carries its face's colour exactly when the
   * piece lies on that face, and is black (hidden) otherwise; the six face
   * colours are pairwise different and none is black.
   */
  lemma InitialStickers(n: int, face: int)
    requires 0 <= n < 27 && IsFace(face)
    ensures InitialPieces()[n].colors[face] == if OnFace(face, IndexPos(n)) then FaceColor(face) else Black
    ensures FaceColor(face) != Black
    ensures forall g :: IsFace(g) && g != face ==> FaceColor(g) != FaceColor(face)
  {
  }

  /** The start state is solved. */
  lemma InitialIsSolved()
    ensures Solved(InitialPieces())
  {
    var ps := InitialPieces();
    forall face, s | IsFace(face) && 0 <= s < 9
      ensures FaceSticker(ps, face, s) == FaceSticker(ps, face, 4)
    {
      FaceIndicesFacts(face);
      InitialStickers(FaceIndices(face)[s], face);
      InitialStickers(FaceIndices(face)[4], face);
    }
  }

  /** The stickers of the piece at (i, j, k) in the solved state: all black, then each outward face painted. */
  method PaintColors(i: int, j: int, k: int) returns (colors: seq<Color>)
    ensures colors == InitialColors(Pos(i, j, k))
  {
    colors := [Black, Black, Black, Black, Black, Black];
    if k == 1 { colors := colors[FRONT := Red]; }
    if k == -1 { colors := colors[BACK := Orange]; }
    if i == -1 { colors := colors[LEFT := Green]; }
    if i == 1 { colors := colors[RIGHT := Blue]; }
    if j == 1 { colors := colors[UP := White]; }
    if j == -1 { colors := colors[DOWN := Yellow]; }
  }

  /** The 27-piece array of the cube; positions are written once and never change. */
  class Cube {
    const pieces: array<Piece>

    ghost predicate Valid()
      reads pieces
    {
      pieces.Length == 27 && WellFormed(pieces[..]) && Placed(pieces[..])
    }

    /** The cube as created at start-up: allocated, then initialised to the solved state. */
    constructor ()
      ensures Valid() && fresh(pieces)
      ensures pieces[..] == InitialPieces()
    {
      pieces := new Piece[27](_ => Piece(Pos(0, 0, 0), []));
      new;
      Init();
    }

    /**
     * Writes the solved state: visits z = 1, 0, -1, then y = -1, 0, 1, then
     * x = -1, 0, 1, filling consecutive array slots; black everywhere, then
     * each outward sticker in its face colour.
     */
    method Init()
      requires pieces.Length == 27
      modifies pieces
      ensures Valid()
      ensures pieces[..] == InitialPieces()
      ensures forall p :: InGrid(p) ==> pieces[IndexOf(p)].position == p
    {
      var index := 0;
      var k := 1;
      while k >= -1
        invariant -2 <= k <= 1 && index == 9 * (1 - k)
        invariant forall n :: 0 <= n < index ==> pieces[n] == InitialPieces()[n]
      {
        var j := -1;
        while j <= 1
          invariant -1 <= j <= 2 && index == 9 * (1 - k) + 3 * (j + 1)
          invariant forall n :: 0 <= n < index ==> pieces[n] == InitialPieces()[n]
        {
          FillRow(j, k, index);
          index := index + 3;
          j := j + 1;
        }
        k := k - 1;
      }
      assert pieces[..] == InitialPieces();
      forall p | InGrid(p)
        ensures pieces[IndexOf(p)].position == p
      {
        PositionToIndexBijective(p, p);
      }
    }

    /** One row of the solved-state fill: x = -1, 0, 1 at height j and depth k, black then the outward faces painted. */
    method FillRow(j: int, k: int, index: int)
      requires pieces.Length == 27 && -1 <= j <= 1 && -1 <= k <= 1 && index == 9 * (1 - k) + 3 * (j + 1)
      requires forall n :: 0 <= n < index ==> pieces[n] == InitialPieces()[n]
      modifies pieces
      ensures forall n :: 0 <= n < index + 3 ==> pieces[n] == InitialPieces()[n]
    {
      var idx := index;
      var i := -1;
      while i <= 1
        invariant -1 <= i <= 2 && idx == index + (i + 1)
        invariant forall n :: 0 <= n < idx ==> pieces[n] == InitialPieces()[n]
      {
        var colors := PaintColors(i, j, k);
        assert IndexPos(idx) == Pos(i, j, k);
        pieces[idx] := Piece(Pos(i, j, k), colors);
        idx := idx + 1;
        i := i + 1;
      }
    }

    /**
     * Compares, face by face, every sticker with the centre piece's sticker
     * under the colour tolerance; false at the first mismatch.
     */
    method IsSolved() returns (solved: bool)
      requires Valid()
      ensures solved == Solved(pieces[..])
    {
      var indices := new int[9];
      var face := 0;
      while face < 6
        invariant 0 <= face <= 6
        invariant forall f, s :: 0 <= f < face && 0 <= s < 9 ==>
                    FaceSticker(pieces[..], f, s) == FaceSticker(pieces[..], f, 4)
      {
        GetFaceIndices(face, indices);
        var uniform := FaceIsUniform(face, indices);
        if !uniform {
          return false;
        }
        face := face + 1;
      }
      return true;
    }

    /** Whether all nine stickers of one face match its centre sticker under the colour tolerance. */
    method FaceIsUniform(face: int, indices: array<int>) returns (uniform: bool)
      requires Valid() && IsFace(face) && indices.Length == 9 && indices[..] == FaceIndices(face)
      ensures uniform <==> forall s :: 0 <= s < 9 ==> FaceSticker(pieces[..], face, s) == FaceSticker(pieces[..], face, 4)
    {
      var centerColor := pieces[indices[4]].colors[face];
      assert centerColor == FaceSticker(pieces[..], face, 4);
      for i := 0 to 9
        invariant forall s :: 0 <= s < i ==> FaceSticker(pieces[..], face, s) == centerColor
      {
        var sticker := pieces[indices[i]].colors[face];
        assert sticker == FaceSticker(pieces[..], face, i);
        var diff := ColorDistance(sticker, centerColor);
        ToleranceIsEquality(sticker, centerColor);
        if diff > ColorTolerance {
          return false;
        }
      }
      return true;
    }
  }
}
