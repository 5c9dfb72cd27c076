/**
 * Shared vocabulary of the cube simulator: face codes, the colour palette,
 * grid positions, pieces, queued moves and the fixed constants.
 */
module RubikTypes {

  // Face codes. The program stores faces as plain integers (an enum that a
  // cast can push out of range), so the model keeps them as `int` and checks
  // membership with IsFace where the program does.
  const FRONT: int := 0
  const BACK: int := 1
  const LEFT: int := 2
  const RIGHT: int := 3
  const UP: int := 4
  const DOWN: int := 5

  predicate IsFace(face: int) {
    FRONT <= face <= DOWN
  }

  /** Capacity of the circular move queue. */
  const MoveQueueCapacity: int := 20

  /** Animation speed in degrees per second and the angle of one quarter turn. */
  const RotationSpeed: real := 360.0
  const QuarterTurn: real := 90.0

  /**
   * The seven palette colours. The program stores each sticker as an RGB
   * float triple, but only ever copies these constants around.
   */
  datatype Color = White | Yellow | Red | Orange | Green | Blue | Black

  /** The RGB triple of each palette constant. */
  function Rgb(c: Color): (real, real, real) {
    match c
    case White => (1.0, 1.0, 1.0)
    case Yellow => (1.0, 1.0, 0.0)
    case Red => (1.0, 0.0, 0.0)
    case Orange => (1.0, 0.5, 0.0)
    case Green => (0.0, 1.0, 0.0)
    case Blue => (0.0, 0.0, 1.0)
    case Black => (0.1, 0.1, 0.1)
  }

  function Abs(x: real): real {
    if x < 0.0 then -x else x
  }

  /** Manhattan distance between the RGB triples of two stickers. */
  function ColorDistance(a: Color, b: Color): real {
    var (r1, g1, b1) := Rgb(a);
    var (r2, g2, b2) := Rgb(b);
    Abs(r1 - r2) + Abs(g1 - g2) + Abs(b1 - b2)
  }

  /** Tolerance used by the solved check when comparing two stickers. */
  const ColorTolerance: real := 0.05

  /**
   * Any two different palette colours are further apart than the tolerance,
   * so the tolerant comparison of the solved check is colour equality.
   */
  lemma ToleranceIsEquality(a: Color, b: Color)
    ensures ColorDistance(a, b) > ColorTolerance <==> a != b
  {
  }

  /** A grid position; each coordinate of a real piece lies in {-1, 0, 1}. */
  datatype Pos = Pos(x: int, y: int, z: int)

  predicate InGrid(p: Pos) {
    -1 <= p.x <= 1 && -1 <= p.y <= 1 && -1 <= p.z <= 1
  }

  /**
   * One of the 27 sub-cubes: its grid position and its six stickers, indexed
   * by face code (FRONT, BACK, LEFT, RIGHT, UP, DOWN).
   */
  datatype Piece = Piece(position: Pos, colors: seq<Color>)

  /** A queued turn request: face code, direction and the scramble flag. */
  datatype Move = Move(face: int, clockwise: bool, scramble: bool)

  /** Which absolute face currently plays each viewer-relative role. */
  datatype ViewFaceMapping = ViewFaceMapping(front: int, back: int, left: int, right: int, up: int, down: int)

  datatype TimerState = Idle | Ready | Running | Stopped
}
