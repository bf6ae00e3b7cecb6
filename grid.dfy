/** The fixed geometry of the board: a 10 x 10 grid, y growing upwards, with a 2 x 2 pen
    in the top-right corner. */
module Grid {
  const Width: int := 10
  const Height: int := 10

  /** The dog's facing: 0 = north (up), 1 = east, 2 = south, 3 = west. */
  type Heading = d: int | 0 <= d < 4

  datatype Cell = Cell(x: int, y: int)
  datatype Vec = Vec(dx: int, dy: int)

  predicate InGrid(x: int, y: int) {
    0 <= x < Width && 0 <= y < Height
  }

  predicate IsPen(x: int, y: int) {
    8 <= x <= 9 && 8 <= y <= 9
  }

  /** A cell a cow may rest on: inside the grid and outside the pen. */
  predicate OnBoard(x: int, y: int) {
    InGrid(x, y) && !IsPen(x, y)
  }

  /** The `directions` table indexed by a heading. */
  function DirVec(h: Heading): (v: Vec)
    ensures IsUnit(v)
  {
    match h
    case 0 => Vec(0, 1)
    case 1 => Vec(1, 0)
    case 2 => Vec(0, -1)
    case 3 => Vec(-1, 0)
  }

  /** One orthogonal step. */
  predicate IsUnit(v: Vec) {
    (v.dx == 0 && (v.dy == 1 || v.dy == -1)) || (v.dy == 0 && (v.dx == 1 || v.dx == -1))
  }

  /** A turn by `quarter` clockwise quarter turns: `(direction + quarter) % 4`. */
  function Turn(h: Heading, quarter: nat): Heading {
    (h + quarter) % 4
  }

  function Abs(n: int): nat {
    if n < 0 then -n else n
  }

  function Manhattan(x1: int, y1: int, x2: int, y2: int): nat {
    Abs(x1 - x2) + Abs(y1 - y2)
  }

  function Chebyshev(x1: int, y1: int, x2: int, y2: int): nat {
    if Abs(x1 - x2) < Abs(y1 - y2) then Abs(y1 - y2) else Abs(x1 - x2)
  }

  /** Turning left (three quarter turns) and right (one) undo each other; so does turning
      around twice. */
  lemma TurnsCancel(h: Heading)
    ensures Turn(Turn(h, 3), 1) == h && Turn(Turn(h, 1), 3) == h
    ensures Turn(Turn(h, 2), 2) == h
  {
    if h == 0 {
    } else if h == 1 {
    } else if h == 2 {
    } else {
    }
  }
}
