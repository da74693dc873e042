/** The value types of the game (types.ts) and small facts about them. */
module Types {
  import opened Constants

  /** A cell of the field; equality is coordinate equality. */
  datatype Point = Point(x: int, y: int)

  datatype Direction = Up | Down | Left | Right

  datatype Option<T> = None | Some(value: T)

  datatype GameStatus = Start | Playing | GameOver | Won | Celebrating | GameOverMan

  predicate InGrid(p: Point) {
    0 <= p.x < GRID_SIZE && 0 <= p.y < GRID_SIZE
  }

  /** The direction that points the other way. */
  function Opposite(d: Direction): (r: Direction)
    ensures r != d
  {
    match d
    case Up => Down
    case Down => Up
    case Left => Right
    case Right => Left
  }

  /** The neighbour of `p` one cell in direction `d` (y grows downwards). */
  function Move(p: Point, d: Direction): (r: Point)
    ensures Manhattan(p, r) == 1
  {
    match d
    case Up => Point(p.x, p.y - 1)
    case Down => Point(p.x, p.y + 1)
    case Left => Point(p.x - 1, p.y)
    case Right => Point(p.x + 1, p.y)
  }

  function Abs(n: int): (r: int)
    ensures r >= 0 && (r == n || r == -n)
  {
    if n < 0 then -n else n
  }

  /** Math.sign on integers. */
  function Sign(n: int): (r: int)
    ensures -1 <= r <= 1 && (r == 0 <==> n == 0) && (r > 0 <==> n > 0)
  {
    if n > 0 then 1 else if n < 0 then -1 else 0
  }

  function Max(a: int, b: int): (r: int)
    ensures r >= a && r >= b && (r == a || r == b)
  {
    if a >= b then a else b
  }

  /** Number of unit steps between two cells along the axes. */
  function Manhattan(p: Point, q: Point): int {
    Abs(q.x - p.x) + Abs(q.y - p.y)
  }

  /** Squared Euclidean distance: `sqrt(d) <= 1.5` over integers is exactly `d <= 2`. */
  function SqDist(p: Point, q: Point): int {
    (q.x - p.x) * (q.x - p.x) + (q.y - p.y) * (q.y - p.y)
  }

  /** No cell of `s` occurs twice. */
  predicate Distinct(s: seq<Point>) {
    forall i, j :: 0 <= i < j < |s| ==> s[i] != s[j]
  }

  lemma SquareAtLeast(n: int, k: nat)
    requires Abs(n) >= k
    ensures n * n >= k * k
  {
    if n >= 0 {
      assert n * n >= k * n >= k * k;
    } else {
      assert n * n == (-n) * (-n) >= k * (-n) >= k * k;
    }
  }

  /** Over integers, `sqrt(dx*dx + dy*dy) <= 1.5` means both deltas are at most 1 in size. */
  lemma WithinRadius(dx: int, dy: int)
    ensures (Abs(dx) <= 1 && Abs(dy) <= 1) <==> dx * dx + dy * dy <= 2
  {
    if Abs(dx) >= 2 {
      assert dx * dx >= 4 by { SquareAtLeast(dx, 2); }
      assert dy * dy >= 0;
    } else if Abs(dy) >= 2 {
      assert dy * dy >= 4 by { SquareAtLeast(dy, 2); }
      assert dx * dx >= 0;
    } else {
      assert -1 <= dx <= 1 && -1 <= dy <= 1;
    }
  }
}
