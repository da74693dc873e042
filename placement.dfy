/**
 * Random placement of an item on a free cell (getRandomPoint, App.tsx:9-18).
 *
 * Math.random is modelled as a stream `rng`: `rng(k)` is the k-th cell the
 * do-while loop would draw (both coordinates already scaled to the grid with
 * Math.floor). A caller keeps its own position in the stream.
 */
module Placement {
  import opened Constants
  import opened Types

  /** Cell `c` is drawn again at index `n` or later. */
  ghost predicate Recurs(rng: nat -> Point, c: Point, n: nat) {
    exists m: nat :: n <= m && rng(m) == c
  }

  /**
   * What the source relies on from Math.random: every draw is a grid cell, and
   * every grid cell keeps being drawn (otherwise rejection sampling may never stop).
   */
  ghost predicate RandomSource(rng: nat -> Point) {
    && (forall k: nat :: InGrid(rng(k)))
    && (forall c: Point, n: nat :: InGrid(c) ==> Recurs(rng, c, n))
  }

  /** `p` is the first draw at index `from` or later that avoids `exclude`, and `next` is the index after it. */
  ghost predicate FirstFreeDraw(rng: nat -> Point, from: nat, next: nat, exclude: seq<Point>, p: Point) {
    && from < next
    && p == rng(next - 1)
    && p !in exclude
    && forall j: nat :: from <= j < next - 1 ==> rng(j) in exclude
  }

  /**
   * The do-while loop of getRandomPoint: draw cells from the stream, starting at
   * index `from`, until one is not in `exclude`. It stops exactly when the stream
   * ahead holds a free cell, which the second requires states.
   */
  method GetRandomPoint(rng: nat -> Point, from: nat, exclude: seq<Point>) returns (p: Point, next: nat)
    requires forall k: nat :: from <= k ==> InGrid(rng(k))
    requires exists m: nat :: from <= m && rng(m) !in exclude
    ensures from < next && p == rng(next - 1)
    ensures InGrid(p) && p !in exclude
    ensures forall j: nat :: from <= j < next - 1 ==> rng(j) in exclude
  {
    ghost var w: nat :| from <= w && rng(w) !in exclude;
    p := rng(from);
    next := from + 1;
    while p in exclude
      invariant from < next <= w + 1
      invariant p == rng(next - 1)
      invariant forall j: nat :: from <= j < next - 1 ==> rng(j) in exclude
      decreases w + 1 - next
    {
      p := rng(next);
      next := next + 1;
    }
  }

  /** The cell with row-major index `i`. */
  function CellAt(i: nat): Point {
    Point(i % GRID_SIZE, i / GRID_SIZE)
  }

  ghost function FirstCells(n: nat): set<Point> {
    set i: nat | i < n :: CellAt(i)
  }

  lemma {:induction false} FirstCellsCard(n: nat)
    requires n <= GRID_CELLS
    ensures |FirstCells(n)| == n
    ensures forall c :: c in FirstCells(n) ==> InGrid(c)
  {
    if n > 0 {
      FirstCellsCard(n - 1);
      assert FirstCells(n) == FirstCells(n - 1) + {CellAt(n - 1)};
      assert CellAt(n - 1) !in FirstCells(n - 1) by {
        forall i: nat | i < n - 1 ensures CellAt(i) != CellAt(n - 1) {
          assert i == GRID_SIZE * (i / GRID_SIZE) + i % GRID_SIZE;
        }
      }
    }
  }

  lemma {:induction false} SeqSetCard(s: seq<Point>)
    ensures |set q | q in s| <= |s|
  {
    if s != [] {
      var init := s[..|s| - 1];
      SeqSetCard(init);
      assert (set q | q in s) == (set q | q in init) + {s[|s| - 1]};
    }
  }

  lemma SubsetCard(a: set<Point>, b: set<Point>)
    requires a <= b
    ensures |a| <= |b|
  {
    assert b == a + (b - a);
    assert a * (b - a) == {};
  }

  /** A list of fewer cells than the grid holds leaves some grid cell free. */
  lemma FreeCellExists(exclude: seq<Point>)
    requires |exclude| < GRID_CELLS
    ensures exists c :: InGrid(c) && c !in exclude
  {
    FirstCellsCard(GRID_CELLS);
    SeqSetCard(exclude);
    var taken := set q | q in exclude;
    if FirstCells(GRID_CELLS) <= taken {
      SubsetCard(FirstCells(GRID_CELLS), taken);
      assert false;
    }
    var c :| c in FirstCells(GRID_CELLS) && c !in taken;
    assert InGrid(c) && c !in exclude;
  }

  /** From a random source, any cursor and an exclusion list shorter than the grid, the loop of GetRandomPoint terminates. */
  lemma FreeDrawAhead(rng: nat -> Point, from: nat, exclude: seq<Point>)
    requires RandomSource(rng)
    requires |exclude| < GRID_CELLS
    ensures exists m: nat :: from <= m && rng(m) !in exclude
  {
    FreeCellExists(exclude);
    var c :| InGrid(c) && c !in exclude;
    assert Recurs(rng, c, from);
    var m: nat :| from <= m && rng(m) == c;
    assert rng(m) !in exclude;
  }

  /** Conversely, when `exclude` covers the field, no draw of the stream escapes it: the loop of GetRandomPoint never ends. */
  lemma CoveredFieldHasNoFreeDraw(rng: nat -> Point, from: nat, exclude: seq<Point>)
    requires RandomSource(rng)
    requires forall c :: InGrid(c) ==> c in exclude
    ensures !exists m: nat :: from <= m && rng(m) !in exclude
  {
    forall m: nat | from <= m ensures rng(m) in exclude {
      assert InGrid(rng(m));
    }
  }
}
