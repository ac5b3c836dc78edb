/** `get_chessboard_points` in calibration.py: the 3D object points of the
    inner corners of a planar chessboard, one row of `rows` points per
    column index. */
module Calibration {

  datatype Point3 = Point3(x: real, y: real, z: real)

  /** Python's `range(n)` has `max(n, 0)` elements. */
  function Count(n: int): nat
  {
    if n > 0 then n else 0
  }

  /** The points appended by the inner loop for column index `i`. */
  function Block(i: int, rows: int, dx: real, dy: real): (b: seq<Point3>)
    ensures |b| == Count(rows)
  {
    seq(Count(rows), j => Point3(j as real * dx, i as real * dy, 0.0))
  }

  /** The points appended for the first `n` column indices, in order. */
  function Grid(n: nat, rows: int, dx: real, dy: real): seq<Point3>
  {
    if n == 0 then [] else Grid(n - 1, rows, dx, dy) + Block(n - 1, rows, dx, dy)
  }

  /** The list that `get_chessboard_points((rows, cols), dx, dy)` returns. */
  function ChessboardPoints(rows: int, cols: int, dx: real, dy: real): seq<Point3>
  {
    Grid(Count(cols), rows, dx, dy)
  }

  lemma {:induction false} GridLength(n: nat, rows: int, dx: real, dy: real)
    ensures |Grid(n, rows, dx, dy)| == n * Count(rows)
  {
    if n > 0 {
      GridLength(n - 1, rows, dx, dy);
      assert (n - 1) * Count(rows) + Count(rows) == n * Count(rows);
    }
  }

  /** The result has exactly `rows * cols` points (none when either is not positive). */
  lemma ChessboardLength(rows: int, cols: int, dx: real, dy: real)
    ensures |ChessboardPoints(rows, cols, dx, dy)| == Count(rows) * Count(cols)
  {
    GridLength(Count(cols), rows, dx, dy);
  }

  lemma MulMonotone(a: nat, b: nat, r: nat)
    requires a <= b
    ensures a * r <= b * r
  {
  }

  lemma {:induction false} GridAt(n: nat, rows: int, dx: real, dy: real, i: nat, j: nat)
    requires i < n && j < Count(rows)
    ensures |Grid(n, rows, dx, dy)| == n * Count(rows)
    ensures i * Count(rows) + j < n * Count(rows)
    ensures Grid(n, rows, dx, dy)[i * Count(rows) + j] == Point3(j as real * dx, i as real * dy, 0.0)
  {
    var r := Count(rows);
    var k := i * r + j;
    GridLength(n, rows, dx, dy);
    GridLength(n - 1, rows, dx, dy);
    var front := Grid(n - 1, rows, dx, dy);
    assert Grid(n, rows, dx, dy) == front + Block(n - 1, rows, dx, dy);
    assert (i + 1) * r == i * r + r;
    assert n * r == (n - 1) * r + r;
    MulMonotone(i + 1, n, r);
    if i < n - 1 {
      MulMonotone(i + 1, n - 1, r);
      GridAt(n - 1, rows, dx, dy, i, j);
      assert k < |front|;
      assert Grid(n, rows, dx, dy)[k] == front[k];
    } else {
      assert k - |front| == j;
      assert Grid(n, rows, dx, dy)[k] == Block(n - 1, rows, dx, dy)[j];
    }
  }

  /** The point at index `i * rows + j` is `[j * dx, i * dy, 0]`. */
  lemma ChessboardAt(rows: int, cols: int, dx: real, dy: real, i: nat, j: nat)
    requires i < Count(cols) && j < Count(rows)
    ensures i * Count(rows) + j < |ChessboardPoints(rows, cols, dx, dy)|
    ensures ChessboardPoints(rows, cols, dx, dy)[i * Count(rows) + j] == Point3(j as real * dx, i as real * dy, 0.0)
  {
    GridAt(Count(cols), rows, dx, dy, i, j);
  }

  lemma {:induction false} GridFlat(n: nat, rows: int, dx: real, dy: real)
    ensures forall k :: 0 <= k < |Grid(n, rows, dx, dy)| ==> Grid(n, rows, dx, dy)[k].z == 0.0
  {
    if n > 0 {
      GridFlat(n - 1, rows, dx, dy);
      var front: seq<Point3>, block: seq<Point3> := Grid(n - 1, rows, dx, dy), Block(n - 1, rows, dx, dy);
      assert Grid(n, rows, dx, dy) == front + block;
      forall k | 0 <= k < |front + block|
        ensures (front + block)[k].z == 0.0
      {
        if k >= |front| {
          assert (front + block)[k] == block[k - |front|];
        }
      }
    }
  }

  /** Every point lies in the board's plane z = 0. */
  lemma ChessboardFlat(rows: int, cols: int, dx: real, dy: real)
    ensures forall k :: 0 <= k < |ChessboardPoints(rows, cols, dx, dy)| ==> ChessboardPoints(rows, cols, dx, dy)[k].z == 0.0
  {
    GridFlat(Count(cols), rows, dx, dy);
  }

  /** Within one block of `rows` points, y stays the same and x grows by `dx`;
      the next block starts again at x = 0 with y larger by `dy`. */
  lemma ChessboardSteps(rows: int, cols: int, dx: real, dy: real, i: nat, j: nat)
    requires i < Count(cols) && j < Count(rows)
    ensures var p := ChessboardPoints(rows, cols, dx, dy);
      && i * Count(rows) + j < |p|
      && (j == 0 ==> p[i * Count(rows)].x == 0.0)
      && (j + 1 < Count(rows) ==>
            i * Count(rows) + j + 1 < |p|
            && p[i * Count(rows) + j + 1].x == p[i * Count(rows) + j].x + dx
            && p[i * Count(rows) + j + 1].y == p[i * Count(rows) + j].y)
      && (i + 1 < Count(cols) ==>
            (i + 1) * Count(rows) + j < |p|
            && p[(i + 1) * Count(rows) + j].y == p[i * Count(rows) + j].y + dy
            && p[(i + 1) * Count(rows) + j].x == p[i * Count(rows) + j].x)
  {
    ChessboardAt(rows, cols, dx, dy, i, j);
    if j + 1 < Count(rows) {
      ChessboardAt(rows, cols, dx, dy, i, j + 1);
      assert (j + 1) as real * dx == j as real * dx + dx;
    }
    if i + 1 < Count(cols) {
      ChessboardAt(rows, cols, dx, dy, i + 1, j);
      assert (i + 1) as real * dy == i as real * dy + dy;
    }
  }

  /** `get_chessboard_points`: the nested loops over `cols` and `rows` that
      append `[j * dx, i * dy, 0]`. */
  method GetChessboardPoints(rows: int, cols: int, dx: real, dy: real) returns (objectPoints: seq<Point3>)
    ensures objectPoints == ChessboardPoints(rows, cols, dx, dy)
    ensures |objectPoints| == Count(rows) * Count(cols)
  {
    objectPoints := [];
    var i := 0;
    while i < cols
      invariant 0 <= i <= Count(cols)
      invariant objectPoints == Grid(i, rows, dx, dy)
    {
      var j := 0;
      while j < rows
        invariant 0 <= j <= Count(rows)
        invariant objectPoints == Grid(i, rows, dx, dy) + Block(i, rows, dx, dy)[..j]
      {
        var block := Block(i, rows, dx, dy);
        assert block[j] == Point3(j as real * dx, i as real * dy, 0.0);
        assert block[..j + 1] == block[..j] + [block[j]];
        objectPoints := objectPoints + [Point3(j as real * dx, i as real * dy, 0.0)];
        j := j + 1;
      }
      assert Block(i, rows, dx, dy)[..j] == Block(i, rows, dx, dy);
      i := i + 1;
    }
    ChessboardLength(rows, cols, dx, dy);
  }
}
