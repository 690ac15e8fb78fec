/** The rectangular grid `Matrix<T>` and the Hadamard mixing matrix built on it. */
module Matrices {
  import opened CppArith

  /** `n` copies of `v`, as `std::vector<T>(n, v)` builds it. */
  function Repeat<T>(n: nat, v: T): (r: seq<T>)
    ensures |r| == n
    ensures forall k :: 0 <= k < n ==> r[k] == v
  {
    seq(n, _ => v)
  }

  /** `g` holds `rows` rows of `cols` cells each. */
  ghost predicate IsGrid<T>(g: seq<seq<T>>, rows: nat, cols: nat)
  {
    |g| == rows && forall i :: 0 <= i < rows ==> |g[i]| == cols
  }

  /** A `rows` by `cols` grid whose every cell is `v`. */
  function Grid<T>(rows: nat, cols: nat, v: T): (g: seq<seq<T>>)
    ensures IsGrid(g, rows, cols)
    ensures forall i, j :: 0 <= i < rows && 0 <= j < cols ==> g[i][j] == v
  {
    Repeat(rows, Repeat(cols, v))
  }

  /** Two grids of the same shape with the same cells are equal. */
  lemma {:induction false} SameGrid<T>(a: seq<seq<T>>, b: seq<seq<T>>, rows: nat, cols: nat)
    requires IsGrid(a, rows, cols) && IsGrid(b, rows, cols)
    requires forall i, j :: 0 <= i < rows && 0 <= j < cols ==> a[i][j] == b[i][j]
    ensures a == b
  {
    forall i | 0 <= i < rows
      ensures a[i] == b[i]
    {
      assert forall j :: 0 <= j < cols ==> a[i][j] == b[i][j];
    }
  }

  /** `g` with the single cell at (`row`, `col`) replaced by `v`. */
  function Assigned<T>(g: seq<seq<T>>, row: nat, col: nat, v: T): (r: seq<seq<T>>)
    requires row < |g| && col < |g[row]|
    ensures |r| == |g| && forall i :: 0 <= i < |g| ==> |r[i]| == |g[i]|
    ensures r[row][col] == v
    ensures forall i, j :: 0 <= i < |g| && 0 <= j < |g[i]| && (i != row || j != col) ==> r[i][j] == g[i][j]
  {
    g[row := g[row][col := v]]
  }

  /** A grid stored as a vector of row vectors, with the two size counters kept beside it.
      The counters are not tied to the rows by an invariant: the initializer-list constructor
      sets them the other way round. `Shaped` is the orientation that `Resize` establishes. */
  class Matrix<T> {
    var matrixVals: seq<seq<T>>
    var rowsSize: nat
    var colsSize: nat

    /** There are `rowsSize` rows, each of `colsSize` cells. */
    ghost predicate Shaped()
      reads this
    {
      IsGrid(matrixVals, rowsSize, colsSize)
    }

    function Get(row: nat, col: nat): T
      reads this
      requires row < |matrixVals| && col < |matrixVals[row]|
    {
      matrixVals[row][col]
    }

    function GetRow(row: nat): seq<T>
      reads this
      requires row < |matrixVals|
    {
      matrixVals[row]
    }

    function GetDimentions(): (nat, nat)
      reads this
    {
      (rowsSize, colsSize)
    }

    /** Builds a `inRowsSize` by `inColsSize` grid filled with `initVals`. */
    constructor (inRowsSize: nat, inColsSize: nat, initVals: T)
      ensures Shaped() && GetDimentions() == (inRowsSize, inColsSize)
      ensures matrixVals == Grid(inRowsSize, inColsSize, initVals)
    {
      new;
      Resize(inRowsSize, inColsSize, initVals);
    }

    /** Builds a matrix from a non-empty list of equally long lists, one stored row per list.
        The first counter becomes the length of a list and the second the number of lists. */
    constructor FromLists(initVals: seq<seq<T>>)
      requires |initVals| > 0
      requires forall k :: 0 <= k < |initVals| ==> |initVals[k]| == |initVals[0]|
      ensures matrixVals == initVals
      ensures GetDimentions() == (|initVals[0]|, |initVals|)
      ensures IsGrid(matrixVals, colsSize, rowsSize)
    {
      var vals: seq<seq<T>> := [];
      var count: nat := 0;
      for k := 0 to |initVals|
        invariant vals == initVals[..k] && count == k
      {
        vals := vals + [initVals[k]];
        count := count + 1;
      }
      matrixVals := vals;
      rowsSize := |initVals[0]|;
      colsSize := count;
    }

    method Clear()
      modifies this
      ensures matrixVals == [] && GetDimentions() == (0, 0)
      ensures Shaped()
    {
      matrixVals := [];
      rowsSize := 0;
      colsSize := 0;
    }

    /** Destroys the contents and rebuilds an `inRowsSize` by `inColsSize` grid of `initVals`. */
    method Resize(inRowsSize: nat, inColsSize: nat, initVals: T)
      modifies this
      ensures Shaped() && GetDimentions() == (inRowsSize, inColsSize)
      ensures matrixVals == Grid(inRowsSize, inColsSize, initVals)
      ensures forall i, j :: 0 <= i < inRowsSize && 0 <= j < inColsSize ==> Get(i, j) == initVals
    {
      Clear();
      rowsSize := inRowsSize;
      colsSize := inColsSize;
      var i := 0;
      while i < inRowsSize
        invariant 0 <= i <= inRowsSize
        invariant rowsSize == inRowsSize && colsSize == inColsSize
        invariant matrixVals == Repeat(i, Repeat(inColsSize, initVals))
      {
        assert Repeat(i + 1, Repeat(inColsSize, initVals))
            == Repeat(i, Repeat(inColsSize, initVals)) + [Repeat(inColsSize, initVals)];
        matrixVals := matrixVals + [Repeat(inColsSize, initVals)];
        i := i + 1;
      }
    }

    /** Overwrites one cell; every other cell and both counters stay as they were. */
    method Set(row: nat, col: nat, val: T)
      requires row < |matrixVals| && col < |matrixVals[row]|
      modifies this
      ensures matrixVals == Assigned(old(matrixVals), row, col, val)
      ensures Get(row, col) == val
      ensures GetDimentions() == old(GetDimentions())
      ensures old(Shaped()) ==> Shaped()
    {
      matrixVals := matrixVals[row := matrixVals[row][col := val]];
    }

    /** Replaces one whole row by a row of `colsSize` cells. */
    method SetRow(row: nat, rowVal: seq<T>)
      requires row < |matrixVals|
      requires |rowVal| == colsSize
      modifies this
      ensures matrixVals == old(matrixVals)[row := rowVal]
      ensures GetRow(row) == rowVal
      ensures GetDimentions() == old(GetDimentions())
      ensures old(Shaped()) ==> Shaped()
    {
      matrixVals := matrixVals[row := rowVal];
    }
  }

  /** The first `half` rows of `g` each hold at least `half` cells. */
  ghost predicate CoversTopLeft(g: seq<seq<real>>, half: nat)
  {
    half <= |g| && forall i :: 0 <= i < half ==> half <= |g[i]|
  }

  /** Cell (`r`, `c`) of the block matrix [[H, H], [H, -H]] where H is the top-left
      `half` by `half` block of `g`. */
  function Quad(g: seq<seq<real>>, half: nat, r: nat, c: nat): real
    requires CoversTopLeft(g, half)
    requires r < 2 * half && c < 2 * half
  {
    if r < half && c < half then g[r][c]
    else if c < half then g[r - half][c]
    else if r < half then g[r][c - half]
    else -g[r - half][c - half]
  }

  /** Fills a square `dimention` matrix in place: the single cell of a 1 by 1 matrix becomes
      `gain`; otherwise the bottom-left and top-right quadrants are copied from the top-left one
      and the bottom-right quadrant is its negation. The top-left quadrant is never written:
      the half-size matrix the construction needs is built as a separate temporary and dropped. */
  method FillMatrix(m: Matrix<real>, dimention: nat, gain: real)
    requires m.Shaped() && m.GetDimentions() == (dimention, dimention)
    requires IsPowerOfTwo(dimention)
    modifies m
    decreases dimention, 0
    ensures m.Shaped() && m.GetDimentions() == (dimention, dimention)
    ensures dimention == 1 ==> m.matrixVals == [[gain]]
    ensures dimention >= 2 ==> CoversTopLeft(old(m.matrixVals), dimention / 2)
    ensures dimention >= 2 ==> forall r, c :: 0 <= r < dimention && 0 <= c < dimention ==>
              m.matrixVals[r][c] == Quad(old(m.matrixVals), dimention / 2, r, c)
  {
    if dimention == 1 {
      m.matrixVals := m.matrixVals[0 := m.matrixVals[0][0 := 1.0 * gain]];
      assert m.matrixVals[0] == [gain];
    } else {
      var halfDimention := dimention / 2;
      var discarded := NewHadamarMatrix(halfDimention, gain);
      ghost var g := m.matrixVals;
      CopyToBottomLeft(m, g, halfDimention);
      CopyToTopRight(m, g, halfDimention);
      NegateToBottomRight(m, g, halfDimention);
    }
  }

  /** First pass of `FillMatrix`: the bottom-left quadrant becomes a copy of the top-left one. */
  method CopyToBottomLeft(m: Matrix<real>, ghost g: seq<seq<real>>, halfDimention: nat)
    requires m.Shaped() && m.GetDimentions() == (2 * halfDimention, 2 * halfDimention)
    requires m.matrixVals == g
    modifies m
    ensures m.Shaped() && m.GetDimentions() == (2 * halfDimention, 2 * halfDimention)
    ensures forall r, c :: 0 <= r < 2 * halfDimention && 0 <= c < 2 * halfDimention ==>
      m.matrixVals[r][c] == Stage(g, halfDimention, r, c, 2, 0, 0)
  {
    var dimention := 2 * halfDimention;
    for i := halfDimention to dimention
      invariant m.Shaped() && m.GetDimentions() == (dimention, dimention)
      invariant forall r, c :: 0 <= r < dimention && 0 <= c < dimention ==>
        m.matrixVals[r][c] == Stage(g, halfDimention, r, c, 1, i, 0)
    {
      for j := 0 to halfDimention
        invariant m.Shaped() && m.GetDimentions() == (dimention, dimention)
        invariant forall r, c :: 0 <= r < dimention && 0 <= c < dimention ==>
          m.matrixVals[r][c] == Stage(g, halfDimention, r, c, 1, i, j)
      {
        m.matrixVals := m.matrixVals[i := m.matrixVals[i][j := m.matrixVals[i - halfDimention][j]]];
      }
    }
  }

  /** Second pass of `FillMatrix`: the top-right quadrant becomes a copy of the top-left one. */
  method CopyToTopRight(m: Matrix<real>, ghost g: seq<seq<real>>, halfDimention: nat)
    requires m.Shaped() && m.GetDimentions() == (2 * halfDimention, 2 * halfDimention)
    requires IsGrid(g, 2 * halfDimention, 2 * halfDimention)
    requires forall r, c :: 0 <= r < 2 * halfDimention && 0 <= c < 2 * halfDimention ==>
      m.matrixVals[r][c] == Stage(g, halfDimention, r, c, 2, 0, 0)
    modifies m
    ensures m.Shaped() && m.GetDimentions() == (2 * halfDimention, 2 * halfDimention)
    ensures forall r, c :: 0 <= r < 2 * halfDimention && 0 <= c < 2 * halfDimention ==>
      m.matrixVals[r][c] == Stage(g, halfDimention, r, c, 3, 0, 0)
  {
    var dimention := 2 * halfDimention;
    for i := 0 to halfDimention
      invariant m.Shaped() && m.GetDimentions() == (dimention, dimention)
      invariant forall r, c :: 0 <= r < dimention && 0 <= c < dimention ==>
        m.matrixVals[r][c] == Stage(g, halfDimention, r, c, 2, i, 0)
    {
      for j := halfDimention to dimention
        invariant m.Shaped() && m.GetDimentions() == (dimention, dimention)
        invariant forall r, c :: 0 <= r < dimention && 0 <= c < dimention ==>
          m.matrixVals[r][c] == Stage(g, halfDimention, r, c, 2, i, j)
      {
        m.matrixVals := m.matrixVals[i := m.matrixVals[i][j := m.matrixVals[i][j - halfDimention]]];
      }
    }
  }

  /** Third pass of `FillMatrix`: the bottom-right quadrant becomes the negated top-left one. */
  method NegateToBottomRight(m: Matrix<real>, ghost g: seq<seq<real>>, halfDimention: nat)
    requires m.Shaped() && m.GetDimentions() == (2 * halfDimention, 2 * halfDimention)
    requires IsGrid(g, 2 * halfDimention, 2 * halfDimention)
    requires forall r, c :: 0 <= r < 2 * halfDimention && 0 <= c < 2 * halfDimention ==>
      m.matrixVals[r][c] == Stage(g, halfDimention, r, c, 3, 0, 0)
    modifies m
    ensures m.Shaped() && m.GetDimentions() == (2 * halfDimention, 2 * halfDimention)
    ensures forall r, c :: 0 <= r < 2 * halfDimention && 0 <= c < 2 * halfDimention ==>
      m.matrixVals[r][c] == Quad(g, halfDimention, r, c)
  {
    var dimention := 2 * halfDimention;
    for i := halfDimention to dimention
      invariant m.Shaped() && m.GetDimentions() == (dimention, dimention)
      invariant forall r, c :: 0 <= r < dimention && 0 <= c < dimention ==>
        m.matrixVals[r][c] == Stage(g, halfDimention, r, c, 3, i, 0)
    {
      for j := halfDimention to dimention
        invariant m.Shaped() && m.GetDimentions() == (dimention, dimention)
        invariant forall r, c :: 0 <= r < dimention && 0 <= c < dimention ==>
          m.matrixVals[r][c] == Stage(g, halfDimention, r, c, 3, i, j)
      {
        m.matrixVals := m.matrixVals[i := m.matrixVals[i][j := -m.matrixVals[i - halfDimention][j - halfDimention]]];
      }
    }
  }

  /** The pass of `FillMatrix` that writes cell (`r`, `c`): none for the top-left quadrant,
      then bottom-left, top-right and bottom-right. */
  function PassOf(half: nat, r: nat, c: nat): nat
  {
    if r < half && c < half then 0
    else if c < half then 1
    else if r < half then 2
    else 3
  }

  /** Cell (`r`, `c`) while pass `pass` of `FillMatrix` is at row `i`, column `j`: the cells of
      earlier passes and those this pass has reached hold the block pattern, the others still
      hold their original value. */
  ghost function Stage(g: seq<seq<real>>, half: nat, r: nat, c: nat, pass: nat, i: nat, j: nat): real
    requires IsGrid(g, 2 * half, 2 * half)
    requires r < 2 * half && c < 2 * half
  {
    var p := PassOf(half, r, c);
    if p < pass || (p == pass && (r < i || (r == i && c < j))) then Quad(g, half, r, c) else g[r][c]
  }

  /** The Hadamard matrix of the source as written: a `dimention` square of zeros passed to
      `FillMatrix`. Only the 1 by 1 case ends up holding `gain`; for every larger size the
      untouched top-left zeros are copied into the other three quadrants. */
  method NewHadamarMatrix(dimention: nat, gain: real) returns (m: Matrix<real>)
    requires IsPowerOfTwo(dimention)
    decreases dimention, 1
    ensures fresh(m)
    ensures m.Shaped() && m.GetDimentions() == (dimention, dimention)
    ensures dimention == 1 ==> m.matrixVals == [[gain]]
    ensures dimention >= 2 ==> m.matrixVals == Grid(dimention, dimention, 0.0)
  {
    m := new Matrix(dimention, dimention, 0.0);
    ghost var zeros := m.matrixVals;
    FillMatrix(m, dimention, gain);
    if dimention >= 2 {
      SameGrid(m.matrixVals, Grid(dimention, dimention, 0.0), dimention, dimention);
    }
  }
}
