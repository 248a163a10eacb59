/** Two-dimensional integer arrays of token ids, the result of `np.array`
    conversion, and the column slicing `a[:, i:i+1]` the evaluator performs. */
module Arrays {

  import opened Wrappers

  /** A matrix given by its rows and its number of columns; kept separate
      from the rows so that a `[0, L]` array still has width `L`. */
  datatype Matrix = Matrix(rows: seq<seq<int>>, width: nat) {

    ghost predicate Rectangular() {
      forall i :: 0 <= i < |rows| ==> |rows[i]| == width
    }

    /** `shape[0]` */
    function Height(): nat { |rows| }
  }

  /** A 2-D numpy array of token ids. */
  type Grid = m: Matrix | m.Rectangular() witness Matrix([], 0)

  /** The outcome of `np.array(x)`: a 2-D array, an array of any other rank,
      or a conversion failure carrying `str(type(x))`. Which Python values
      convert to what is the foreign library's business and is left abstract. */
  datatype NdArray = TwoD(grid: Grid) | OtherRank(ndim: OtherDims)

  /** The rank of an array that is not 2-D: a 2-D array is always `TwoD`. */
  type OtherDims = n: nat | n != 2

  datatype Conversion = Converts(converted: NdArray) | Fails(typeName: string)

  /** Column `i` of every row, as Python's clipping slice `row[i:i+1]`. */
  function ColumnSlice(g: Grid, i: nat): (s: Grid)
    ensures s.Height() == g.Height()
    ensures i < g.width ==> s.width == 1 && forall r :: 0 <= r < |g.rows| ==> s.rows[r] == [g.rows[r][i]]
    ensures i >= g.width ==> s.width == 0 && forall r :: 0 <= r < |g.rows| ==> s.rows[r] == []
  {
    var w := if i < g.width then 1 else 0;
    Matrix(seq(|g.rows|, r requires 0 <= r < |g.rows| => if i < g.width then [g.rows[r][i]] else []), w)
  }

  /** `a[:, i:i+1]`: a 2-D array keeps every row and at most one column; an
      array of rank 2 or more is sliced along its second axis (its content is
      not modelled); an array of rank below 2 has too few axes. */
  function SliceColumns(a: NdArray, i: nat): (r: Result<NdArray>)
    ensures r.Err? <==> a.OtherRank? && a.ndim < 2
    ensures a.TwoD? ==> r == Ok(TwoD(ColumnSlice(a.grid, i)))
  {
    match a
    case TwoD(g) => Ok(TwoD(ColumnSlice(g, i)))
    case OtherRank(n) => if n < 2 then Err(IndexError) else Ok(a)
  }
}
