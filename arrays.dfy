/** The numpy arrays the layers handle, as nested sequences with an explicit shape. */
module Arrays {

  /** An unsigned 8-bit pixel value (numpy's uint8). */
  newtype Byte = x: int | 0 <= x < 256

  /** A two-dimensional array of shape (rows, cols); `cells[i][j]` is element (i, j). */
  datatype Array2<T> = Array2(rows: nat, cols: nat, cells: seq<seq<T>>) {
    predicate Valid() {
      |cells| == rows && forall i :: 0 <= i < rows ==> |cells[i]| == cols
    }
  }

  /** A three-dimensional array of shape (d0, d1, d2); `cells[i][j][k]` is element (i, j, k).
      The shape is kept beside the cells so that an array with an empty axis keeps the
      lengths of the axes after it. */
  datatype Array3<T> = Array3(d0: nat, d1: nat, d2: nat, cells: seq<seq<seq<T>>>) {
    predicate Valid() {
      && |cells| == d0
      && (forall i :: 0 <= i < d0 ==> |cells[i]| == d1)
      && (forall i, j :: 0 <= i < d0 && 0 <= j < d1 ==> |cells[i][j]| == d2)
    }
  }

  /** Two valid arrays of the same shape that agree element by element are equal. */
  lemma {:induction false} Array3Ext<T>(a: Array3<T>, b: Array3<T>)
    requires a.Valid() && b.Valid()
    requires a.d0 == b.d0 && a.d1 == b.d1 && a.d2 == b.d2
    requires forall i, j, k :: 0 <= i < a.d0 && 0 <= j < a.d1 && 0 <= k < a.d2 ==>
               a.cells[i][j][k] == b.cells[i][j][k]
    ensures a == b
  {
    forall i | 0 <= i < a.d0
      ensures a.cells[i] == b.cells[i]
    {
      forall j | 0 <= j < a.d1
        ensures a.cells[i][j] == b.cells[i][j]
      {
        assert forall k :: 0 <= k < a.d2 ==> a.cells[i][j][k] == b.cells[i][j][k];
      }
    }
  }

  /** Elementwise application of `f` (numpy's vectorised operators on a 2-D array). */
  function Map2<T, U>(a: Array2<T>, f: T -> U): (r: Array2<U>)
    requires a.Valid()
    ensures r.Valid() && r.rows == a.rows && r.cols == a.cols
    ensures forall i, j :: 0 <= i < a.rows && 0 <= j < a.cols ==> r.cells[i][j] == f(a.cells[i][j])
  {
    Array2(a.rows, a.cols,
      seq(a.rows, i requires 0 <= i < a.rows =>
        seq(a.cols, j requires 0 <= j < a.cols => f(a.cells[i][j]))))
  }

  /** `a[np.newaxis, ...]`: the same elements under a leading axis of length 1. */
  function AddLeadingAxis<T>(a: Array2<T>): (r: Array3<T>)
    requires a.Valid()
    ensures r.Valid() && r.d0 == 1 && r.d1 == a.rows && r.d2 == a.cols
    ensures forall i, j :: 0 <= i < a.rows && 0 <= j < a.cols ==> r.cells[0][i][j] == a.cells[i][j]
  {
    Array3(1, a.rows, a.cols, [a.cells])
  }

  /** Indexing a leading axis of length 1 away again (`r[0]`). */
  function DropLeadingAxis<T>(r: Array3<T>): (a: Array2<T>)
    requires r.Valid() && r.d0 == 1
    ensures a.Valid() && a.rows == r.d1 && a.cols == r.d2
  {
    Array2(r.d1, r.d2, r.cells[0])
  }

  /** Adding the leading axis loses nothing: dropping it gives the array back. */
  lemma LeadingAxisRoundTrip<T>(a: Array2<T>)
    requires a.Valid()
    ensures DropLeadingAxis(AddLeadingAxis(a)) == a
  {
  }
}
