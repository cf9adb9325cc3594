/**
 * The grid preparation of plot_z25.py: pick one depth per data row, reshape
 * the flat depths row-major into an ny-by-nx grid, mask the no-data value and
 * flip the grid top-to-bottom when the latitude list does not ascend.
 *
 * Every numpy step builds a new array, so each is a function on sequences.
 */
module DepthGrid {

  /** One row of the numeric data table. */
  type Row = seq<real>

  /** A grid is a sequence of rows; row 0 is drawn at the bottom of the map. */
  type Grid<T> = seq<seq<T>>

  /** The value that marks a cell without data. */
  const NoData: real := -1.0

  /** Column 2 holds the flag; columns 3 and 4 hold the two depth readings. */
  const FlagColumn: nat := 2
  const PrimaryColumn: nat := 3
  const AlternateColumn: nat := 4

  /** Every row has the columns the depth rule indexes. */
  predicate HasDepthColumns(rows: seq<Row>)
  {
    forall i :: 0 <= i < |rows| ==> |rows[i]| > AlternateColumn
  }

  /** The depth of one row: column 3 when the flag is exactly 1, column 4 otherwise. */
  function RowDepth(row: Row): real
    requires |row| > AlternateColumn
  {
    if row[FlagColumn] == 1.0 then row[PrimaryColumn] else row[AlternateColumn]
  }

  /** The flat depth sequence, one entry per data row, in row order. */
  function Depths(rows: seq<Row>): (flat: seq<real>)
    requires HasDepthColumns(rows)
    ensures |flat| == |rows|
    ensures forall i :: 0 <= i < |rows| && rows[i][FlagColumn] == 1.0 ==> flat[i] == rows[i][PrimaryColumn]
    ensures forall i :: 0 <= i < |rows| && rows[i][FlagColumn] != 1.0 ==> flat[i] == rows[i][AlternateColumn]
  {
    if rows == [] then [] else [RowDepth(rows[0])] + Depths(rows[1..])
  }

  /** Depth extraction works row by row: it distributes over concatenation of tables. */
  lemma {:induction false} DepthsAppend(a: seq<Row>, b: seq<Row>)
    requires HasDepthColumns(a) && HasDepthColumns(b)
    ensures HasDepthColumns(a + b)
    ensures Depths(a + b) == Depths(a) + Depths(b)
  {
    assert HasDepthColumns(a + b) by {
      forall i | 0 <= i < |a + b|
        ensures |(a + b)[i]| > AlternateColumn
      {
        if i < |a| { assert (a + b)[i] == a[i]; } else { assert (a + b)[i] == b[i - |a|]; }
      }
    }
    if a == [] {
      assert a + b == b;
    } else {
      assert (a + b)[0] == a[0];
      assert (a + b)[1..] == a[1..] + b;
      DepthsAppend(a[1..], b);
    }
  }

  /** g has exactly ny rows of exactly nx cells. */
  predicate IsShape<T>(g: Grid<T>, ny: nat, nx: nat)
  {
    |g| == ny && forall r :: 0 <= r < |g| ==> |g[r]| == nx
  }

  /** The cells of g, row after row. */
  function Flatten<T>(g: Grid<T>): seq<T>
  {
    if g == [] then [] else g[0] + Flatten(g[1..])
  }

  /** x is one of the cells of g. */
  ghost predicate CellOf<T>(x: T, g: Grid<T>)
  {
    exists r, c :: 0 <= r < |g| && 0 <= c < |g[r]| && x == g[r][c]
  }

  /** Every cell of g occurs in Flatten(g), and every entry of Flatten(g) is a cell of g. */
  lemma {:induction false} FlattenMembers<T>(g: Grid<T>)
    ensures forall r, c :: 0 <= r < |g| && 0 <= c < |g[r]| ==> g[r][c] in Flatten(g)
    ensures forall k :: 0 <= k < |Flatten(g)| ==> CellOf(Flatten(g)[k], g)
  {
    if g != [] {
      FlattenMembers(g[1..]);
      var s := Flatten(g);
      assert s == g[0] + Flatten(g[1..]);
      forall r, c | 0 <= r < |g| && 0 <= c < |g[r]|
        ensures g[r][c] in s
      {
        if r == 0 {
          assert s[c] == g[0][c];
        } else {
          assert g[r][c] == g[1..][r - 1][c];
        }
      }
      forall k | 0 <= k < |s|
        ensures CellOf(s[k], g)
      {
        if k < |g[0]| {
          assert s[k] == g[0][k];
        } else {
          var k' := k - |g[0]|;
          assert s[k] == Flatten(g[1..])[k'];
          assert CellOf(Flatten(g[1..])[k'], g[1..]);
          var i, j :| 0 <= i < |g[1..]| && 0 <= j < |g[1..][i]| && Flatten(g[1..])[k'] == g[1..][i][j];
          assert g[1..][i] == g[i + 1];
        }
      }
    } else {
      assert Flatten(g) == [];
    }
  }

  /** A rectangular grid flattens to ny * nx cells. */
  lemma {:induction false} FlattenLength<T>(g: Grid<T>, ny: nat, nx: nat)
    requires IsShape(g, ny, nx)
    ensures |Flatten(g)| == ny * nx
  {
    if ny > 0 {
      FlattenLength(g[1..], ny - 1, nx);
      assert ny * nx == (ny - 1) * nx + nx;
    }
  }

  /** The cells of two grids stacked are the cells of the first followed by those of the second. */
  lemma {:induction false} FlattenAppend<T>(a: Grid<T>, b: Grid<T>)
    ensures Flatten(a + b) == Flatten(a) + Flatten(b)
  {
    if a == [] {
      assert a + b == b;
    } else {
      assert (a + b)[1..] == a[1..] + b;
      FlattenAppend(a[1..], b);
    }
  }

  /** Row-major reshape of a flat sequence of ny * nx values into ny rows of nx cells. */
  function Reshape<T>(flat: seq<T>, ny: nat, nx: nat): (g: Grid<T>)
    requires |flat| == ny * nx
    ensures IsShape(g, ny, nx)
    decreases ny
  {
    if ny == 0 then []
    else
      assert ny * nx == (ny - 1) * nx + nx;
      [flat[..nx]] + Reshape(flat[nx..], ny - 1, nx)
  }

  /** Cell (r, c) of the reshaped grid is entry r * nx + c of the flat sequence. */
  lemma {:induction false} ReshapeAt<T>(flat: seq<T>, ny: nat, nx: nat, r: nat, c: nat)
    requires |flat| == ny * nx && r < ny && c < nx
    ensures r * nx + c < |flat|
    ensures Reshape(flat, ny, nx)[r][c] == flat[r * nx + c]
    decreases ny
  {
    assert ny * nx == (ny - 1) * nx + nx;
    if r > 0 {
      ReshapeAt(flat[nx..], ny - 1, nx, r - 1, c);
      assert (r - 1) * nx + nx == r * nx;
    }
  }

  /** Reshaping and flattening again gives back the flat sequence. */
  lemma {:induction false} FlattenReshape<T>(flat: seq<T>, ny: nat, nx: nat)
    requires |flat| == ny * nx
    ensures Flatten(Reshape(flat, ny, nx)) == flat
    decreases ny
  {
    if ny > 0 {
      assert ny * nx == (ny - 1) * nx + nx;
      FlattenReshape(flat[nx..], ny - 1, nx);
      assert flat == flat[..nx] + flat[nx..];
    }
  }

  /** Reshaping the cells of a rectangular grid rebuilds that grid. */
  lemma {:induction false} ReshapeFlatten<T>(g: Grid<T>, ny: nat, nx: nat)
    requires IsShape(g, ny, nx)
    ensures |Flatten(g)| == ny * nx
    ensures Reshape(Flatten(g), ny, nx) == g
    decreases ny
  {
    FlattenLength(g, ny, nx);
    if ny > 0 {
      ReshapeFlatten(g[1..], ny - 1, nx);
      assert Flatten(g)[..nx] == g[0];
      assert Flatten(g)[nx..] == Flatten(g[1..]);
      assert g == [g[0]] + g[1..];
    }
  }

  /** A grid cell after masking: the value stays, the flag says whether it is hidden. */
  datatype Cell = Cell(value: real, masked: bool)

  /** One row of masking: cells equal to v are masked. */
  function MaskRow(row: seq<real>, v: real): (cells: seq<Cell>)
    ensures |cells| == |row|
    ensures forall c :: 0 <= c < |row| ==> cells[c].value == row[c] && (cells[c].masked <==> row[c] == v)
  {
    if row == [] then [] else [Cell(row[0], row[0] == v)] + MaskRow(row[1..], v)
  }

  /** Masking two pieces of a row masks their concatenation. */
  lemma {:induction false} MaskRowAppend(a: seq<real>, b: seq<real>, v: real)
    ensures MaskRow(a + b, v) == MaskRow(a, v) + MaskRow(b, v)
  {
    if a == [] {
      assert a + b == b;
    } else {
      assert (a + b)[1..] == a[1..] + b;
      MaskRowAppend(a[1..], b, v);
    }
  }

  /** Masks every cell of g equal to v, keeping every value and the shape. */
  function MaskedEqual(g: Grid<real>, v: real): (m: Grid<Cell>)
    ensures |m| == |g|
    ensures forall r :: 0 <= r < |g| ==> |m[r]| == |g[r]|
    ensures forall r, c :: 0 <= r < |g| && 0 <= c < |g[r]| ==>
              m[r][c].value == g[r][c] && (m[r][c].masked <==> g[r][c] == v)
  {
    if g == [] then [] else [MaskRow(g[0], v)] + MaskedEqual(g[1..], v)
  }

  /** Reading a masked grid row by row gives the masked reading of the grid. */
  lemma {:induction false} FlattenMasked(g: Grid<real>, v: real)
    ensures Flatten(MaskedEqual(g, v)) == MaskRow(Flatten(g), v)
  {
    if g != [] {
      FlattenMasked(g[1..], v);
      MaskRowAppend(g[0], Flatten(g[1..]), v);
    }
  }

  /** The underlying data of a masked grid (numpy's `.data`). */
  function Unmasked(m: Grid<Cell>): Grid<real>
  {
    seq(|m|, r requires 0 <= r < |m| => seq(|m[r]|, c requires 0 <= c < |m[r]| => m[r][c].value))
  }

  /** Masking loses no data: the underlying values are the grid that was masked. */
  lemma MaskKeepsData(g: Grid<real>, v: real)
    ensures Unmasked(MaskedEqual(g, v)) == g
  {
    var u := Unmasked(MaskedEqual(g, v));
    assert |u| == |g|;
    forall r | 0 <= r < |g|
      ensures u[r] == g[r]
    {
      assert |u[r]| == |g[r]|;
    }
  }

  /** Reverses the order of the rows (numpy's `flipud`). */
  function FlipUd<T>(g: Grid<T>): (f: Grid<T>)
    ensures |f| == |g|
    ensures forall i :: 0 <= i < |g| ==> f[i] == g[|g| - 1 - i]
  {
    if g == [] then [] else FlipUd(g[1..]) + [g[0]]
  }

  /** Flipping twice restores the grid. */
  lemma FlipUdInvolutive<T>(g: Grid<T>)
    ensures FlipUd(FlipUd(g)) == g
  {
  }

  /** Flipping keeps the shape. */
  lemma FlipUdShape<T>(g: Grid<T>, ny: nat, nx: nat)
    requires IsShape(g, ny, nx)
    ensures IsShape(FlipUd(g), ny, nx)
  {
  }

  /** Flipping only moves cells: the multiset of cells (values and mask flags) is unchanged. */
  lemma {:induction false} FlipUdPermutes<T>(g: Grid<T>)
    ensures multiset(Flatten(FlipUd(g))) == multiset(Flatten(g))
  {
    if g != [] {
      var rest := FlipUd(g[1..]);
      FlipUdPermutes(g[1..]);
      FlattenAppend(rest, [g[0]]);
      assert Flatten([g[0]]) == g[0] + Flatten([]);
    }
  }

  /** Masking before or after the flip gives the same grid. */
  lemma MaskFlipCommute(g: Grid<real>, v: real)
    ensures MaskedEqual(FlipUd(g), v) == FlipUd(MaskedEqual(g, v))
  {
    var a := MaskedEqual(FlipUd(g), v);
    var b := FlipUd(MaskedEqual(g, v));
    assert |a| == |b|;
    forall i | 0 <= i < |a|
      ensures a[i] == b[i]
    {
      assert |a[i]| == |b[i]|;
    }
  }

  /** The grid is flipped unless the first latitude is strictly below the last. */
  predicate NeedsFlip(latList: seq<real>)
    requires |latList| > 0
  {
    !(latList[0] < latList[|latList| - 1])
  }

  /** Puts row 0 at the southern edge: flips the grid exactly when NeedsFlip holds. */
  function Orient<T>(g: Grid<T>, latList: seq<real>): (o: Grid<T>)
    requires |latList| > 0
    ensures latList[0] < latList[|latList| - 1] ==> o == g
    ensures !(latList[0] < latList[|latList| - 1]) ==>
              |o| == |g| && forall i :: 0 <= i < |g| ==> o[i] == g[|g| - 1 - i]
  {
    if NeedsFlip(latList) then FlipUd(g) else g
  }

  /** Row i of the oriented grid is row i of g, or row |g|-1-i when the grid is flipped. */
  lemma OrientRow<T>(g: Grid<T>, latList: seq<real>, i: nat)
    requires |latList| > 0 && i < |g|
    ensures Orient(g, latList)[i] == g[if NeedsFlip(latList) then |g| - 1 - i else i]
  {
  }
}
