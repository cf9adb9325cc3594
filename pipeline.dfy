/**
 * The run of plot_z25.py from parsed inputs to what is handed to the
 * renderer: the checks and stages of main() in the order the script performs
 * them, each fatal condition ending the run with an Error and no output.
 */
module PlotPipeline {
  import opened Wrappers
  import opened DepthGrid
  import opened ColorScale
  import opened CityLabels

  /** The metadata file: coordinate lists, grid size and its numeric fields (for "max depth"). */
  datatype Metadata = Metadata(latList: seq<real>, lonList: seq<real>, nx: int, ny: int, fields: map<string, real>)

  /** The command-line options that steer the computation. */
  datatype Options = Options(scaleMode: string, userMax: Option<real>)

  /** Why a run stops without an image. */
  datatype Error =
    | EmptyLatitudes                      // the latitude list has no minimum to log
    | NotATable                           // fewer than two data rows: the table loads one-dimensional
    | MissingDepthColumns                 // a row without columns 2 to 4
    | SizeMismatch(expected: int, got: nat)
    | NegativeDimension                   // nx * ny matches but the shape cannot be reshaped to
    | ScaleFailed(reason: ScaleError)
    | EmptyLongitudes                     // the longitude list has no minimum for the extent

  /** What the computation hands to the renderer. */
  datatype Prepared = Prepared(depths: Grid<Cell>, scale: Scale, extent: Extent)

  /** The whole result of a run: the prepared map and the city labels drawn on it. */
  datatype Rendering = Rendering(depths: Grid<Cell>, scale: Scale, extent: Extent, cities: seq<Place>, citiesPlotted: nat)

  /** The grid stages in order: pick depths, reshape row-major, mask no-data, orient. */
  function DepthMap(rows: seq<Row>, nx: nat, ny: nat, latList: seq<real>): (g: Grid<Cell>)
    requires HasDepthColumns(rows) && |rows| == ny * nx && |latList| > 0
    ensures IsShape(g, ny, nx)
  {
    var m := MaskedEqual(Reshape(Depths(rows), ny, nx), NoData);
    FlipUdShape(m, ny, nx);
    Orient(m, latList)
  }

  /**
   * The map shows every extracted depth exactly once, masked when it is the
   * no-data value: only the arrangement of the cells depends on the rows' order
   * and the orientation.
   */
  lemma DepthMapKeepsDepths(rows: seq<Row>, nx: nat, ny: nat, latList: seq<real>)
    requires HasDepthColumns(rows) && |rows| == ny * nx && |latList| > 0
    ensures multiset(Flatten(DepthMap(rows, nx, ny, latList))) == multiset(MaskRow(Depths(rows), NoData))
  {
    var flat := Depths(rows);
    var m := MaskedEqual(Reshape(flat, ny, nx), NoData);
    FlattenReshape(flat, ny, nx);
    FlattenMasked(Reshape(flat, ny, nx), NoData);
    assert Flatten(m) == MaskRow(flat, NoData);
    if NeedsFlip(latList) {
      FlipUdPermutes(m);
    }
  }

  /** The data row that ends up in cell (i, j) of the oriented grid. */
  function SourceRow(i: nat, j: nat, nx: nat, ny: nat, flipped: bool): nat
    requires i < ny
  {
    (if flipped then ny - 1 - i else i) * nx + j
  }

  /** cell shows the depth of rows[k], and is masked exactly when that depth is the no-data value. */
  ghost predicate ShowsRow(cell: Cell, rows: seq<Row>, k: nat)
  {
    && k < |rows| && |rows[k]| > AlternateColumn
    && cell.value == RowDepth(rows[k])
    && (cell.masked <==> RowDepth(rows[k]) == NoData)
  }

  /** Cell (i, j) of the grid shows the depth of its source row. */
  lemma DepthMapCell(rows: seq<Row>, nx: nat, ny: nat, latList: seq<real>, i: nat, j: nat)
    requires HasDepthColumns(rows) && |rows| == ny * nx && |latList| > 0
    requires i < ny && j < nx
    ensures IsShape(DepthMap(rows, nx, ny, latList), ny, nx)
    ensures ShowsRow(DepthMap(rows, nx, ny, latList)[i][j], rows, SourceRow(i, j, nx, ny, NeedsFlip(latList)))
  {
    var flat := Depths(rows);
    var g := Reshape(flat, ny, nx);
    var m := MaskedEqual(g, NoData);
    var o := DepthMap(rows, nx, ny, latList);
    assert o == Orient(m, latList);
    var r := if NeedsFlip(latList) then ny - 1 - i else i;
    OrientRow(m, latList, i);
    ReshapeAt(flat, ny, nx, r, j);
    var k := r * nx + j;
    assert m[r][j] == Cell(flat[k], flat[k] == NoData);
    assert flat[k] == RowDepth(rows[k]);
  }

  /** The grid is ny rows of nx cells and each cell shows the depth of its source row. */
  lemma DepthMapCells(rows: seq<Row>, nx: nat, ny: nat, latList: seq<real>)
    requires HasDepthColumns(rows) && |rows| == ny * nx && |latList| > 0
    ensures IsShape(DepthMap(rows, nx, ny, latList), ny, nx)
    ensures forall i, j :: 0 <= i < ny && 0 <= j < nx ==>
              ShowsRow(DepthMap(rows, nx, ny, latList)[i][j], rows, SourceRow(i, j, nx, ny, NeedsFlip(latList)))
  {
    forall i, j | 0 <= i < ny && 0 <= j < nx
      ensures ShowsRow(DepthMap(rows, nx, ny, latList)[i][j], rows, SourceRow(i, j, nx, ny, NeedsFlip(latList)))
    {
      DepthMapCell(rows, nx, ny, latList, i, j);
    }
  }

  /** The scale the effective mode can always settle: no error exit is taken. */
  predicate ScaleSettles(meta: Metadata, opts: Options)
  {
    var mode := EffectiveMode(opts.scaleMode, MetaMax(meta.fields));
    mode == "metadata" || mode == "datamax" || (mode == "user" && opts.userMax.Some?)
  }

  /** The grid checks that main() makes before building the grid all pass. */
  predicate GridChecksPass(meta: Metadata, rows: seq<Row>)
  {
    |rows| >= 2 && HasDepthColumns(rows) && |rows| == meta.nx * meta.ny && meta.nx >= 0 && meta.ny >= 0
  }

  /** main() from the metadata to the map extent (lines 42-109), without rendering. */
  function Prepare(meta: Metadata, rows: seq<Row>, opts: Options): (r: Result<Prepared, Error>)
    ensures |meta.latList| == 0 ==> r == Err(EmptyLatitudes)
    ensures |meta.latList| > 0 && |rows| < 2 ==> r == Err(NotATable)
    ensures |meta.latList| > 0 && |rows| >= 2 && !HasDepthColumns(rows) ==> r == Err(MissingDepthColumns)
    ensures |meta.latList| > 0 && |rows| >= 2 && HasDepthColumns(rows) && |rows| != meta.nx * meta.ny ==>
              r == Err(SizeMismatch(meta.nx * meta.ny, |rows|))
    ensures |meta.latList| > 0 && |rows| >= 2 && HasDepthColumns(rows) && |rows| == meta.nx * meta.ny ==>
              (meta.nx < 0 || meta.ny < 0 ==> r == Err(NegativeDimension))
    ensures |meta.latList| > 0 && GridChecksPass(meta, rows) && !ScaleSettles(meta, opts) ==>
              r == Err(ScaleFailed(
                     if EffectiveMode(opts.scaleMode, MetaMax(meta.fields)) == "user" then UserMaxMissing
                     else InvalidScaleMode))
    ensures |meta.latList| > 0 && GridChecksPass(meta, rows) && ScaleSettles(meta, opts) && |meta.lonList| == 0 ==>
              r == Err(EmptyLongitudes)
    ensures r.Ok? <==> |meta.latList| > 0 && GridChecksPass(meta, rows) && ScaleSettles(meta, opts) && |meta.lonList| > 0
    ensures r.Ok? ==>
              && IsShape(r.value.depths, meta.ny, meta.nx)
              && forall i, j :: 0 <= i < meta.ny && 0 <= j < meta.nx ==>
                   ShowsRow(r.value.depths[i][j], rows, SourceRow(i, j, meta.nx, meta.ny, NeedsFlip(meta.latList)))
    ensures r.Ok? ==> r.value.scale.vmin == 0.0
    ensures r.Ok? && MetaMax(meta.fields).None? ==> r.value.scale.vmax == DataMax(r.value.depths)
    ensures r.Ok? && opts.scaleMode == "datamax" ==> r.value.scale.vmax == DataMax(r.value.depths)
    ensures r.Ok? && MetaMax(meta.fields).Some? && opts.scaleMode == "metadata" ==>
              r.value.scale.vmax == meta.fields[MaxDepthKey]
    ensures r.Ok? && MetaMax(meta.fields).Some? && opts.scaleMode == "user" ==>
              r.value.scale.vmax == opts.userMax.value
    ensures r.Ok? ==> r.value.extent == BoundingBox(meta.lonList, meta.latList)
  {
    if |meta.latList| == 0 then Err(EmptyLatitudes)
    else
      var metaMax := MetaMax(meta.fields);
      var mode := EffectiveMode(opts.scaleMode, metaMax);
      if |rows| < 2 then Err(NotATable)
      else if !HasDepthColumns(rows) then Err(MissingDepthColumns)
      else if |rows| != meta.nx * meta.ny then Err(SizeMismatch(meta.nx * meta.ny, |rows|))
      else if meta.nx < 0 || meta.ny < 0 then Err(NegativeDimension)
      else
        DepthMapCells(rows, meta.nx, meta.ny, meta.latList);
        var depths := DepthMap(rows, meta.nx, meta.ny, meta.latList);
        match ResolveScale(mode, metaMax, depths, opts.userMax)
        case Err(e) => Err(ScaleFailed(e))
        case Ok(scale) =>
          if |meta.lonList| == 0 then Err(EmptyLongitudes)
          else Ok(Prepared(depths, scale, BoundingBox(meta.lonList, meta.latList)))
  }

  /**
   * One run of the script on parsed inputs: prepare the grid and the scale,
   * then label the cities of the populated-places records inside the extent.
   */
  method PlotDepthMap(meta: Metadata, rows: seq<Row>, opts: Options, records: seq<Place>)
    returns (outcome: Result<Rendering, Error>)
    ensures outcome.Err? <==> Prepare(meta, rows, opts).Err?
    ensures outcome.Err? ==> outcome.error == Prepare(meta, rows, opts).error
    ensures outcome.Ok? ==>
              var p := Prepare(meta, rows, opts).value;
              && outcome.value.depths == p.depths
              && outcome.value.scale == p.scale
              && outcome.value.extent == p.extent
              && outcome.value.cities == Labelled(records, p.extent)
              && outcome.value.citiesPlotted == |outcome.value.cities|
  {
    var prepared := Prepare(meta, rows, opts);
    if prepared.Err? {
      return Err(prepared.error);
    }
    var p := prepared.value;
    var drawn, count := LabelCities(records, p.extent);
    return Ok(Rendering(p.depths, p.scale, p.extent, drawn, count));
  }

  /** Four rows in a 2 by 2 grid with ascending latitudes: depths 5, 7, 3, 2 laid out row-major. */
  lemma FourRowExample(rows: seq<Row>, latList: seq<real>)
    requires rows == [[0.0, 0.0, 1.0, 5.0, 9.0], [0.0, 0.0, 0.0, 9.0, 7.0], [0.0, 0.0, 1.0, 3.0, 9.0], [0.0, 0.0, 0.0, 9.0, 2.0]]
    requires latList == [32.0, 42.0]
    ensures DepthMap(rows, 2, 2, latList) == [[Cell(5.0, false), Cell(7.0, false)], [Cell(3.0, false), Cell(2.0, false)]]
    ensures DataMax(DepthMap(rows, 2, 2, latList)) == 7.0
  {
    assert HasDepthColumns(rows);
    assert !NeedsFlip(latList);
    var d := DepthMap(rows, 2, 2, latList);
    assert RowDepth(rows[0]) == 5.0 && RowDepth(rows[1]) == 7.0;
    assert RowDepth(rows[2]) == 3.0 && RowDepth(rows[3]) == 2.0;
    DepthMapCell(rows, 2, 2, latList, 0, 0);
    DepthMapCell(rows, 2, 2, latList, 0, 1);
    DepthMapCell(rows, 2, 2, latList, 1, 0);
    DepthMapCell(rows, 2, 2, latList, 1, 1);
    assert d[0] == [Cell(5.0, false), Cell(7.0, false)];
    assert d[1] == [Cell(3.0, false), Cell(2.0, false)];
    assert IsUnmaskedMax(d, 7.0) by {
      assert d[0][1] == Cell(7.0, false);
    }
    assert !AllMasked(d) by {
      assert !d[0][0].masked;
    }
    UnmaskedMaxUnique(d, 7.0, DataMax(d));
  }

  /** A 10 by 10 grid with 99 data rows stops with a size mismatch. */
  lemma ShortTableExample()
    ensures
      var rows := seq(99, _ => [0.0, 0.0, 1.0, 5.0, 9.0]);
      var meta := Metadata([32.0, 42.0], [-124.0, -114.0], 10, 10, map["max depth" := 8000.0]);
      Prepare(meta, rows, Options("metadata", None)) == Err(SizeMismatch(100, 99))
  {
  }
}
