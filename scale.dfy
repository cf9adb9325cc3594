/**
 * The colour-scale decision of plot_z25.py: the forced downgrade to "datamax"
 * when the metadata has no maximum, then the choice of vmax under the
 * effective mode, with its error exits. vmin is always 0.
 */
module ColorScale {
  import opened Wrappers
  import opened DepthGrid

  /** The values the command line accepts for --scale_mode. */
  const ScaleChoices: seq<string> := ["metadata", "datamax", "user"]

  /** The --scale_mode used when the flag is not given. */
  const DefaultScaleMode: string := "metadata"

  /** The metadata key holding the maximum depth; it is spelled with a space. */
  const MaxDepthKey: string := "max depth"

  /** The colour range handed to the renderer. */
  datatype Scale = Scale(vmin: real, vmax: real)

  /** The ways the scale decision stops the run. */
  datatype ScaleError =
    | MetadataMaxMissing   // metadata mode without a maximum in the metadata
    | UserMaxMissing       // user mode without --user_max
    | InvalidScaleMode     // a mode outside the three known ones

  /** The maximum depth the metadata records, if it has the key spelled with a space. */
  function MetaMax(fields: map<string, real>): (m: Option<real>)
    ensures m.None? <==> MaxDepthKey !in fields
    ensures m.Some? ==> m.value == fields[MaxDepthKey]
  {
    if MaxDepthKey in fields then Some(fields[MaxDepthKey]) else None
  }

  /** The mode in force once a missing metadata maximum has forced "datamax". */
  function EffectiveMode(requested: string, metaMax: Option<real>): (m: string)
    ensures metaMax.Some? ==> m == requested
    ensures metaMax.None? ==> m == "datamax"
    ensures requested in ScaleChoices ==> m in ScaleChoices
  {
    if metaMax.Some? then requested else "datamax"
  }

  /**
   * Every cell of g is masked (true of a grid without cells). A run never
   * reaches the scale with an empty grid: it has at least two data rows and
   * exactly nx * ny of them, so the empty case is not the script's behaviour.
   */
  predicate AllMasked(g: Grid<Cell>)
  {
    forall r, c :: 0 <= r < |g| && 0 <= c < |g[r]| ==> g[r][c].masked
  }

  /** m bounds every unmasked cell of g from above and is the value of one of them. */
  ghost predicate IsUnmaskedMax(g: Grid<Cell>, m: real)
  {
    && (forall r, c :: 0 <= r < |g| && 0 <= c < |g[r]| && !g[r][c].masked ==> g[r][c].value <= m)
    && CellOf(Cell(m, false), g)
  }

  /** A grid has at most one greatest unmasked value. */
  lemma UnmaskedMaxUnique(g: Grid<Cell>, a: real, b: real)
    requires IsUnmaskedMax(g, a) && IsUnmaskedMax(g, b)
    ensures a == b
  {
    var ra, ca :| 0 <= ra < |g| && 0 <= ca < |g[ra]| && Cell(a, false) == g[ra][ca];
    var rb, cb :| 0 <= rb < |g| && 0 <= cb < |g[rb]| && Cell(b, false) == g[rb][cb];
    assert a <= b && b <= a;
  }

  /** The greatest value among the unmasked cells of a flat sequence, None when all are masked. */
  function MaxUnmasked(cells: seq<Cell>): (m: Option<real>)
    ensures m.None? <==> forall i :: 0 <= i < |cells| ==> cells[i].masked
    ensures m.Some? ==> forall i :: 0 <= i < |cells| && !cells[i].masked ==> cells[i].value <= m.value
    ensures m.Some? ==> Cell(m.value, false) in cells
  {
    if cells == [] then None
    else
      var rest := MaxUnmasked(cells[1..]);
      if cells[0].masked then rest
      else if rest.None? || rest.value <= cells[0].value then Some(cells[0].value)
      else rest
  }

  /** The maximum of the masked grid: 0 when every cell is masked, else the greatest unmasked value. */
  function DataMax(g: Grid<Cell>): (vmax: real)
    ensures AllMasked(g) ==> vmax == 0.0
    ensures !AllMasked(g) ==> IsUnmaskedMax(g, vmax)
  {
    if AllMasked(g) then 0.0
    else
      FlattenMembers(g);
      var m := MaxUnmasked(Flatten(g));
      assert m.Some? by {
        var r, c :| 0 <= r < |g| && 0 <= c < |g[r]| && !g[r][c].masked;
        assert g[r][c] in Flatten(g);
      }
      var k :| 0 <= k < |Flatten(g)| && Flatten(g)[k] == Cell(m.value, false);
      assert CellOf(Flatten(g)[k], g);
      m.value
  }

  /** The colour range under the given mode (lines 80-100 of the script). */
  function ResolveScale(mode: string, metaMax: Option<real>, depths: Grid<Cell>, userMax: Option<real>): (r: Result<Scale, ScaleError>)
    ensures r.Ok? ==> r.value.vmin == 0.0
    ensures mode == "metadata" ==>
              if metaMax.Some? then r.Ok? && r.value.vmax == metaMax.value else r == Err(MetadataMaxMissing)
    ensures mode == "datamax" ==> r.Ok? && (AllMasked(depths) ==> r.value.vmax == 0.0)
    ensures mode == "datamax" && !AllMasked(depths) ==> r.Ok? && IsUnmaskedMax(depths, r.value.vmax)
    ensures mode == "user" ==>
              if userMax.Some? then r.Ok? && r.value.vmax == userMax.value else r == Err(UserMaxMissing)
    ensures r == Err(InvalidScaleMode) <==> mode !in ScaleChoices
  {
    if mode == "metadata" then
      if metaMax.None? then Err(MetadataMaxMissing) else Ok(Scale(0.0, metaMax.value))
    else if mode == "datamax" then
      Ok(Scale(0.0, DataMax(depths)))
    else if mode == "user" then
      if userMax.None? then Err(UserMaxMissing) else Ok(Scale(0.0, userMax.value))
    else
      Err(InvalidScaleMode)
  }

  /** Without a metadata maximum the scale is the data maximum, whatever mode was asked for. */
  lemma MissingMaxForcesDataMax(requested: string, depths: Grid<Cell>, userMax: Option<real>)
    ensures ResolveScale(EffectiveMode(requested, None), None, depths, userMax) == Ok(Scale(0.0, DataMax(depths)))
  {
  }

  /** After the downgrade the "metadata mode without a maximum" exit can never be taken. */
  lemma MetadataMaxErrorUnreachable(requested: string, metaMax: Option<real>, depths: Grid<Cell>, userMax: Option<real>)
    ensures ResolveScale(EffectiveMode(requested, metaMax), metaMax, depths, userMax) != Err(MetadataMaxMissing)
  {
  }

  /** A mode the command line accepts never takes the "invalid mode" exit. */
  lemma AcceptedModesAreValid(requested: string, metaMax: Option<real>, depths: Grid<Cell>, userMax: Option<real>)
    requires requested in ScaleChoices
    ensures ResolveScale(EffectiveMode(requested, metaMax), metaMax, depths, userMax) != Err(InvalidScaleMode)
  {
  }

  /**
   * A metadata file that spells the key "max_depth", as the help text and the
   * warning do, has no maximum for the script: the mode falls back to "datamax".
   */
  lemma UnderscoreKeyForcesDataMax(fields: map<string, real>, requested: string)
    requires "max_depth" in fields && MaxDepthKey !in fields
    ensures EffectiveMode(requested, MetaMax(fields)) == "datamax"
  {
  }

  /** A run with the default --scale_mode always settles its scale: the metadata maximum, or the data maximum without one. */
  lemma DefaultModeSettles(metaMax: Option<real>, depths: Grid<Cell>, userMax: Option<real>)
    ensures DefaultScaleMode in ScaleChoices
    ensures ResolveScale(EffectiveMode(DefaultScaleMode, metaMax), metaMax, depths, userMax).Ok?
    ensures ResolveScale(EffectiveMode(DefaultScaleMode, metaMax), metaMax, depths, userMax).value.vmax ==
              if metaMax.Some? then metaMax.value else DataMax(depths)
  {
  }

  /** The data maximum does not depend on the orientation of the grid. */
  lemma DataMaxIgnoresFlip(g: Grid<Cell>)
    ensures DataMax(FlipUd(g)) == DataMax(g)
  {
    var f := FlipUd(g);
    var n := |g|;
    assert AllMasked(f) <==> AllMasked(g) by {
      forall r, c | 0 <= r < n && 0 <= c < |g[r]|
        ensures g[r][c] == f[n - 1 - r][c]
      {
      }
    }
    if !AllMasked(g) {
      var m := DataMax(g);
      assert IsUnmaskedMax(f, m) by {
        var r, c :| 0 <= r < n && 0 <= c < |g[r]| && Cell(m, false) == g[r][c];
        assert f[n - 1 - r] == g[r];
        assert Cell(m, false) == f[n - 1 - r][c];
      }
      UnmaskedMaxUnique(f, m, DataMax(f));
    }
  }
}
