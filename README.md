# Z2.5 depth map: grid preparation, colour scale and city labels

This project models the computational core of `plot_z25.py`. That script draws
a heat map of Z2.5 values over a Mercator map of California. Z2.5 is the depth
at which the shear-wave velocity reaches 2.5 km/s. The model covers the steps
of `main()` that decide what is handed to the renderer:

- **Depth extraction.** Each data row yields one depth: column 3 when column 2
  is exactly 1, column 4 otherwise (`DepthGrid.Depths`).
- **Size check and row-major reshape** into `ny` rows of `nx` cells
  (`DepthGrid.Reshape`).
- **No-data masking.** A cell is masked exactly when its value is `-1.0`
  (`DepthGrid.MaskedEqual`).
- **Orientation.** The grid is flipped top-to-bottom unless the first latitude
  is strictly below the last (`DepthGrid.Orient`).
- **Colour scale.** A metadata file without the `"max depth"` key forces the
  mode to `datamax`. `vmax` is then the metadata maximum, the greatest unmasked
  value (0 when every cell is masked) or `--user_max`, with the script's error
  exits. `vmin` is always 0 (`ColorScale.ResolveScale`).
- **Map extent and city labels.** The extent is the bounding box of the
  coordinate lists. The loop over populated places skips "Oakland" and keeps
  places with `POP_MAX` of at least 500000 that lie inside the box, borders
  included. It counts what it draws (`CityLabels.LabelCities`).
- **The run.** `PlotPipeline.Prepare` chains these steps in the script's order.
  It ends in an `Err` at the first fatal condition. `PlotPipeline.PlotDepthMap`
  then adds the city loop.

Modules: `Wrappers` (Option, Result), `DepthGrid` (`grid.dfy`), `ColorScale`
(`scale.dfy`), `CityLabels` (`cities.dfy`) and `PlotPipeline` (`pipeline.dfy`).
The numpy steps build new arrays, so they are functions on sequences. The city
loop updates a counter, so it is a method whose loop invariant ties the counter
and the drawn places to a filter over the records processed so far.

Inputs arrive already parsed:
- the metadata is a record of lists, sizes and its numeric fields;
- the data table is a sequence of rows of `real`;
- the populated-places file is a sequence of `(name, POP_MAX option, lon, lat)`;
- the options are `--scale_mode` (a string) and `--user_max`.

### Behaviour of the script worth knowing

- The metadata key read at `plot_z25.py:47` is `"max depth"`, with a space.
  The help text (line 16) and the warning (line 50) both say `max_depth`. A
  file that only has `max_depth` therefore falls back to `datamax`.
- The help text of `--user_max` (line 22) ties it to `scale_mode=user`, but
  the argument parser does not require it. The script stops only at line 92,
  and only when the metadata has a maximum. Without one, the mode is already
  `datamax` and `--user_max` is ignored.
- Besides the row-count check, the script fails in several other ways. Each is
  an `Err` in `Prepare`:
  - an empty latitude list: `.min()` at line 54 fails;
  - fewer than two data rows: `np.loadtxt` returns a one-dimensional array, so
    `data[:,2]` fails;
  - rows without column 4;
  - negative `nx`/`ny` whose product matches the row count: the reshape at
    line 70 refuses them;
  - an empty longitude list: line 108 fails.

## Model

| member | source | states |
|---|---|---|
| DepthGrid.Depths | plot_z25.py:60-64 | one depth per data row, in row order; entry i is column 3 of row i when its column 2 equals 1, else column 4 |
| DepthGrid.DepthsAppend | plot_z25.py:60-64 | extraction is row-local: the depths of two tables joined are the two depth sequences joined |
| DepthGrid.Reshape | plot_z25.py:70 | the reshaped grid has exactly ny rows of exactly nx cells |
| DepthGrid.ReshapeAt | plot_z25.py:70 | row-major layout: cell (r, c) is flat entry r*nx + c, which is in range |
| DepthGrid.FlattenReshape | plot_z25.py:70 | reshaping loses and reorders nothing: reading the grid back row by row gives the flat sequence |
| DepthGrid.ReshapeFlatten | plot_z25.py:70 | conversely, every ny-by-nx grid is the reshape of its own cells read row by row |
| DepthGrid.MaskedEqual | plot_z25.py:71 | same shape; a cell is masked exactly when its value equals the given value (-1.0 at the call); every value is kept |
| DepthGrid.MaskKeepsData | plot_z25.py:71 | the data under the mask is the grid that was masked |
| DepthGrid.FlattenMasked | plot_z25.py:71 | masking works cell by cell: reading the masked grid row by row gives the row-by-row values, each masked exactly when it equals the given value |
| DepthGrid.FlipUd | plot_z25.py:76 | same number of rows; row i of the result is row n-1-i of the input |
| DepthGrid.FlipUdInvolutive | plot_z25.py:76 | flipping twice restores the grid |
| DepthGrid.FlipUdShape | plot_z25.py:76 | flipping keeps an ny-by-nx shape |
| DepthGrid.FlipUdPermutes | plot_z25.py:76 | flipping keeps the multiset of cells, with their values and mask flags |
| DepthGrid.MaskFlipCommute | plot_z25.py:71-76 | masking then flipping equals flipping then masking |
| DepthGrid.Orient | plot_z25.py:74-76 | the grid is unchanged when lat_list[0] < lat_list[-1]; otherwise it is flipped, so equal endpoints also flip |
| ColorScale.MaxUnmasked | plot_z25.py:86-90 | None exactly when every cell is masked; otherwise the result bounds every unmasked value and is one of them |
| ColorScale.DataMax | plot_z25.py:86-90 | 0 when every cell is masked; otherwise the greatest unmasked value: at least every unmasked cell and equal to one of them |
| ColorScale.UnmaskedMaxUnique | plot_z25.py:86-90 | the greatest unmasked value is unique, so the datamax scale is determined by the grid |
| ColorScale.DataMaxIgnoresFlip | plot_z25.py:74-90 | the datamax scale does not depend on whether the grid was flipped |
| ColorScale.MetaMax | plot_z25.py:47-52 | the metadata maximum is present exactly when the key "max depth" (with a space) is, and then it is that key's value |
| ColorScale.EffectiveMode | plot_z25.py:47-52 | the requested mode when the metadata has a maximum, else "datamax"; an accepted mode stays accepted |
| ColorScale.UnderscoreKeyForcesDataMax | plot_z25.py:16-52 | a metadata file with only the "max_depth" spelling of the help text and the warning is run in datamax mode, whatever was requested |
| ColorScale.ResolveScale | plot_z25.py:80-100 | vmin is 0. metadata: vmax is the metadata maximum, or an error when it is absent. datamax: always succeeds with the data maximum. user: vmax is --user_max, or an error when it is absent. The invalid-mode error occurs exactly for a mode outside the three choices |
| ColorScale.MissingMaxForcesDataMax | plot_z25.py:47-52 | without the "max depth" key the scale is (0, data maximum), whatever mode and --user_max were requested |
| ColorScale.MetadataMaxErrorUnreachable | plot_z25.py:80-83 | after the downgrade at line 51 the "metadata mode but no maximum" exit is never taken |
| ColorScale.AcceptedModesAreValid | plot_z25.py:96-98 | for any mode the parser accepts (line 20), the invalid-mode exit is never taken |
| ColorScale.DefaultModeSettles | plot_z25.py:20 | the default mode is one of the accepted choices, and a run with it always settles a scale: the metadata maximum when present, else the data maximum |
| CityLabels.Min | plot_z25.py:108-109 | the least element of a non-empty list: a member of it, at most every element |
| CityLabels.Max | plot_z25.py:108-109 | the greatest element of a non-empty list: a member of it, at least every element |
| CityLabels.BoundingBox | plot_z25.py:108-109 | the extent contains every listed longitude and latitude, and each bound is one of the listed values |
| CityLabels.IsMajorIsThreshold | plot_z25.py:152 | "POP_MAX present, truthy and at least 500000" is the same as "present and at least 500000" |
| CityLabels.LabelledSound | plot_z25.py:147-158 | every drawn place is not Oakland, has POP_MAX of at least 500000 and lies in the inclusive box; at most one label per record |
| CityLabels.LabelledExactlyOnce | plot_z25.py:147-158 | a place that passes the tests is drawn as often as the reader yields it; any other place, Oakland included, is never drawn |
| CityLabels.LabelCities | plot_z25.py:146-158 | the loop draws exactly the qualifying records in reader order, and its counter equals the number drawn |
| PlotPipeline.DepthMapCell | plot_z25.py:60-76 | cell (i, j) of the final grid shows the depth of data row r*nx + j and is masked exactly when that depth is -1.0; r is ny-1-i when the grid was flipped, else i |
| PlotPipeline.DepthMapCells | plot_z25.py:60-76 | the same for every cell, and the final grid has ny rows of nx cells |
| PlotPipeline.DepthMap | plot_z25.py:60-76 | the grid built from the rows has ny rows of nx cells |
| PlotPipeline.DepthMapKeepsDepths | plot_z25.py:60-76 | the cells of the map are exactly the extracted depths, each once, masked when equal to -1.0: only their arrangement depends on orientation |
| PlotPipeline.Prepare | plot_z25.py:42-109 | each fatal condition gives its own error, in the script's order, so a row count other than nx*ny yields a size mismatch with no grid or scale. Success holds exactly when none of them applies. Then the grid is ny by nx, built cell by cell from the rows; vmin is 0; vmax follows the effective mode; the extent is the bounding box of the lists |
| PlotPipeline.PlotDepthMap | plot_z25.py:42-160 | a run fails exactly when Prepare does, with its error. Otherwise it hands over Prepare's grid, scale and extent, draws the qualifying cities in order, and reports their count |
| PlotPipeline.FourRowExample | plot_z25.py:60-76 | rows with flags 1, 0, 1, 0 and ascending latitudes give the grid [[5, 7], [3, 2]] with data maximum 7 |
| PlotPipeline.ShortTableExample | plot_z25.py:66-68 | a 10 by 10 grid with 99 rows stops with a size mismatch (expected 100, got 99) |

## Left out

- Argument parsing (argparse), JSON loading and the numeric parsing of the data file. The model takes the parsed values as inputs. The one effect of `np.loadtxt` that is kept is that fewer than two rows give a one-dimensional array.
- `--cmap`, `--alpha`, `--title` and `--output_file`. They only reach the renderer.
- All rendering: the Mercator projection, the extent setting, the base layers, the roads layer and its try/except, `imshow` with bilinear interpolation, the colour bar, the title, and `savefig` with its caught error. These are calls into cartopy and matplotlib with no result that can be stated. The extent is modelled only as the value computed for them.
- Shapefile access. The populated-places records are an input sequence.
- The `+0.1` offset of each label. It is display arithmetic on floats.
- Logging. A message followed by `return`, and an uncaught exception, both become an `Err`.
- IEEE-754 behaviour such as NaN comparisons and the NaN rules of `min` and `max`. Values are `real`, and `POP_MAX` is an integer.
- PlotPipeline.Prepare: does not model how a ragged data file, which `np.loadtxt` rejects, is loaded. Rows of different widths are accepted as long as each has column 4.
