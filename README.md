# Football match events, normalised — a Dafny model

The package turns one match document from a football data feed into
per-category tables: passes, shots, fouls, throw-ins and corner kicks. Every
operation follows the same path. It accepts either the match document itself
or a `[league, match_id]` pair that it fetches. It takes the records of one
incidence category and normalises their coordinates onto a 0–100 pitch. Every
team attacks towards x = 100: second-half rows are reflected and y is flipped.
It copies minute and second out of the clock and sorts by them. It resolves
player and team names. It derives the per-category metrics: the
progressive-pass flag and the shot outcome. The newer revision can also value
passes, throw-ins and corners by expected threat (xT), the gain between the
start and end zones of a threat grid.

Two revisions are modelled: `datafactoryfc/functions.py` (newer) and
`datafactory/functions.py` (older). Their shared helpers are identical up to the
name of the fetch helper that `_match_input_validation` calls (`get_data` in
the newer revision, `get_request` in the older).

| module | file | contents |
|---|---|---|
| `Feed` | `feed.dfy` | the match document, one incidence record, the input shapes, `Option`, `Result` and the error values |
| `Normalize` | `normalize.dfy` | the shared helpers: input dispatch, the coordinate normaliser (an in-place method on an array of rows), the time normaliser (a sorting method), the name resolvers, direct column access |
| `Tables` | `tables.dfy` | the output row shapes, the row builders, the distance test behind the progressive flag |
| `Threat` | `xt.dfy` | the xT stage of the newer revision, generic over the row type |
| `Categories` | `categories.dfy` | how each operation gets its records, and the checks they must pass before any row is built |
| `DataFactoryFC` | `datafactoryfc.dfy` | the newer revision's operations, shot rule and progressive flag |
| `DataFactory` | `datafactory.dfy` | the older revision's operations, shot rule and progressive flag |
| `Revisions` | `revisions.dfy` | what the two revisions compute differently, and what they compute alike |

Modelling choices:

- A raw field is a `Cell`: `Absent` (the record has no such key), `Null`, or a
  value. A frame has a column when at least one record carries the key, even
  as null. Indexing a column the frame lacks is a `KeyError`. This is why
  `get_shots` (newer) accepts shots without `assBy`, while `get_shotmap`
  (older) fails on them.
- Both normalisers run on the frame before any column is checked. So a
  missing `coord` column (the category has no records) or a missing end point
  (key `"2"`) is reported first.
- `sort_values` does not promise how tied rows are ordered. The operations
  therefore promise their table only for *some* timeline of the rows: a
  permutation sorted by `(minute, seconds)`.
- The xT binning (`pd.cut`) is a parameter. It only has to return one in-range
  label per value. It is applied to the scaled columns of the rows the stage
  keeps. The bins therefore depend on that call's own data range, as in the
  source.
- `isinstance(x, int)` holds for a Python bool, so `[league, True]` is
  accepted as a match id.

A category that is present but has no records does not yield an empty table:
`from_dict` of an empty mapping builds a frame with no columns, so
`df['coord']` raises a `KeyError`. The model returns `KeyError("coord")`.

## Model

| member | source | states |
|---|---|---|
| `Normalize.ValidateInput` | datafactoryfc/functions.py:9-21 | a dict is returned as it is; a list of exactly a string and an int (a bool included) is fetched with those two values; every other input is `InvalidMatchInput` |
| `Normalize.NormalizePoint` | datafactoryfc/functions.py:26-44 | a raw point in [-1, 1] lands in [0, 100], and a component is present after normalising exactly when it was before |
| `Normalize.NormalizeRoundTrip` | datafactoryfc/functions.py:26-44 | the normalised point determines the raw point: the inverse map recovers it for either half |
| `Normalize.HalfTwoMirrorsHalfOne` | datafactoryfc/functions.py:36-44 | a second-half point normalises to what the point reflected through the centre does in the first half |
| `Normalize.FirstHalfFormula` | datafactoryfc/functions.py:26-44 | off the second half, x' = (x + 1)·50 and y' = 100 − (y + 1)·50 |
| `Normalize.CoordinateError` | datafactoryfc/functions.py:26-30 | the normaliser succeeds exactly when there is at least one record and, with `has_end`, every record has an end point |
| `Normalize.ProcessCoordinates` | datafactoryfc/functions.py:23-47 | the error is the one above; on success every row of the array now has its normalised start columns, and its end columns only with `has_end`; on failure the array is unchanged |
| `Normalize.SortChronologically` | datafactoryfc/functions.py:56 | the result is a permutation of the rows, sorted by (minute, seconds) |
| `Normalize.ProcessTime` | datafactoryfc/functions.py:49-57 | every row of the array gets minute = t.m and seconds = t.s; the returned table is those rows as a timeline |
| `Normalize.TimelineLength` | datafactoryfc/functions.py:56 | sorting keeps the number of rows |
| `Normalize.Prepared` | datafactoryfc/functions.py:23-57 | row i belongs to record i; its start is the normalised start point, and minute and second are copied; its end is the normalised end point with `has_end`, otherwise absent |
| `Normalize.PreparedMirror` | datafactoryfc/functions.py:36-44 | a whole second-half record, start and end, yields the columns of the first-half record with both points reflected |
| `Normalize.TimelineInPitch` | datafactoryfc/functions.py:23-57 | after both normalisers, raw points in [-1, 1] give start and end columns in [0, 100] on every row |
| `Normalize.Prepare` | datafactory/functions.py:20-54 | the coordinate error, if any, is the result; otherwise the result is a timeline of the normalised rows |
| `Normalize.Digits` | datafactoryfc/functions.py:64-65 | the decimal digits of a natural number: non-empty, and more than one digit exactly from 10 up |
| `Normalize.DigitsRoundTrip` | datafactoryfc/functions.py:64-65 | reading the decimal digits of a natural number back gives the number |
| `Normalize.DecimalRoundTrip` | datafactoryfc/functions.py:64-65 | `int(str(id))` is the id, negative ids included |
| `Normalize.DecimalStringInjective` | datafactoryfc/functions.py:64-65 | distinct player ids are looked up under distinct `str(id)` keys |
| `Normalize.PlayerName` | datafactoryfc/functions.py:59-65 | a null id gives null; the short name is returned exactly when the player, `name` and `shortName` are all present; the lookup never fails |
| `Normalize.TeamName` | datafactoryfc/functions.py:67-74 | the home name when the id is the home id (checked first), else the away name for the away id, else null |
| `Normalize.Incidences` | datafactoryfc/functions.py:149 | a category read by direct indexing fails with `KeyError` exactly when it is missing |
| `Normalize.IncidencesOrEmpty` | datafactoryfc/functions.py:106 | a category read with `.get(key, {})` is empty when missing |
| `Normalize.MissingColumn` | datafactoryfc/functions.py:120-121 | the first column that no record carries, in the order they are read, or none exactly when all are there |
| `Normalize.Admit` | datafactoryfc/functions.py:117-121 | records pass exactly when the coordinate normaliser succeeds and every indexed column exists; the coordinate error comes first |
| `Tables.GoalDistanceSquared` | datafactoryfc/functions.py:123-124 | the squared distance from a point to the goal centre (100, 50) is never negative |
| `Tables.RatioTest` | datafactoryfc/functions.py:123-125 | for the two hypotenuses, the squared test `end² < 0.5625·beginning²` is `beginning > 0 ∧ end / beginning < 0.75`, which is false when a start at (100, 50) divides by zero |
| `Tables.FoulRows` | datafactoryfc/functions.py:197-203 | one foul row per timeline row, in timeline order |
| `Tables.SetPieceRows` | datafactoryfc/functions.py:226-236 | one 10-column row per timeline row, in timeline order and indexed from 0 |
| `Threat.Kept` | datafactoryfc/functions.py:290 | the kept indices are exactly those of the rows with all four coordinates, in strictly increasing order |
| `Threat.DropIncomplete` | datafactoryfc/functions.py:290 | the filtering loop computes exactly those indices |
| `Threat.ScaledColumn` | datafactoryfc/functions.py:285-288 | one scaled value per kept row: x and endX times 1.05, y and endY times 0.68 |
| `Threat.Label` | datafactoryfc/functions.py:292-301 | the label pd.cut gives a kept row on one axis names one of that axis's bins: a grid column for x, a grid row for y |
| `Threat.ZoneOf` | datafactoryfc/functions.py:292-306 | a kept row's start and end zones, read from the labels of its scaled start and end points, name cells of the grid |
| `Threat.BinsOf` | datafactoryfc/functions.py:292-301 | the four bin columns have one label per kept row, each names a cell of the grid, and row k's zones are those `ZoneOf` gives it |
| `Threat.Valuation` | datafactoryfc/functions.py:303-309 | one valued row per kept row, carrying its original frame index and the row itself; its xT is `grid[y2][x2] − grid[y1][x1]` for its own bins, or 0 when the frame has a receiver column and the row's receiver is null |
| `Threat.ValueRows` | datafactoryfc/functions.py:303-309 | the row-wise loop computes that valuation |
| `Threat.XTSpec` | datafactoryfc/functions.py:279-313 | the stage fails (empty binning) exactly when no row has all four coordinates; otherwise its rows are exactly the complete rows, in frame order, each with its own index, and each row's xT is its end cell minus its start cell under the bins of the kept rows, or 0 under the receiver override |
| `Threat.XT` | datafactoryfc/functions.py:279-313 | the method computes the stage |
| `Threat.XTValues` | datafactoryfc/functions.py:285-309 | row k of the result is the k-th kept row; its xT is the threat of the cell its scaled end point is cut into minus that of the cell of its scaled start point, or 0 when the frame has a receiver column and the row's receiver is null |
| `Threat.XTBounded` | datafactoryfc/functions.py:306 | with grid values in [0, top], every xT lies in [−top, top] |
| `Categories.PassRecords` | datafactoryfc/functions.py:106-115 | `MatchDoesntHaveInfo` exactly when `correctPasses` is missing or empty; otherwise the correct passes, followed with `all_passes` by the incorrect ones, so the count is \|correct\| + \|incorrect\| |
| `Categories.PassesInput` | datafactoryfc/functions.py:104-121 | input errors pass through; missing correct passes give `MatchDoesntHaveInfo`; any other failure is a `KeyError` on `"2"`, `plyrId` or `recvId`; a success carries the validated document and admitted pass records, and admitted pass records always succeed |
| `Categories.CategoryInput` | datafactoryfc/functions.py:147-155 | input errors pass through; a missing category is a `KeyError` on its name; an empty one is `KeyError("coord")`; the records are accepted exactly when they pass the coordinate and column checks |
| `Categories.PassTimeline` | datafactoryfc/functions.py:104-121 | run in the source's order, the steps fail as `PassesInput` says, or yield its document and a timeline of its records |
| `Categories.CategoryTimeline` | datafactoryfc/functions.py:147-153 | the same for a directly indexed category |
| `DataFactoryFC.ShotOutcome` | datafactoryfc/functions.py:169-171 | Goal exactly for type codes 9 to 13; On Target exactly for 33; Missed for every other code and for a null type |
| `DataFactoryFC.ProgressiveByRatio` | datafactoryfc/functions.py:123-125 | the flag holds exactly when the receiver is non-null and end / beginning < 0.75 |
| `DataFactoryFC.PassRows` | datafactoryfc/functions.py:120-130 | one pass row per timeline row, in timeline order, carrying the newer flag |
| `DataFactoryFC.ShotRows` | datafactoryfc/functions.py:155-176 | one shot row per timeline row, carrying the newer outcome; `assBy` and `ctchBy` read as null when missing |
| `DataFactoryFC.GetPasses` | datafactoryfc/functions.py:92-135 | fails exactly as `PassesInput` does; otherwise the pass rows of some timeline of the records, put through xT when `with_xT` |
| `DataFactoryFC.GetShots` | datafactoryfc/functions.py:137-177 | fails as its category input does, requiring `plyrId` and `type`; otherwise the shot rows of some timeline |
| `DataFactoryFC.GetFouls` | datafactoryfc/functions.py:179-204 | the same with `has_end` false, requiring `plyrId` and `recvId` |
| `DataFactoryFC.GetSetPieces` | datafactoryfc/functions.py:218-241 | the same with `has_end`, requiring `plyrId`, then xT with no receiver column when `with_xT` |
| `DataFactoryFC.GetThrowIns` | datafactoryfc/functions.py:207-241 | that operation on `throwIn` |
| `DataFactoryFC.GetCorners` | datafactoryfc/functions.py:243-277 | that operation on `cornerKicks` |
| `DataFactoryFC.PassCount` | datafactoryfc/functions.py:106-118 | the pass table has \|correct\| + \|incorrect\| rows with `all_passes`, else \|correct\| |
| `DataFactoryFC.PassesInOrder` | datafactoryfc/functions.py:56 | the pass table is sorted by (minute, seconds) |
| `DataFactoryFC.ProgressiveNeedsReceiver` | datafactoryfc/functions.py:125 | a flagged pass always has a receiver and all four coordinates |
| `DataFactoryFC.PassesOnPitch` | datafactoryfc/functions.py:26-44 | with raw points in [-1, 1], every pass row starts and ends inside [0, 100] |
| `DataFactoryFC.PassThreat` | datafactoryfc/functions.py:303-309 | in a pass frame with xT, row k is the k-th pass with all four coordinates; it is worth 0 without a receiver and otherwise its end cell minus its start cell |
| `DataFactoryFC.SetPieceThreat` | datafactoryfc/functions.py:235 | a throw-in or corner frame with a complete row has xT, and having no receiver column, every kept row is worth its end cell minus its start cell, with no override |
| `DataFactoryFC.CentrePassByHalf` | datafactoryfc/functions.py:36-44 | worked example: a pass from the centre spot to raw (0.8, 0) ends at (90, 50) and is progressive in the first half; in the second half it ends at (10, 50) and is not |
| `DataFactory.ShotOutcome` | datafactory/functions.py:151-153 | Goal exactly for type codes 9, 11 and 13; On Target exactly for 33; Missed otherwise, so 10 and 12 are Missed |
| `DataFactory.ProgressiveByRatio` | datafactory/functions.py:119-121 | the flag holds exactly when end / beginning < 0.75, whoever received the pass |
| `DataFactory.PassRows` | datafactory/functions.py:116-126 | one pass row per timeline row, carrying the older flag |
| `DataFactory.ShotRows` | datafactory/functions.py:147-158 | one shot row per timeline row, carrying the older outcome |
| `DataFactory.GetPasses` | datafactory/functions.py:89-127 | fails exactly as `PassesInput` does; otherwise the pass rows of some timeline |
| `DataFactory.GetShotmap` | datafactory/functions.py:129-159 | fails as its category input does, requiring `plyrId`, `assBy`, `ctchBy` and `type`; otherwise the shot rows of some timeline |
| `DataFactory.GetFouls` | datafactory/functions.py:161-186 | as the newer `get_fouls`: `has_end` false, requiring `plyrId` and `recvId` |
| `DataFactory.GetThrowin` | datafactory/functions.py:189-219 | the 10-column rows of some timeline of `throwIn`, with no xT stage |
| `DataFactory.GetCorners` | datafactory/functions.py:221-251 | the same for `cornerKicks` |
| `DataFactory.ShotmapNeedsAssists` | datafactory/functions.py:148 | a shot list in which no shot carries `assBy` is refused |
| `Revisions.OutcomesDiffer` | datafactoryfc/functions.py:169 | the two goal rules disagree exactly on codes 10 and 12, which the newer counts as Goal and the older as Missed |
| `Revisions.ProgressiveRefines` | datafactoryfc/functions.py:125 | the newer flag is the older flag together with a non-null receiver |
| `Revisions.PassTablesAgree` | datafactoryfc/functions.py:120-130 | row for row, the newer pass table is the older one with the flag cleared on passes without a receiver |
| `Revisions.ShotTablesAgree` | datafactoryfc/functions.py:155-176 | row for row, the shot tables differ only in the outcome |
| `Revisions.ShotInputsWiden` | datafactoryfc/functions.py:157-167 | every shot list the older operation accepts, the newer accepts with the same records |
| `Revisions.UnreceivedPass` | datafactory/functions.py:121 | a pass towards goal with a null receiver is progressive in the older revision only |

## Left out

- The HTTP fetch (`get_data`, datafactoryfc/functions.py:76-90; `get_request`, datafactory/functions.py:73-87) is network I/O. It is the `Fetch` parameter: any function from league and match id to a document or a failure.
- Loading the threat grid from the package's `xTGrid.json` (datafactoryfc/functions.py:280-283) is file I/O. The grid is a parameter, required to be non-empty and rectangular.
- How `pd.cut` places its bin edges (range extension, floating-point edges) is library behaviour. Binning is a `Cut` parameter that only has to give one in-range label per value.
- Floating point and `np.hypot`: coordinates are exact reals. The progressive test is compared on squared distances; `RatioTest` shows that this equals the ratio test on the hypotenuses.
- Pandas mechanics become record construction and field selection: `from_dict` ordering, `concat`, `rename`, the column projection, and copy warnings. So do the writes `_process_coordinates` has already made when it raises: the model's array is unchanged on failure, and the frame is discarded either way.
- How `sort_values` orders rows with the same minute and second is not modelled. The source does not promise it, and the operations promise their table for some sorted permutation.
- Documents not shaped like a match feed are not modelled. This covers a missing `incidences`, `players` or `match` entry, a record without `t`, `team` or start point, a point without an `x` or `y` key, a `name` entry present as null, and a dict input that is not a document. Each of these makes the source raise on access.
- Ids are integers. Pandas turns an id column into floats when it has nulls, and `int()` in `_get_player_name` turns them back. That round trip is not modelled.
- The exception messages (datafactory/exceptions.py) are text only. The two exceptions are values of `Error`.
- Packaging (setup.py) is not part of this model.
