# qgc2dji conversion core in Dafny

`qgc2dji.py` converts a QGroundControl survey plan into rows for the
DJI GO 4 "waypoints 2.0" SQLite datastore: one mission row and one
waypoint row per transect point. This project models the conversion
core between reading the plan and writing the rows, and proves what
it produces:

- **Survey-item selection.** The survey data comes from the *first* item
  that has a `TransectStyleComplexItem` key. If there is no such item, or
  its value is falsy, the conversion fails with `MissingMissionData`.
- **Fallback chains with Python truthiness.** An explicit `0.0`, or an
  empty name, falls through to the next step, as `if not x` does.
  - Altitude: the explicit value, else `CameraCalc.DistanceToSurface`.
  - Cruise speed: the explicit value, else `params[1]` of the first item
    with `command == 178`, else 3.5.
  - Mission name: the explicit value, else `qgc2dji-survey_` followed by
    the time string.
- **Mission-id generation.** The id is the first random draw that is not
  an existing id. Draws lie in 10000..99998.
- **The waypoint loop.** Row `i` gets `myIndex == i`, point `i`'s latitude
  and longitude, the shared altitude and mission id, and the fixed
  per-waypoint defaults. The loop also adds up the route length over
  consecutive pairs of points.
- **Mission-row assembly.** The mission row holds the fixed defaults,
  `pointCount` (the number of points) and `routDistance` (the
  accumulated length).

Modules:

- `Wrappers` (wrappers.dfy): `Option` and `Result`.
- `JsonValues` (json.dfy): decoded JSON values, with Python's truth value
  and the subscripts the script uses.
- `Search` (search.dfy): first-matching-element search. It is the
  specification of the script's `for ... break` scans.
- `Geo` (geo.dfy): path length over positions for an abstract distance
  function.
- `Dji` (dji.dfy): the two row shapes and their fixed default values.
- `Qgc2Dji` (qgc2dji.dfy): the conversion steps and the whole conversion.

Several inputs are passed in as parameters: haversine is a distance-function
parameter `dist`, the random draws are a sequence, the existing mission ids
are a set, and the clock readings are a time string and an update time.

Two details of the code that its help text or comments could suggest otherwise:

- `randrange(10000, 99999)` excludes 99999, so ids lie in 10000..99998.
- The `--finishaction` help text (qgc2dji.py:59) lists 0..4, but nothing in
  the code checks the value; `finishedAction` is the argument as given.

## Model

| member | source | states |
|---|---|---|
| `Search.First` | qgc2dji.py:82-85 | the index it returns points at an element with the property and no earlier element has it; when it returns nothing, no element has it |
| `Qgc2Dji.SurveyData` | qgc2dji.py:81-85 | `main_data` is the survey value of the first item that has the key, and null when no item has it |
| `Qgc2Dji.FindSurveyData` | qgc2dji.py:81-85 | the scan loop with `break` yields exactly `SurveyData(items)` |
| `Qgc2Dji.ResolveAltitude` | qgc2dji.py:90-92 | a given non-zero altitude is used verbatim whatever the document holds; a missing or zero one is replaced by `main_data["CameraCalc"]["DistanceToSurface"]`, and the lookup fails when that path is absent |
| `Qgc2Dji.SpeedCommandLookup` | qgc2dji.py:100-104 | there is no speed command exactly when no item has `command == 178`; otherwise the result is `params[1]` of the first such item, or a failure when that subscript would raise |
| `Qgc2Dji.FindSpeedCommand` | qgc2dji.py:100-104 | the scan loop with `break` yields exactly `SpeedCommandLookup(items)` |
| `Qgc2Dji.ResolveSpeed` | qgc2dji.py:97-108 | a given non-zero speed wins; otherwise a truthy command parameter; otherwise 3.5 (a falsy value at either step falls through); a failing `params[1]` lookup aborts; every resolved speed is truthy |
| `Qgc2Dji.ResolveName` | qgc2dji.py:110-113 | a given non-empty name is kept; otherwise the name is `qgc2dji-survey_` plus the time string; the name is never empty |
| `Qgc2Dji.GenerateMissionId` | qgc2dji.py:124-128 | succeeds exactly when some draw is not an existing id; the id is then the first such draw, is not an existing id and lies in 10000..99998 |
| `Qgc2Dji.BuildWaypoints` | qgc2dji.py:130-182 | succeeds exactly when every point has two entries and, when there are two or more points, all of them are numbers; then there is one row per point, row `i` has index `i`, point `i`'s latitude and longitude, the shared altitude and mission id and every waypoint default; the distance is 0 for fewer than two points and otherwise the path length over the points in order |
| `Dji.NewMission` | qgc2dji.py:186-200 | the assembled mission row carries every fixed mission default (custom direction 0, repeat once, maximum speed 8.3, gimbal pitch rotation 1, empty `local`, ...) |
| `Qgc2Dji.Convert` | qgc2dji.py:81-200 | succeeds exactly when the first survey value is truthy, altitude and speed resolve, some draw is not an existing id and the transect points are a list the loop gets through; fails with `MissingMissionData` exactly when the first survey value is missing or falsy; on success the mission id is the first draw not among the existing ids, `pointCount` equals the number of rows, which equals the number of transect points, every row carries that id and the resolved altitude, `routDistance` is the path length of the points (never negative when the distance never is), `autoFlightSpeed`, `missionName` and `finishedAction` are the resolved values and all other fields are the defaults |
| `Geo.PathLengthIsSumOfLegs` | qgc2dji.py:177-182 | the accumulated distance equals the sum over i = 1..n-1 of `dist(p[i-1], p[i])`: strictly consecutive pairs, in input order |
| `Geo.PathLengthAppend` | qgc2dji.py:177-182 | a standalone algebraic fact about the route length, not used by the conversion proofs: concatenating two point sequences adds exactly one leg, from the last point of the first to the first point of the second |
| `Geo.PathLengthNonNegative` | qgc2dji.py:36-39 | with a distance that is never negative, which haversine's `2R·atan2(√a, √(1−a))` never is, the route length is never negative; `Convert` uses it for `routDistance >= 0` |

## Left out

- Haversine's arithmetic (`math.radians`, `sin`, `cos`, `atan2`, `sqrt`, qgc2dji.py:27-39). It is floating point. The distance is an abstract parameter `dist`, and the model keeps only its failure on non-numeric coordinates.
- The numeric route length of the 16-point sample track noted at qgc2dji.py:147-166, about 1825.34 m. It depends on haversine's floating-point formula, which is not modelled.
- Floating-point rounding in the running sum. Distances are `real`. When there are fewer than two points the model's `routDistance` is `0.0`, where the script stores the integer `0`.
- Argument parsing and file-existence checks (qgc2dji.py:50-69). These are I/O. `Args` holds the four optional values the core reads.
- The SQLite connection, `SELECT`, `INSERT`, `commit` and `close` (qgc2dji.py:71-75, 119-122, 223-255). The existing ids are an input set, and the rows to insert are the output.
- JSON decoding and the `['mission']['items']` lookup (qgc2dji.py:79). The items come in as decoded JSON objects.
- `time.strftime` and `time.time` (qgc2dji.py:112, 116). The time string and the update time are parameters.
- `random.randrange` (qgc2dji.py:125, 128). The draws are a parameter.
- Qgc2Dji.GenerateMissionId: the script redraws without bound. The model stops when the supplied draws run out and reports `IdsExhausted`. A run that does not run out behaves like the script.
- The summary printing, the y/n confirmation prompt and the backup copy (qgc2dji.py:203-220, 245). These are interactive or file I/O.
- Python's subscripts on strings, and iteration over a string or an object where the list of transect points is expected. The plan format never uses them. The model treats any non-list used as a list, and any non-object used as an object, as a malformed document. All of the script's uncaught exceptions (`KeyError`, `IndexError`, `TypeError`) become the single error `MalformedDocument`, and no rows are produced.
- Items that are not JSON objects. The plan format's items are always objects.
- NaN: Python treats it as truthy. `real` has no NaN.
