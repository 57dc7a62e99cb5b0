# Vision core of HarkerRobo ImageProcessing2017, modelled in Dafny

This project models the deterministic core of a 2017 FRC vision system. The
system runs on a Raspberry Pi: it finds the two pieces of retro-reflective tape
beside the gear peg, turns their corners into lines, a distance or a pose
input, streams the camera through GStreamer and obeys JSON control messages
from the robot controller. Everything OpenCV, numpy, GStreamer and the socket
layer compute is taken as input. What the Python code itself decides is
modelled and proved:

- **Tape resolver** (`TapeContours`, processing/tapecontours.py). A contour is
  the record of its OpenCV features: area, bounding rectangle, vertex count of the
  4% polygon approximation, and moments. A contour's identity is its index in the
  area-sorted list. The module covers `is_tape`, the `large_tape_piece` loop (a
  method proved against the function `Scan`), and `split_tape_piece`, whose sort
  key and hull are parameters. It also covers the windows of
  `get_tape_contours_and_corners` and the resolution of the second piece (methods).
- **Corner geometry** (`Geometry`, `GearBestFit`, `GearBestFitLegacy`,
  `CameraPosition`). Lines are (m, b) with y = m·x + b, over exact reals. The
  module covers the least-squares fit (proved to be the least-squares line), the
  two-point line, intersections, and top/bottom/left/right corner selection. It
  also covers the older top-level gearbestfitcorners.py and `order_points`. The
  line helpers of processing/gearcontours.py and gearcontours2.py are the same
  code, modelled once in `Geometry`.
- **Contour selectors and matchers** (`GearContours`, `Experiment`,
  `CornerMatching`). `GearContours` covers the "first two 4-gons, the second
  above 90% of the first" loop of processing/gearcontours.py, gearcontours.py
  (the same loop) and gearcontours2.py. `Experiment` covers the validator, the
  weighted score and the best-contour choice of src/main_experiment.py.
  `CornerMatching` covers the greedy corner matcher of tests/processing.py.
- **Stereo reconstruction** (`Stereo`, src/processing/stereo.py:73-111). Eight
  corner pairs give a mean disparity, the corrected distance and the lateral
  offset from column 240.
- **Control messages and the handler** (`Values`, `Messages`, `Handler`).
  - `Values` holds decoded JSON values and insertion-ordered dictionaries.
  - `Messages` covers `parse_message` as written and as intended, plus
    `create_message`.
  - `Handler` covers the `create_gst_handler` closure. It is a class holding the
    current pipeline, with methods `OnStop`, `OnStart` and `HandleMessage`. The
    `gs` module the handler receives is a parameter `Gs`, and `LegacyModule`
    supplies the builders of gstreamer.py.
- **Launch strings** (`GStreamer` for src/gstreamer.py, `GStreamerLegacy` for
  gstreamer.py). A value is a string tagged with whether it is a
  `PipelinePart`. `+` inserts " ! " when either operand is one. The module covers
  the builders, `merge_defaults` and `make_command_line_parsable` (a method with a
  loop).
  - In gstreamer.py, `PipelinePart` (47-61), `Tee` (127-142), `SHMSink`
    (116-125), `SHMSrc` (144-156), `get_cap_value_by_name` and
    `make_command_line_parsable` (172-203) are the same code as in
    src/gstreamer.py. They are modelled once, in `GStreamer`.
  - Each table of defaults is its own.

Where the code and its tests disagree, the model follows the code.
tests/test_messages.py:26-36 expects an 'error' message to parse. As written,
`parse_message` cannot parse it (see Findings). `Messages.ParseMessageAsWritten`
is that parser, and `Messages.ErrorMessageRoundTrip` shows the failure.

## Model

| member | source | states |
|---|---|---|
| `Common.SortBy` | processing/gearbestfitcorners.py:63-65 | Python's `sorted(key=…)`: the result has the input's length and is sorted by the key |
| `Common.SortByBag` | processing/gearbestfitcorners.py:63-65 | `sorted` returns a permutation of its input |
| `Common.SortByStable` | processing/find_camera_position.py:37-41 | `sorted` is stable: the elements of any one key keep their input order |
| `Common.SortBySorted` | processing/gearbestfitcorners.py:63-65 | sorting an already sorted list changes nothing |
| `Common.SortedHeadIsLeast` | processing/gearbestfitcorners.py:94-96 | the first element of a sort has the least key of all elements |
| `Common.SortBySameOrder` | processing/find_camera_position.py:44-47 | two keys that order elements alike give the same sort |
| `Values.Get` | networking/messages.py:60-62 | `d.get(k)` finds a value exactly when `k` is a key |
| `Values.GetAt` | networking/messages.py:60-62 | the value stored at a position is what `d.get` finds for its key, when no earlier entry holds that key |
| `Values.Put` | src/gstreamer.py:228 | after `d[k] = v`, `k` maps to `v`; the dict grows by one entry exactly when `k` was not yet a key |
| `Values.PutGet` | src/gstreamer.py:228 | after `d[k] = v`, `k` maps to `v` and every other key keeps its value |
| `Values.PutKeys` | src/gstreamer.py:228 | an existing key keeps its place, a new key goes last |
| `Values.PutUnique` | src/gstreamer.py:228 | assigning a key never duplicates a key |
| `Values.Merge` | src/gstreamer.py:44 | `dict(d, **e)` holds at least the entries of `d` and at most those of both |
| `Values.MergeGet` | src/gstreamer.py:44 | in `dict(d, **e)` the entries of `e` win and every other entry of `d` stays |
| `Values.MergeKeysPrefix` | networking/messages.py:79 | `dict(d, **e)` keeps `d`'s keys first, in order, and holds exactly the keys of both |
| `Values.NatToString` | src/gstreamer.py:84-86 | `str(n)` is a non-empty run of decimal digits |
| `Values.NatToStringRoundTrip` | src/gstreamer.py:84-86 | the decimal text of a natural number reads back as that number |
| `Values.Str` | src/gstreamer.py:84-86 | `str(v)` as `format` inserts it: a string is itself, a boolean is True or False, a list is bracketed and a dict braced |
| `Values.Repr` | src/gstreamer.py:226-228 | `repr` of a string starts and ends with the same quote and its body unescapes to the string; any other value renders as `str` |
| `Values.StrRepr` | src/gstreamer.py:226-228 | a string's `repr` is at least the two quotes, and both are the quote `QuoteFor` chooses |
| `Values.StrReprRoundTrip` | src/gstreamer.py:226-228 | double quotes exactly when the string holds a single quote and no double quote; the quoted body unescapes to the string |
| `Values.UnescapeChar` | src/gstreamer.py:226-228 | each escaped character unescapes to itself, whatever follows it |
| `Values.EscapeBodyRoundTrip` | src/gstreamer.py:226-228 | escaping a string for either quote and unescaping it gives the string back |
| `Values.VerbatimBody` | src/gstreamer.py:226-228 | characters that are neither the quote, a backslash, a control character nor non-printable Latin-1 are copied unchanged |
| `Values.StrReprApostrophe` | src/gstreamer.py:226-228 | `repr("it's")` is `"it's"`: double quotes, no escape |
| `Values.StrReprBackslash` | src/gstreamer.py:226-228 | `repr('a\\b')` doubles the backslash inside single quotes |
| `Values.Truthy` | src/gstreamer.py:98 | a value equal to 0 is falsy, and a boolean is truthy exactly when it is True |
| `Values.EqualsZero` | src/gstreamer.py:103 | only a number or a boolean can equal 0; strings, lists, dicts and None never do |
| `TapeContours.CornersToTuples` | processing/tapecontours.py:39-41 | one tuple per row, and each row is the one-point list of its tuple |
| `TapeContours.CornersTuplesRoundTrip` | processing/tapecontours.py:39-41 | the conversion and its inverse undo each other, in both directions |
| `TapeContours.Trunc` | processing/tapecontours.py:76-77 | `int()` truncates toward zero: magnitude within one below the real, same sign |
| `TapeContours.Center` | processing/tapecontours.py:72-80 | the sentinel (-1e4, -1e4) exactly when m00 is zero; otherwise the centroid truncated to integers |
| `TapeContours.TapeTargetCorners` | processing/tapecontours.py:43-53 | the four corners (w/2 + 10.25/2, h/2 − 5/2), (w/2 + 10.25/2, h/2 + 5/2), (w/2 − 10.25/2, h/2 + 5/2), (w/2 − 10.25/2, h/2 − 5/2), in that order |
| `TapeContours.AspectRatio` | processing/tapecontours.py:149 | `min(w/h, h/w)` lies in (0, 1] |
| `TapeContours.IsTape` | processing/tapecontours.py:113-160 | fewer than 4 or more than 5 vertices is rejected; on success the corners are the bounding box points |
| `TapeContours.FillBound` | processing/tapecontours.py:143 | `area / w / h < 0.7` is `area < 0.7·w·h` for a positive box |
| `TapeContours.AspectBand` | processing/tapecontours.py:149-154 | the aspect test \|(0.4 − r)/0.4\| < 0.4 holds exactly for 0.24 < r < 0.56 |
| `TapeContours.IsTapeExactly` | processing/tapecontours.py:136-158 | `is_tape` accepts exactly when 4–5 vertices, positive area, at least 70% fill and 0.24 < ratio < 0.56 |
| `TapeContours.IsTapeRejectsSparse` | processing/tapecontours.py:142-144 | zero-area contours and those filling less than 70% of their box are rejected |
| `TapeContours.IsTapeSwap` | processing/tapecontours.py:149-154 | acceptance is unchanged when w and h swap |
| `TapeContours.TapeCorners` | processing/tapecontours.py:155-158 | four corners: the first two share an x, the last two share an x, the middle two share a y, the outer two share a y, and the box they span is w wide and h high |
| `TapeContours.Scan` | processing/tapecontours.py:172-193 | a match is an index into the input, and corners come with a match only |
| `TapeContours.ScanHit` | processing/tapecontours.py:172-193 | the match is the first contour passing `is_tape`, all earlier ones failed it and passed the cutoff, and the rest is what follows |
| `TapeContours.ScanMiss` | processing/tapecontours.py:175-193 | without a match, the rest is a suffix that starts at the contour that tripped the cutoff (or is empty), and all before it passed the cutoff and failed `is_tape` |
| `TapeContours.ScanWithoutReference` | processing/tapecontours.py:172-193 | with no reference and no match, the rest is empty and every contour failed `is_tape` |
| `TapeContours.ScanAt` | processing/tapecontours.py:174-191 | one loop step: stop on the cutoff, return on a match, otherwise continue with the next contour |
| `TapeContours.LargeTapePiece` | processing/tapecontours.py:162-193 | the loop with `break` and early `return` computes exactly `Scan` of its input and reference |
| `TapeContours.Ordered` | processing/tapecontours.py:202-211 | the candidates are a permutation of the input, sorted by the key when there is a reference |
| `TapeContours.SplitTapePiece` | processing/tapecontours.py:195-226 | (None, None) below two candidates; otherwise a result exactly when the hull of the two first-ordered candidates passes the one-element scan, and that hull with its box corners is the result |
| `TapeContours.ScanSingle` | processing/tapecontours.py:216-218 | a one-element `large_tape_piece` stops, matches or misses as the cutoff and `is_tape` decide |
| `TapeContours.SplitUsesLowestKeys` | processing/tapecontours.py:209-215 | the two combined contours are two distinct candidates, and no other candidate has a smaller key |
| `TapeContours.WindowAround` | processing/tapecontours.py:245-252 | centred on the contour's `get_center`; the pad is sqrt(area) times MIN_PAD (1), and the x and y ranges are 10.25 and 5 times sqrt(area / (2·5)), times 1.8 / 2 |
| `TapeContours.LeftIndices` | processing/tapecontours.py:261-266 | the left window list holds indices of the sorted list only |
| `TapeContours.RightIndices` | processing/tapecontours.py:261-268 | the right window list holds indices of the sorted list only |
| `TapeContours.Gather` | processing/tapecontours.py:258-268 | the contours at the given indices, in order |
| `TapeContours.LeftMembers` | processing/tapecontours.py:261-266 | an index is in the left list exactly when it is not the primary and its centre is in the rows and the left window |
| `TapeContours.RightMembers` | processing/tapecontours.py:261-268 | an index is in the right list exactly when it is not the primary and its centre is in the rows and the right window |
| `TapeContours.WindowsDisjoint` | processing/tapecontours.py:258-268 | for any non-negative square root of the primary's area, the primary is in neither list and no contour is in both |
| `TapeContours.ByAreaDescending` | processing/tapecontours.py:234 | a permutation of the contours in non-increasing area |
| `TapeContours.MatchHasArea` | processing/tapecontours.py:238-241 | a primary match always has positive area, so the `contourArea > 0` test never fails after a match |
| `TapeContours.CollectWindows` | processing/tapecontours.py:258-268 | the loop appends exactly the left and right window candidates, in sorted order |
| `TapeContours.ResolveSecondary` | processing/tapecontours.py:270-286 | the left merge first, else the right merge, else an isolated `large_tape_piece` over the rest; at most one extra piece |
| `TapeContours.GetTapeContoursAndCorners` | processing/tapecontours.py:228-293 | equally long lists of at most two; empty exactly when no contour passes `is_tape`; the first entry is the first `is_tape` contour by descending area, and the second follows the left/right/isolated order |
| `Geometry.MomentsCount` | processing/gearbestfitcorners.py:27-29 | the point count of the fit's sums is the number of corners |
| `Geometry.Residual` | processing/gearbestfitcorners.py:21-29 | a corner's vertical error is zero exactly when it lies on the line |
| `Geometry.SquaredErrorBounds` | processing/gearbestfitcorners.py:21-29 | the squared error is never negative, and zero for a line through every corner |
| `Geometry.SameXMoments` | processing/gearbestfitcorners.py:21-29 | corners sharing x = c have Σx = n·c and Σx² = n·c² |
| `Geometry.SameXNoFit` | processing/gearbestfitcorners.py:21-29 | corners sharing one x have no degree-1 fit |
| `Geometry.Fit` | processing/gearbestfitcorners.py:21-29 | the closed form solves the normal equations of the degree-1 fit |
| `Geometry.CornerLine` | processing/gearbestfitcorners.py:21-29 | `get_corner_line` solves the least-squares normal equations of its corners |
| `Geometry.NormalEquationsUnique` | processing/gearbestfitcorners.py:21-29 | when the corners do not share one x, the normal equations have only one solution |
| `Geometry.OnLineNormalEquations` | processing/gearbestfitcorners.py:21-29 | a line through every corner solves the normal equations |
| `Geometry.CornerLineExact` | processing/gearbestfitcorners.py:21-29 | corners on one non-vertical line are fitted by exactly that line |
| `Geometry.SquaredErrorMoments` | processing/gearbestfitcorners.py:21-29 | the squared error of a line, computed from the sums, equals the sum over the corners |
| `Geometry.ShiftEnergyNonNegative` | processing/gearbestfitcorners.py:21-29 | the error added by moving away from the fit is never negative |
| `Geometry.ErrorShift` | processing/gearbestfitcorners.py:21-29 | the error of any line is the error of the fit plus that non-negative shift term |
| `Geometry.CornerLineIsLeastSquares` | processing/gearbestfitcorners.py:21-29 | no line has a smaller squared error than `get_corner_line`'s |
| `Geometry.TwoCornerLine` | processing/gearbestfitcorners.py:31-45 | for x1 ≠ x2, the line passes through both corners and is the only line that does |
| `Geometry.IntersectionPoint` | processing/gearbestfitcorners.py:47-57 | for m ≠ n, the point lies on both lines and is the only such point |
| `Geometry.IntersectionPoints` | processing/gearbestfitcorners.py:109-123 | one corner per line; corner i lies on line i and on line (i+1) mod n |
| `Geometry.Crossing` | processing/gearbestfitcorners.py:115-117 | the crossing of line i with its successor lies on both |
| `Geometry.TargetCorners` | processing/gearcontours.py:71-81 | the target rectangle is centred on the image: opposite corners sum to (w, h), with the given width and height and axis-parallel sides |
| `GearBestFit.TopPairs` | processing/gearbestfitcorners.py:63-64 | one two-least-y pair per rectangle |
| `GearBestFit.BottomRests` | processing/gearbestfitcorners.py:71-72 | the remaining corners of each rectangle |
| `GearBestFit.TopCorners` | processing/gearbestfitcorners.py:59-65 | `get_top_corners` is sorted by x and holds exactly every rectangle's top pair |
| `GearBestFit.BottomCorners` | processing/gearbestfitcorners.py:67-73 | `get_bottom_corners` is sorted by x and holds exactly every rectangle's other corners |
| `GearBestFit.TopAboveBottom` | processing/gearbestfitcorners.py:63-72 | within a rectangle no top corner lies below a bottom corner |
| `GearBestFit.TopBottomPartition` | processing/gearbestfitcorners.py:59-73 | top and bottom corners together are exactly the corners of all rectangles |
| `GearBestFit.PairsRestsBag` | processing/gearbestfitcorners.py:63-72 | each rectangle splits into its top pair and its rest |
| `GearBestFit.CornerCounts` | processing/gearbestfitcorners.py:59-73 | with four corners per rectangle, both lists hold two per rectangle |
| `GearBestFit.SortedRects` | processing/gearbestfitcorners.py:94 | the rectangles, permuted into ascending first-corner x |
| `GearBestFit.LeftLine` | processing/gearbestfitcorners.py:96-99 | the left line passes through both corners of the left pair |
| `GearBestFit.RightLine` | processing/gearbestfitcorners.py:97-100 | the right line passes through both corners of the right pair |
| `GearBestFit.GetLines` | processing/gearbestfitcorners.py:75-107 | [top, right, bottom, left]: the least-squares lines of the top and bottom corners and the two-point lines of the outer pairs |
| `GearBestFit.GetLinesSides` | processing/gearbestfitcorners.py:94-97 | the left pair is the two smallest-x corners of the rectangle with the smallest first x; the right pair is the two largest-x corners of the next one |
| `GearBestFit.PairIsLeast` | processing/gearbestfitcorners.py:96-97 | the first two of a sort are elements of the input with the least keys |
| `GearBestFit.OutsideCorners` | processing/gearbestfitcorners.py:125-130 | four corners, each on two neighbouring lines of `get_lines` |
| `GearBestFit.BoxPairsVertical` | processing/gearbestfitcorners.py:96-97 | for a bounding-box corner set, both outer pairs share their x |
| `GearBestFit.SortBoxDescending` | processing/gearbestfitcorners.py:97 | the descending x sort of a bounding box corner set, worked out |
| `GearBestFit.TapeBoxesBreakGetLines` | processing/gearbestfitcorners.py:96-100 | for two or more `is_tape` corner sets, the x1 ≠ x2 precondition of `get_lines` never holds |
| `GearBestFit.TapeBoxes` | processing/tapecontours.py:155-158 | one bounding-box corner set per `is_tape` contour, in order |
| `GearBestFit.TapePairsVertical` | processing/gearbestfitcorners.py:94-97 | for two or more `is_tape` corner sets, both outer pairs of `get_lines` share their x |
| `GearBestFit.GetLinesAsWritten` | processing/gearbestfitcorners.py:75-107 | `get_lines` raises `ZeroDivisionError` exactly when the left or the right pair shares its x; otherwise it returns `GetLines` |
| `GearBestFit.TapeBoxesRaise` | processing/gearbestfitcorners.py:37-40 | for two or more `is_tape` corner sets, both pairs are vertical and `get_lines` raises `ZeroDivisionError` |
| `GearBestFit.SideThrough` | processing/gearbestfitcorners.py:31-45 | the side through two corners contains both, and is the vertical x = c exactly when they share x |
| `GearBestFit.Meet` | processing/gearbestfitcorners.py:47-57 | two crossing sides share the returned point |
| `GearBestFit.MeetUnique` | processing/gearbestfitcorners.py:47-57 | it is the only point on both sides |
| `GearBestFit.GetSides` | processing/gearbestfitcorners.py:75-107 | [top, right, bottom, left]: top and bottom solve the least-squares equations, right and left pass through their pairs and are vertical exactly when a pair shares x |
| `GearBestFit.SideCorners` | processing/gearbestfitcorners.py:109-123 | four corners; corner i lies on side i and on side (i+1) mod 4 |
| `GearBestFit.SideCornersOfLines` | processing/gearbestfitcorners.py:109-123 | for four sloped sides, the side corners are exactly `get_intersection_points` of their lines |
| `GearBestFit.OutsideCornersCorrected` | processing/gearbestfitcorners.py:125-130 | four corners, each on two neighbouring sides |
| `GearBestFit.CorrectedAgrees` | processing/gearbestfitcorners.py:75-130 | wherever `get_lines` is defined, the corrected sides are its lines and the corrected corners are `get_outside_corners`'s |
| `GearBestFit.TapeBoxesCorrected` | processing/gearbestfitcorners.py:75-130 | for `is_tape` corner sets the left and right sides are vertical, all sides cross, and the right corners lie at the right pair's x and the left ones at the left pair's |
| `GearBestFitLegacy.BottomPairs` | gearbestfitcorners.py:20-21 | one two-greatest-y pair per rectangle |
| `GearBestFitLegacy.CornerCounts` | gearbestfitcorners.py:18-21 | with four corners per rectangle, both lists hold two per rectangle |
| `GearBestFitLegacy.BottomPairIsLowest` | gearbestfitcorners.py:20-21 | the bottom pair is drawn from the rectangle and no other corner has a greater y |
| `GearBestFitLegacy.TiedRowsOverlap` | gearbestfitcorners.py:18-21 | with all y tied, the top and bottom pairs are the same first two corners |
| `GearBestFitLegacy.GetLines` | gearbestfitcorners.py:14-48 | [top, right, bottom, left] built from these top and bottom lists and the same outer pairs |
| `GearBestFitLegacy.GearCorners` | gearbestfitcorners.py:50-62 | four corners; the i-th lies on lines i and (i+1) mod 4 |
| `GearBestFitLegacy.GearCornersUnique` | gearbestfitcorners.py:54-56 | each corner is the only point on both of its lines |
| `GearBestFitLegacy.IntersectionUnique` | gearbestfitcorners.py:56 | two non-parallel lines share at most one point |
| `CameraPosition.OrderPoints` | processing/find_camera_position.py:36-49 | at least two points are needed; the result has the input's length |
| `CameraPosition.OrderPointsPermutation` | processing/find_camera_position.py:36-49 | `order_points` returns a permutation of its input |
| `CameraPosition.SqDistFrom` | processing/find_camera_position.py:44-45 | the squared distance from the top-left point is zero there and never negative |
| `CameraPosition.LeftPairFirst` | processing/find_camera_position.py:37-41 | the first two are the two smallest-x points of the stable x sort, in ascending y, and no later point has a smaller x |
| `CameraPosition.HeadNotRightOfTail` | processing/find_camera_position.py:37-40 | in an x-sorted list, no point of the first two is right of a later point |
| `CameraPosition.RestByDistance` | processing/find_camera_position.py:42-47 | the remaining points come in ascending distance from the second output |
| `CameraPosition.RootsSameOrder` | processing/find_camera_position.py:44-45 | non-negative distances order like their squares |
| `CameraPosition.HypotSameOrder` | processing/find_camera_position.py:44-47 | sorting by the distance is sorting by the squared distance |
| `Experiment.PositiveSides` | src/main_experiment.py:31-50 | a positive contour area makes the hull area, the rectangle and both sides positive, so every division is defined |
| `Experiment.ValidCntExactly` | src/main_experiment.py:31-50 | `valid_cnt` holds exactly when area > 100, solidity > 0.8, aspect > 0.5 and rectangle fill > 0.7 |
| `Experiment.ValidCntSwap` | src/main_experiment.py:41-44 | validity is unchanged when w and h swap |
| `Experiment.WeightedScore` | src/main_experiment.py:82-85 | a convex combination: in [0, 1] when every sub-score is, and equal to a sub-score they all share |
| `Experiment.WeightedScoreMonotone` | src/main_experiment.py:82-85 | raising sub-scores never lowers the total |
| `Experiment.Valid` | src/main_experiment.py:145 | `filter(valid_cnt, cnt)`: the contours at the valid positions, in input order and with their multiplicity, so exactly the valid contours |
| `Experiment.ValidPositions` | src/main_experiment.py:145 | strictly increasing positions of valid contours, and every valid position among them |
| `Experiment.ArgMax` | src/main_experiment.py:148 | `max(key=…)` picks a maximal element, the first of tied maxima |
| `Experiment.BestContour` | src/main_experiment.py:145-148 | None exactly when no contour is valid; otherwise a valid contour whose score no valid contour exceeds |
| `Experiment.BestIsFirstMaximal` | src/main_experiment.py:145-148 | the chosen contour is one at a valid input position whose score no valid contour exceeds and every earlier valid contour scores strictly below |
| `Stereo.DispSum` | src/processing/stereo.py:83-90 | the summed disparity is never negative |
| `Stereo.Process` | src/processing/stereo.py:73-111 | the accumulating loop returns exactly `Reconstruct`: None unless both sides have 8 corners, else the corrected distance of the mean disparity and 240 minus the mean midpoint |
| `Stereo.SumsSymmetric` | src/processing/stereo.py:86-88 | both sums are unchanged when the two lists swap |
| `Stereo.SwapSymmetric` | src/processing/stereo.py:79-111 | swapping the left and right corners leaves the result unchanged |
| `Stereo.Xs` | src/processing/stereo.py:86-88 | the x coordinates, position by position |
| `Stereo.SumsUseOnlyX` | src/processing/stereo.py:83-93 | the sums depend on the x coordinates only |
| `Stereo.OnlyXMatters` | src/processing/stereo.py:79-111 | y coordinates never affect the result |
| `Stereo.DispSumZero` | src/processing/stereo.py:88-90 | the summed disparity is zero exactly when every pair shares its x |
| `Stereo.InfiniteExactlyWithoutDisparity` | src/processing/stereo.py:90-99 | the distance is numpy's inf exactly when every pair shares its x |
| `Stereo.ShiftedSums` | src/processing/stereo.py:88-90 | a uniform shift d gives a summed disparity of n·\|d\| |
| `Stereo.UniformShift` | src/processing/stereo.py:88-99 | a uniform shift d ≠ 0 gives the distance 1.8174·(4241.25/\|d\|) − 8.1707 |
| `CornerMatching.Diffs` | tests/processing.py:45 | the squared distance of each corner of `c2` to the point |
| `CornerMatching.ArgMin` | tests/processing.py:46 | `np.argmin`: a least entry, the first of tied least entries |
| `CornerMatching.Delete` | tests/processing.py:53 | `np.delete` removes exactly one row: length one less, multiset less that row |
| `CornerMatching.CompareCorners` | tests/processing.py:39-53 | a match implies equal lengths |
| `CornerMatching.LengthsDecide` | tests/processing.py:41-44 | different lengths never match, two empty lists always do |
| `CornerMatching.SingleCorners` | tests/processing.py:45-49 | single corners match exactly when within 50 pixels, 50 included |
| `CornerMatching.NearestOfSelf` | tests/processing.py:45-46 | a list's first corner is its own nearest corner |
| `CornerMatching.SelfMatch` | tests/processing.py:39-53 | every corner list matches itself |
| `CornerMatching.FirstHavePartners` | tests/processing.py:39-53 | in a match every corner of the first list has a corner of the second within 50 pixels |
| `CornerMatching.DeleteMembers` | tests/processing.py:53 | `np.delete` keeps every other corner and adds none |
| `CornerMatching.SqDistSymmetric` | tests/processing.py:45 | the squared distance is symmetric |
| `CornerMatching.SecondHavePartners` | tests/processing.py:39-53 | in a match every corner of the second list has a corner of the first within 50 pixels |
| `CornerMatching.GreedyStep` | tests/processing.py:45-53 | the first corner pairs with the earliest nearest corner; the match fails at once when that one is over 50 pixels away, and otherwise continues on the shortened lists |
| `CornerMatching.FarCornerFails` | tests/processing.py:45-49 | a corner with no partner within 50 pixels makes the match fail |
| `GearContours.AreaDescending` | processing/gearcontours.py:91 | a permutation of the contours in non-increasing area |
| `GearContours.Scan` | processing/gearcontours.py:95-111 | at most two kept contours, each a 4-gon of the input, extending what was found |
| `GearContours.Approxes` | processing/gearcontours.py:107-108 | one approximation per kept contour, in order |
| `GearContours.Selection` | processing/gearcontours.py:91-115 | at most two contours, each a 4-gon of the input, with their corner sets one to one |
| `GearContours.SelectRectangles` | processing/gearcontours.py:91-115 | the appending loop with its two `break`s computes exactly `Selection` over the descending-area order |
| `GearContours.TapeContoursAndCorners` | gearcontours2.py:98-123 | the same selection, with each corner set converted one to one into (x, y) tuples |
| `GearContours.GearTargetCorners` | processing/gearcontours.py:71-81 | (right, top), (right, bottom), (left, bottom), (left, top) around (w/2, h/2) at ±51.25 in x and ±25 in y |
| `GearContours.FirstQuadUnique` | processing/gearcontours.py:103-106 | the first 4-gon from a position is unique |
| `GearContours.ScanUntilFirst` | processing/gearcontours.py:95-108 | nothing is kept exactly when no 4-gon remains; otherwise scanning resumes after the first 4-gon with it kept |
| `GearContours.AfterFirstRaises` | processing/gearcontours.py:98-99 | after a zero-area first pick, the ratio raises `ZeroDivisionError` exactly when a contour is left |
| `GearContours.AfterFirstSecond` | processing/gearcontours.py:98-111 | a second pick is a later 4-gon above 90% of the first's area, with every contour between them passing the ratio and not a 4-gon |
| `GearContours.AfterFirstAlone` | processing/gearcontours.py:98-101 | a lone first pick means some later contour failed the ratio before any other 4-gon |
| `GearContours.ZeroDivisionExactly` | processing/gearcontours.py:95-101 | the selection raises exactly when the first 4-gon has zero area and is not last |
| `GearContours.NoneKept` | processing/gearcontours.py:95-115 | nothing is kept exactly when no contour is a 4-gon |
| `GearContours.FirstKept` | processing/gearcontours.py:95-108 | the first kept contour is the first 4-gon |
| `GearContours.SecondKept` | processing/gearcontours.py:95-111 | a second kept contour is the first later 4-gon, all between passing the 90% ratio |
| `GearContours.RatioStops` | processing/gearcontours.py:98-101 | a contour at or below 90% of the first, before any other 4-gon, ends the scan with one piece |
| `GearContours.KeptAlone` | processing/gearcontours.py:98-101 | the scan after the first pick stops at that contour with only the first kept |
| `GearContours.SelectedInAreaOrder` | processing/gearcontours.py:91-111 | selected contours are input contours, the first at least as large as the second |
| `GearContours.TuplesRecoverApprox` | gearcontours2.py:20-22 | the tuples saved for a kept contour convert back to its approximation |
| `Messages.MessageSchema` | networking/messages.py:36-50 | a schema exists exactly for start, stop, error and results |
| `Messages.FieldTypeError` | networking/messages.py:71-73 | the three-placeholder message raises `IndexError` exactly when given fewer than three arguments |
| `Messages.CheckFields` | networking/messages.py:66-73 | a successful check returns the message unchanged |
| `Messages.Parse` | networking/messages.py:52-75 | a parse succeeds only on a decoded dict, and returns it unchanged |
| `Messages.ParseMessageAsWritten` | networking/messages.py:52-75 | the as-written parser returns only the decoded message itself |
| `Messages.ParseMessage` | networking/messages.py:52-75 | the intended parser returns only the decoded dict itself, extra fields included |
| `Messages.CreateMessage` | networking/messages.py:77-79 | 'type' first, and the keys are exactly 'type' and the fields' keys |
| `Messages.CreateMessageText` | networking/messages.py:77-80 | the text is the serialised message followed by one newline |
| `Messages.CreateMessageFields` | networking/messages.py:79 | a 'type' among the fields overrides the message type; every field keeps its value |
| `Messages.NoTypeRefused` | networking/messages.py:60-61 | an object without 'type' is refused with "Message does not have a type field" |
| `Messages.UnknownTypeRefused` | networking/messages.py:62-63 | a type outside the four is refused with "Message type is not understood" |
| `Messages.CheckFieldsExactly` | networking/messages.py:66-73 | the intended field check passes exactly when every schema field is present with its class |
| `Messages.FirstBadFieldDecides` | networking/messages.py:66-73 | the first failing field, in schema order, decides the error: missing, or of the wrong type |
| `Messages.ParseExactly` | networking/messages.py:59-75 | the intended parser accepts exactly a dict with a known string type whose schema fields are all present with their classes |
| `Messages.StopAccepted` | networking/messages.py:55-75 | a 'stop' message is returned unchanged by both parsers, whatever else it carries |
| `Messages.AsWrittenFirstFieldRaises` | networking/messages.py:70-73 | as written, the first schema field raises `IndexError` when present, or is reported missing |
| `Messages.AsWrittenFirstField` | networking/messages.py:70-73 | the as-written field loop's result after its first field |
| `Messages.AsWrittenOnlyStop` | networking/messages.py:66-75 | as written, only 'stop' messages are ever returned |
| `Messages.ErrorMessageRoundTrip` | networking/messages.py:70-73 | a created 'error' message parses with the intended parser, but raises `IndexError` as written |
| `Messages.CreatedMessageParses` | networking/messages.py:77-80 | a message created from conforming fields parses back to itself |
| `Messages.NumericErrorText` | networking/messages.py:70-73 | a numeric 'message' field is a `ValueError` naming int and str when intended, and an `IndexError` as written |
| `Handler.Pipeline.constructor` | networking/handler.py:52-56 | a new pipeline holds its launch text and is in the NULL state |
| `Handler.Pipeline.SetState` | networking/handler.py:45 | `set_state` puts the pipeline in the given state |
| `Handler.Client.constructor` | networking/handler.py:66 | a client that has been sent nothing |
| `Handler.Client.Send` | networking/handler.py:76 | `client.send` appends one message to what the client received |
| `Handler.Dispatch` | networking/handler.py:60-64 | a start entry passes the message itself to `on_start` |
| `Handler.StartPart` | networking/handler.py:52-56 | a part is built exactly when iso, shutterspeed, host and port are all present |
| `Handler.GstHandler.constructor` | networking/handler.py:27-39 | the handler starts from the given builders and initial pipeline |
| `Handler.GstHandler.OnStop` | networking/handler.py:41-46 | afterwards there is no pipeline, and any previous one is in the NULL state |
| `Handler.GstHandler.OnStart` | networking/handler.py:48-58 | the previous pipeline is always stopped first; a fresh pipeline with the built text is left PLAYING, or `KeyError` escapes with no pipeline left |
| `Handler.GstHandler.HandleMessage` | networking/handler.py:66-78 | a `ValueError` sends exactly one 'error' reply with the error text and leaves the pipeline alone; other errors escape with nothing sent; stop and start act as `on_stop` and `on_start` |
| `Handler.AnsweredExactlyInvalid` | networking/handler.py:71-76 | a reply is sent exactly when parsing raises `ValueError`, and it carries that error's text |
| `Handler.AcceptedStartLaunches` | networking/handler.py:72-73 | every accepted start message reaches `on_start` and holds the four fields it reads |
| `Handler.StartFieldsPresent` | networking/handler.py:53-55 | a message conforming to the start schema holds iso, shutterspeed, host and port |
| `Handler.AcceptedOthers` | networking/handler.py:60-73 | accepted stop goes to `on_stop`, error to `on_error`, and results has no entry, so `KeyError` escapes |
| `Handler.ReplyIsReported` | networking/handler.py:74-76 | the handler's own error reply, sent back to it, is only printed |
| `Handler.StartPipelineShape` | networking/handler.py:52-56 | the launched text is camera ! tee name=t ! queue ! stream t. ! queue ! sink, from the message's iso, shutterspeed, host and port |
| `GStreamer.Add` | src/gstreamer.py:68-72 | the sum of two strings is always a plain `str` |
| `GStreamer.Webcam` | src/gstreamer.py:74-86 | a `PipelinePart` starting 'v4l2src name=' with the merged src_name, then ' device=' |
| `GStreamer.AwbText` | src/gstreamer.py:98-101 | empty exactly when awb is truthy; otherwise exactly 'awb-mode=off awb-gain-blue=' with the blue gain, ' awb-gain-red=' with the red gain, and a trailing space |
| `GStreamer.ExposureText` | src/gstreamer.py:103-106 | starts 'exposure-mode=' with expmode, and is only that exactly when expmode is not 0; with expmode 0 it is exactly that followed by ' iso=' with the iso and ' shutter-speed=' with the shutter speed |
| `GStreamer.RaspiCamText` | src/gstreamer.py:107-113 | 'rpicamsrc name=… preview=false ', then the white-balance text, then the exposure text |
| `GStreamer.RaspiCam` | src/gstreamer.py:88-113 | a `PipelinePart` starting 'rpicamsrc name=' with the merged src_name and ' preview=false ' |
| `GStreamer.H264RaspiCamText` | src/gstreamer.py:138-145 | 'rpicamsrc name=… preview=false bitrate=' with the bitrate |
| `GStreamer.H264RaspiCam` | src/gstreamer.py:115-146 | a `PipelinePart` starting 'rpicamsrc name=' with the merged src_name and ' preview=false bitrate=' |
| `GStreamer.TestSrc` | src/gstreamer.py:148-160 | a `PipelinePart` starting 'videotestsrc name=' with the merged src_name, then raw video caps |
| `GStreamer.H264Video` | src/gstreamer.py:162-170 | a `PipelinePart` that is exactly the merged h264encoder |
| `GStreamer.H264Stream` | src/gstreamer.py:172-186 | a `PipelinePart` of h264parse, rtph264pay pt=96 config-interval=5 and a udpsink named by the merged udp_name |
| `GStreamer.SHMSinkText` | src/gstreamer.py:195-197 | 'shmsink name=' with sink_name, then ' socket-path=' with socket_path |
| `GStreamer.SHMSink` | src/gstreamer.py:188-197 | a `PipelinePart` starting 'shmsink name=' with the merged sink_name |
| `GStreamer.Tee` | src/gstreamer.py:199-214 | a `PipelinePart` starting 'tee name=N ! queue ! ' |
| `GStreamer.SHMSrcText` | src/gstreamer.py:225-228 | exactly 'shmsrc socket-path=' with the socket path, ' ! ', `str(caps)` and ' ! videoconvert ! appsink': the `caps` keyword never shadows anything |
| `GStreamer.SHMSrc` | src/gstreamer.py:216-228 | a `PipelinePart` starting with the merged socket path and then `str(caps)` |
| `GStreamer.Flag` | src/gstreamer.py:238-255 | a missing argument takes its default; a given one counts by its truthiness |
| `GStreamer.Valve` | src/gstreamer.py:230-241 | a plain `str` (the `format` drops the class) starting 'valve name=N drop=' |
| `GStreamer.TSFile` | src/gstreamer.py:243-255 | a plain `str` starting 'mpegtsmux ! filesink location=L append=' |
| `GStreamer.ValveAndFileFlags` | src/gstreamer.py:238-255 | drop defaults to False and append to True, and any value acts as its truthiness |
| `GStreamer.ValveAndFileTexts` | src/gstreamer.py:238-255 | `Valve(n, 0)` renders drop=false and `TSFile(l, 'no')` renders append=true |
| `GStreamer.MakeCommandLineParsable` | src/gstreamer.py:286-307 | the loop builds the structure name followed by ', k=v' for each field, in order |
| `GStreamer.AddingParts` | tests/test_gstreamer.py:16-19 | PipelinePart('videotestsrc') + PipelinePart('autovideosink') is 'videotestsrc ! autovideosink' |
| `GStreamer.PartOnEitherSide` | src/gstreamer.py:68-72 | a `PipelinePart` on either side inserts ' ! '; two plain strings concatenate |
| `GStreamer.ChainOfParts` | src/gstreamer.py:68-72 | a chain of parts joins their texts with ' ! ' |
| `GStreamer.JoinWithAppend` | src/gstreamer.py:213 | joining one more string appends the separator and it |
| `GStreamer.TeeOfTwo` | tests/test_gstreamer.py:21-25 | part + Tee(name, p, q) is 'src ! tee name=N ! queue ! p N. ! queue ! q' |
| `GStreamer.TeeOfOne` | src/gstreamer.py:210-214 | a one-branch tee is 'tee name=N ! queue ! ' and the branch |
| `GStreamer.MergeDefaultsGet` | src/gstreamer.py:44 | a given key overrides its default; every other key keeps its default |
| `GStreamer.DefaultEncoder` | src/gstreamer.py:39 | the default h264encoder is 'omxh264enc' |
| `GStreamer.ExplicitKeywordShown` | src/gstreamer.py:44 | a given keyword is formatted as `str` of its value |
| `GStreamer.DefaultKeywordShown` | src/gstreamer.py:20-44 | a keyword not given is formatted as `str` of its default |
| `GStreamer.OverrideOne` | src/gstreamer.py:44 | overriding one keyword changes that key only |
| `GStreamer.CameraTextsAgree` | src/gstreamer.py:96-145 | both camera texts are determined by the white-balance text, the exposure text and the frame settings |
| `GStreamer.ExposureIgnoresIsoUnlessManual` | src/gstreamer.py:103-106 | when expmode is not 0, iso and shutter never reach either camera text |
| `GStreamer.ManualExposureShowsIso` | src/gstreamer.py:103-104 | with expmode 0, the iso reaches the exposure text |
| `GStreamer.RaspiCamShowsExposure` | src/gstreamer.py:107-113 | a different exposure text gives a different RaspiCam text |
| `GStreamer.H264RaspiCamShowsExposure` | src/gstreamer.py:138-145 | a different exposure text gives a different H264RaspiCam text |
| `GStreamer.ManualCameraShowsIso` | src/gstreamer.py:96-145 | with expmode 0, a different iso gives different camera texts |
| `GStreamer.ManualExposureShowsShutter` | src/gstreamer.py:103-104 | with expmode 0, a different shutter speed gives a different exposure text |
| `GStreamer.ManualCameraShowsShutter` | src/gstreamer.py:96-145 | with expmode 0, a different shutter speed gives different camera texts |
| `GStreamer.AutoWhiteBalanceIgnoresGains` | src/gstreamer.py:98-101 | with awb true the white-balance text is empty and the gains never matter |
| `GStreamer.ValveThenFile` | src/gstreamer.py:238-255 | Valve and TSFile are plain strings rendering booleans as true/false, so their sum is raw concatenation |
| `GStreamer.FractionIgnoresFound` | src/gstreamer.py:276-284 | a fraction renders as elements 1 and 2 of `get_fraction`, num/den |
| `GStreamer.RenderSplits` | src/gstreamer.py:298-307 | the rendering of a field list is that of its first part followed by that of its rest |
| `GStreamerLegacy.MergeDefaultsGet` | gstreamer.py:33 | a given key overrides its default; every other key keeps its default |
| `GStreamerLegacy.Webcam` | gstreamer.py:63-75 | a `PipelinePart` starting 'v4l2src ! video/x-raw, width=' with the merged width |
| `GStreamerLegacy.RaspiCamText` | gstreamer.py:91-97 | the exposure mode, the white-balance text, then iso and shutter speed, whatever the exposure mode |
| `GStreamerLegacy.RaspiCam` | gstreamer.py:77-97 | a `PipelinePart` starting 'rpicamsrc preview=false exposure-mode=' with the merged expmode |
| `GStreamerLegacy.H264StreamText` | gstreamer.py:107-114 | the encoder, parser and payloader, then 'udpsink host=' with the host |
| `GStreamerLegacy.SHMSink` | gstreamer.py:116-125 | a `PipelinePart` starting 'shmsink name=' with the merged sink_name |
| `GStreamerLegacy.SHMSrc` | gstreamer.py:144-156 | a `PipelinePart` starting with the merged socket path and then `str(caps)` |
| `GStreamerLegacy.H264Stream` | gstreamer.py:99-114 | a `PipelinePart` that always starts with 'omxh264enc ! h264parse ! ' |
| `GStreamerLegacy.SameFrame` | gstreamer.py:95-96 | equal width, height and framerate give equal texts for them |
| `GStreamerLegacy.CameraShowsIso` | gstreamer.py:85-97 | the iso always reaches the camera text, whatever the exposure mode |
| `GStreamerLegacy.CameraShowsShutter` | gstreamer.py:85-97 | the shutter speed always reaches the camera text |
| `GStreamerLegacy.AutoWhiteBalanceIgnoresGains` | gstreamer.py:87-90 | with awb true the gains never reach the camera text |

## Left out

- OpenCV and numpy are not modelled. This covers masking, `findContours`,
  `contourArea`, `arcLength`, `approxPolyDP`, `boundingRect`, `convexHull`,
  `moments`, `minAreaRect` and `np.polyfit`'s numerics. Their results are record
  fields or parameters.
- Floating point and transcendental functions are not modelled:
  - reals are exact;
  - divisions the source makes unguarded are preconditions (x1 ≠ x2, m ≠ n,
    a non-vertical fit, a non-zero reference area);
  - sqrt, fractional powers, `math.hypot`, the `split_tape_piece` key and
    `cnt_score`'s sub-scores are parameters, or are compared through squares.
- Stereo.Reconstruct: a zero mean disparity gives numpy's `inf`. The model
  returns it as the value `Infinite` rather than making it a precondition.
- Debug drawing, `imshow` and `print` are left out, including `on_error`'s
  printing (only its dispatch is modelled) and the input-image drawing under
  DEBUG in gearcontours2.py.
- `json.loads` and `json.dumps` are not modelled. Parsing starts from the
  decoded value or the decoder's error text. The serialiser is a parameter,
  and the UTF-8 encoding before `client.send` is not modelled.
- The GStreamer runtime (`pipeline()` / `parse_launch`, `set_state` on a real
  pipeline, `get_sink_caps`, `print_message`, `MessagePrinter`) is left out:
  library code, threads and I/O. A pipeline is an object holding its launch
  text and its state.
- `delete_socket` (file system) and `ts_filename` (clock) are left out.
- networking/server.py and the threaded video capture are sockets and threads,
  and are not part of this model.
- GStreamer.Arg falls back to `None` for a key missing from the merged
  arguments. This cannot happen: every key the templates read is a key of
  `DEFAULTS`.
- GStreamer.MergeDefaultsGet, GStreamerLegacy.MergeDefaultsGet: the default
  values are stated as `Get` on the `DEFAULTS` tables. They are not proved as
  concrete launch texts (such as the default host and port).
- Handler.HandleMessage uses the corrected parser `Messages.ParseMessage`. With
  the parser as written, only 'stop' messages would reach the handlers (see
  Findings).
- `gearcontours2.process_image` is not part of this model: it reads the
  undefined `found_corners`.
- Also not part of this model:
  - the calibration and pose scripts, `extract_points` and `find_camera_position.process`;
  - the main scripts, config.py and tests that need hardware or image files;
  - `get_corners_from_image`, `get_mask`, `get_distance` and `get_width_height_ratio`
    (image I/O and OpenCV wrappers).
- Values.Repr, Values.StrRepr: Python escapes non-printable characters
  beyond Latin-1 as `\uXXXX` or `\UXXXXXXXX`; the model copies them unchanged.
  It escapes exactly the quote, the backslash, tab, newline, carriage return,
  the other control characters, 127–160 and 173.
- GStreamer.Webcam, GStreamer.RaspiCam, GStreamer.H264RaspiCam, GStreamer.TestSrc,
  GStreamer.H264Stream, GStreamer.SHMSink, GStreamer.SHMSrc, GStreamer.Tee,
  GStreamer.Valve, GStreamer.TSFile, GStreamer.RaspiCamText,
  GStreamer.H264RaspiCamText, GStreamer.SHMSinkText, GStreamerLegacy.Webcam,
  GStreamerLegacy.RaspiCam, GStreamerLegacy.RaspiCamText,
  GStreamerLegacy.H264StreamText, GStreamerLegacy.H264Stream,
  GStreamerLegacy.SHMSink and GStreamerLegacy.SHMSrc: each contract pins the
  element the text starts with and the first fields placed in it, not the whole
  template. The rest of the text is the function body, and
  lemmas such as `GStreamer.CameraTextsAgree` and `GStreamer.TeeOfTwo` state
  what the rest depends on.
- GearBestFit.GetLinesAsWritten: `np.polyfit` on corners sharing one x is not
  modelled (numpy warns and returns a numerical result rather than raising), so
  the top and bottom fits are preconditions when both pairs are usable.
- GearBestFitLegacy.GetLines takes the same outer pairs from the same bounding
  boxes, so it has the problem listed under Findings too. Only the newer
  processing/gearbestfitcorners.py carries the as-written and corrected members.
- The definitions `Geometry.MomentsOf`, `Geometry.Spread`, `Geometry.FitDefined`,
  `Geometry.NormalEquations`, `Geometry.ErrorOf`, `Geometry.ShiftEnergy` and
  `Geometry.AddPoint` carry no contracts of their own. What they mean is stated
  by the lemmas in the table (`Geometry.SquaredErrorMoments`,
  `Geometry.CornerLineIsLeastSquares`, `Geometry.SameXNoFit`).
- `is_tape`'s debug text output is ignored, and so is the
  `get_tape_contours_and_corners` drawing at processing/tapecontours.py:254-256
  and 288-291.

## Findings

| source | as written | input that shows it | evidently intended | confidence | as-written member | corrected member |
|---|---|---|---|---|---|---|
| networking/messages.py:70-73 | `type(message[field]) is not type(message_schema[field])` compares with `type` itself, so every present schema field fails. The error is then formatted with three placeholders but two arguments, which raises `IndexError`, not `ValueError` | `{"type": "error", "message": "something"}` (tests/test_messages.py:26-36), or any start, error or results message with its fields | compare `type(message[field])` with the schema class, and name both classes in a `ValueError` | not executed | `Messages.ParseMessageAsWritten` (`Messages.ErrorMessageRoundTrip`, `Messages.NumericErrorText`, `Messages.AsWrittenOnlyStop`) | `Messages.ParseMessage` (`Messages.ParseExactly`, `Messages.CreatedMessageParses`) |
| processing/gearbestfitcorners.py:37-40 | `get_two_corner_line` divides by `x1 - x2`. `get_lines` hands it the two smallest-x corners of the leftmost box and the two largest-x corners of the next one (lines 94-97). `is_tape` returns bounding-box corners, whose two left and two right corners share their x, so both divisions are by zero and `ZeroDivisionError` is raised | any two contours accepted by `is_tape`, for example two boxes with corners (0, 10), (0, 0), (4, 0), (4, 10) and (20, 10), (20, 0), (24, 0), (24, 10) | a vertical side x = c through such a pair, crossed with the fitted top and bottom lines | not executed | `GearBestFit.GetLinesAsWritten` (`GearBestFit.TapeBoxesRaise`, `GearBestFit.TapeBoxesBreakGetLines`) | `GearBestFit.OutsideCornersCorrected` (`GearBestFit.GetSides`, `GearBestFit.TapeBoxesCorrected`, `GearBestFit.CorrectedAgrees`) |
