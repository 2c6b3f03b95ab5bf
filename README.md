# Geometry import core of a plasma-cutting CAM tool, in Dafny

This project models the two geometry importers of a CAM application. Each
reads a drawing, SVG or DXF, and returns a flat list of path records. A
record is a polyline in millimetres with a `closed` flag, a layer, a
colour and its source format. The model covers these parts of each importer:

- how it turns a unit name into a millimetre scale;
- how it splits an SVG `d` attribute into subpaths at move commands;
- how it samples curves into points, with the fallbacks used when the
  DXF library's own flattening fails;
- how it decides whether a path is closed, and forces a closed ring when
  the path is closed;
- how it assembles one record per subpath (SVG) or entity (DXF), in
  document order, skipping anything that cannot be used.

The external libraries are modelled as data: the curve parser, the DXF
entity objects, the settings store and the trigonometric functions. Each
library call the importers make is a field or a parameter. `None`, or a
`raised` flag, stands for a call that raised an exception. Every
importer operation is then either a function over that data or a method
with the source's loops. Each method is proved equal to a specification
function, and the lemmas state what the source promises about those
functions.

Files:

- `wrappers.dfy`: `Option` and map lookup.
- `strings.dfy`: ASCII `strip`, `lower` and `upper`; prefix and suffix tests; decimal rendering of a natural number.
- `geometry.dfy`: points and path records; well-formedness; forcing a ring closed; scaling; the loop-append shape used by both loaders.
- `sampling.dfy`: Python's `int()` on a float; sampling a curve at `t = i/n`.
- `svg_parser.dfy`: the SVG importer.
- `dxf_parser.dfy`: the DXF importer.

## Model

| member | source | states |
|---|---|---|
| Strings.Strip | svg_parser.py:49 | the result is the slice of the input that starts after its leading white space; it has no white space at either end, and every character cut from the end is white space |
| Strings.StripIsSlice | dxf_parser.py:19 | the stripped string is a contiguous slice of the input |
| Strings.StripBlank | svg_parser.py:174 | a string strips to empty exactly when every character is white space |
| Strings.StripIdempotent | svg_parser.py:112 | stripping twice is the same as stripping once |
| Strings.StripKeepsHead | svg_parser.py:112 | a string that begins with a non-space keeps that first character, and strips to a prefix of itself |
| Strings.NormaliseIdempotent | svg_parser.py:49 | normalising a unit token (strip, then lower-case) a second time changes nothing |
| Strings.Lower | svg_parser.py:49 | `str.lower()`: same length, each character mapped on its own, capitals to small letters and every other character unchanged |
| Strings.Upper | svg_parser.py:194 | `str.upper()`: same length, each character mapped on its own, small letters to capitals and every other character unchanged |
| Strings.StartsWith | dxf_parser.py:20 | `s.startswith(p)`: `p` is no longer than `s` and equals its first `|p|` characters (reference predicate) |
| Strings.EndsWith | svg_parser.py:194 | `s.endswith(p)`: `p` is no longer than `s` and equals its last `|p|` characters (reference predicate) |
| Strings.NatToDecimal | dxf_parser.py:185 | `str(col)` of a positive colour index gives a non-empty string of digits with no leading zero |
| Strings.DecimalRoundTrip | dxf_parser.py:185 | reading back the decimal string gives the original number |
| Strings.DecimalInjective | dxf_parser.py:185 | distinct colour indices give distinct colour strings |
| Wrappers.Get | svg_parser.py:215 | `dict.get` gives a value exactly when the key is present, and that value is the mapped one |
| Geometry.ForceClose | svg_parser.py:208-209 | the result is a closed ring and extends the input by at most its first point; it adds that point exactly when the input is not already a ring, and is otherwise the input itself |
| Geometry.ForceCloseIdempotent | dxf_parser.py:155-156 | closing a closed ring again adds nothing |
| Geometry.ScalePoints | dxf_parser.py:189 | same length as the input, every point multiplied coordinate-wise by the factor |
| Geometry.ScaleRoundTrip | svg_parser.py:212 | scaling by a non-zero factor and then by its inverse gives back the points |
| Geometry.ScaleKeepsRing | dxf_parser.py:189 | scaling keeps a ring a ring, and with a non-zero factor it neither makes nor breaks one |
| Geometry.ScaleKeepsWellFormed | dxf_parser.py:189-194 | scaling the points of a well-formed record keeps it well-formed |
| Geometry.FlatMapAppend | dxf_parser.py:138-200 | the records for `a + b` are those for `a` followed by those for `b` |
| Geometry.FlatMapSkip | dxf_parser.py:138-146 | an input that yields no record leaves its neighbours' records as if it were absent |
| Geometry.FlatMapWellFormed | svg_parser.py:159-229 | if every input yields only well-formed records, so does the whole loop |
| Sampling.Trunc | dxf_parser.py:54 | `int()` on a float rounds toward zero: floor for non-negative values, ceiling for negative ones |
| Sampling.GridPoint | svg_parser.py:86 | the parameter `i/n` lies in `[0, 1]` for `i <= n`, and is 1 at `i = n` |
| Sampling.GridPointIncreasing | dxf_parser.py:82 | later parameters are strictly larger |
| Sampling.GridSamples | svg_parser.py:85-91 | the points the sampling loop keeps from the first `k` grid parameters (reference function; its properties are the next lemmas) |
| Sampling.GridParamsExact | dxf_parser.py:80-85 | the kept parameters are exactly the grid points among the first `k` at which evaluation succeeds: none is missed and none is invented |
| Sampling.GridSamplesAtParams | svg_parser.py:85-91 | one sample per successful evaluation, each the curve's value at its parameter; the parameters rise strictly, stay in range and number at most `k`; a grid point is among them exactly when the curve evaluates there, and every one of them is a grid point |
| Sampling.FullGridSamples | svg_parser.py:85-91 | over the full grid `0, 1/n, ..., 1` the kept parameters lie in `[0, 1]`, rise strictly, match the samples one to one, and are exactly the grid points at which the curve evaluates |
| Sampling.GridSamplesTotal | dxf_parser.py:80-85 | when every evaluation succeeds, every parameter gives a sample |
| Sampling.GridSamplesNone | dxf_parser.py:80-86 | when every evaluation fails, there are no samples |
| Sampling.SampleGrid | dxf_parser.py:78-85 | the loop tries the `n + 1` parameters `0, 1/n, ..., 1` in order, keeps exactly the values that evaluate, and returns at most `n + 1` points |
| SvgParser.UnitScaleToMm | svg_parser.py:35-59 | the scale is always positive, and an absent token gives 1.0 |
| SvgParser.UnitScaleMatchesTable | svg_parser.py:47-59 | after normalisation, each recognised token (mm, inch, cm, px and their spellings) gives its table value (1, 25.4, 10, 25.4/96), and every other token, the empty one included, gives 1.0 |
| SvgParser.UnitScaleNormalised | svg_parser.py:49 | surrounding white space and letter case do not change the scale |
| SvgParser.PixelScale | svg_parser.py:56-58 | the pixel factor the loader applies is 25.4/96 mm per pixel (96 pixels per inch) |
| SvgParser.SplitBeforeMoves | svg_parser.py:109 | cutting before every `M`/`m` gives one more piece than there are moves; each later piece starts with its only move, the first has none, and it is empty when the string starts with a move |
| SvgParser.SplitBeforeMovesConcat | svg_parser.py:109 | concatenating the pieces gives back the string: the cut loses no character |
| SvgParser.KeepStripped | svg_parser.py:112 | the comprehension that keeps the non-blank pieces, stripped: never longer than its input |
| SvgParser.KeepStrippedAll | svg_parser.py:112 | when every piece starts with a non-space, every piece is kept, stripped, in order |
| SvgParser.SplitPathByMoves | svg_parser.py:99-114 | an empty `d` gives no subpaths; every subpath is non-empty and stripped; every subpath after the first starts with a move command; no subpath has a move after its first character; there is one subpath per move, plus one for text before the first move |
| SvgParser.SplitFragmentsStripped | svg_parser.py:112 | every subpath equals its own `strip()` |
| SvgParser.SplitPathPiecesConcat | svg_parser.py:109 | the pieces of the stripped attribute concatenate back to it |
| SvgParser.SplitPathByMovesExample | svg_parser.py:104-114 | `" M0L1 m2Z"` splits into `"M0L1"` and `"m2Z"` |
| SvgParser.SplitBeforeMovesExample | svg_parser.py:109 | `"M0L1 m2Z"` is cut into an empty piece, `"M0L1 "` and `"m2Z"` |
| SvgParser.KeepStrippedExample | svg_parser.py:112 | the filter drops the empty piece and strips the others |
| SvgParser.AttrsOf | svg_parser.py:161-164 | the attribute dictionary the match loop builds (reference function; see AttrsLastWins) |
| SvgParser.AttrsLastWins | svg_parser.py:161-164 | a key is in the attribute dictionary exactly when some `key="value"` match has it, and its value is the value of the last such match |
| SvgParser.BuildAttrs | svg_parser.py:161-164 | the attribute loop builds that dictionary |
| SvgParser.StrokeColor | svg_parser.py:218-220 | the colour is present exactly when `stroke` is set to something other than `"none"` or `""`, and is then that value |
| SvgParser.CurveLength | svg_parser.py:77-80 | the measured length floored at 1e-3, or 1.0 when measuring raised |
| SvgParser.SegmentCount | svg_parser.py:83 | at least 64 segments; above 64 only as the whole number of tolerance steps (tolerance floored at 1e-3) in the length |
| SvgParser.FlatPoints | svg_parser.py:65-93 | the points `_flatten_path_points` returns (reference function for the flattening loop; see FlatPointsInOrder) |
| SvgParser.FlattenPathPoints | svg_parser.py:65-93 | the samples of the curve at `t = i/segs`, skipping parameters that raise; no points for a missing curve; at most `segs + 1` points |
| SvgParser.FlatPointsInOrder | svg_parser.py:85-91 | each flattened point is the curve's value at a parameter in `[0, 1]`; the parameters rise strictly; a grid point `i/segs` is among them exactly when the curve evaluates there, and each of them is such a grid point |
| SvgParser.EndsWithClose | svg_parser.py:194 | the close-command test on the stripped, upper-cased subpath (reference predicate; see EndsWithCloseEitherCase) |
| SvgParser.EndsWithCloseEitherCase | svg_parser.py:194 | the close-command test accepts a final `Z` or `z` after stripping, and nothing else |
| SvgParser.NearlyRing | svg_parser.py:202-205 | both coordinates of the first and last points differ by less than 1e-6 (reference predicate) |
| SvgParser.SubpathClosed | svg_parser.py:191-205 | the closure decision for one subpath (reference function; see ClosurePrecedence) |
| SvgParser.ClosurePrecedence | svg_parser.py:191-205 | a close command decides first; otherwise `isclosed()` decides when it answers; only when it raises are the end points compared, and the path is then closed exactly when both coordinates differ by less than 1e-6, which every exact ring meets |
| SvgParser.DecideClosed | svg_parser.py:191-205 | the branching closure code computes that decision |
| SvgParser.SvgTolerance | svg_parser.py:157 | the flattening tolerance is positive |
| SvgParser.SvgToleranceChoice | svg_parser.py:149-157 | the tolerance is 0.05 exactly when the setting is missing, empty or starts with "met", and 0.002 otherwise |
| SvgParser.SubpathRecord | svg_parser.py:173-229 | a subpath gives a record exactly when it is not blank, parses, has segments and samples to at least two points; the record is well-formed, tagged `svg`, has layer `id` and the stroke colour |
| SvgParser.SubpathRecordPoints | svg_parser.py:207-212 | the record's points are the sampled points, each scaled by 25.4/96; the closure decision is recorded; a point is added exactly when the path is closed and its sampled ends differ, and that point is the scaled first point |
| SvgParser.ProcessSubpath | svg_parser.py:173-229 | the loop body computes that record, or skips the subpath |
| SvgParser.SubpathPaths | svg_parser.py:173-229 | the records of one element's subpaths, in subpath order, each subpath contributing its record or nothing (reference function for the subpath loop; see SubpathPathsLength) |
| SvgParser.SubpathPathsLength | svg_parser.py:173 | an element yields at most one record per subpath |
| SvgParser.ElementPaths | svg_parser.py:166-173 | an element yields records only when it has a non-empty `d` attribute |
| SvgParser.ElementPathsWellFormed | svg_parser.py:166-229 | every record of one element is well-formed and tagged `svg` |
| SvgParser.ProcessElement | svg_parser.py:159-229 | the element body builds the attributes, splits `d` and emits the records of its subpaths in order |
| SvgParser.ElementsPaths | svg_parser.py:159-229 | the records of a list of elements, in element order (reference function for the element loop; see ElementsPathsWellFormed and ElementsPathsAppend) |
| SvgParser.ElementsPathsWellFormed | svg_parser.py:223-229 | every record the loader returns has at least two points, ends where it starts when closed, and is tagged `svg` |
| SvgParser.ElementsPathsAppend | svg_parser.py:159-231 | elements are independent: the records of a document are those of its first part followed by those of the rest |
| SvgParser.SvgPaths | svg_parser.py:120-231 | the records the loader returns for a document (reference function for LoadSvg) |
| SvgParser.LoadSvg | svg_parser.py:120-231 | the loader returns the specified records, all well-formed, and nothing when the file or the library is unavailable |
| DxfParser.UnitScaleToMm | dxf_parser.py:16-22 | the scale is 1.0 or 25.4 |
| DxfParser.UnitScalePrefixRule | dxf_parser.py:16-22 | the scale is 25.4 exactly when the stripped, lower-cased token starts with "in", and normalising the token first changes nothing |
| DxfParser.UnitScaleInchExample | dxf_parser.py:20-21 | `"in"` scales by 25.4 |
| DxfParser.UnitScalePaddedInchExample | dxf_parser.py:19-21 | `" Inches "` scales by 25.4 |
| DxfParser.UnitScaleMmExamples | dxf_parser.py:17-22 | `"mm"` and the empty token scale by 1.0 |
| DxfParser.Tolerance | dxf_parser.py:129-130 | the tolerance is positive and is always 0.25 mm once multiplied by the scale |
| DxfParser.Primary | dxf_parser.py:28-35 | the points of the first tier: the flattening's points, or nothing when it yielded none or raised (reference function; see FlattenEntity) |
| DxfParser.KindOf | dxf_parser.py:39-97 | each of the seven handled type tags selects its own kind and no other tag selects it; every other tag selects no branch |
| DxfParser.ArcSweep | dxf_parser.py:51-53 | the sweep, with one turn added when the end angle is below the start (reference function; see ArcSweepRange) |
| DxfParser.ArcSweepRange | dxf_parser.py:51-53 | for end angles at most one turn below the start, the sweep is non-negative, at most 360 when the end was moved, and `a2 - a1` otherwise |
| DxfParser.ArcSteps | dxf_parser.py:54 | at least 12 steps; above 12 only as the whole number of tolerance steps (tolerance floored at 1e-4) in the sweep; and always more than that quotient minus one, so the count is the truncated quotient whenever that exceeds 12 |
| DxfParser.Radians | dxf_parser.py:57 | `math.radians`: degrees times `pi / 180` (reference function) |
| DxfParser.ArcAngle | dxf_parser.py:57 | the `i`-th arc angle in degrees, `a1 + sw*i/n` (reference function; see ArcAnglesProgress) |
| DxfParser.OnCircle | dxf_parser.py:58 | the point at an angle on the circle of centre `c` and radius `r` (reference function) |
| DxfParser.ArcAnglesProgress | dxf_parser.py:56-57 | the angles start at the start angle, end at start plus sweep, never decrease for a non-negative sweep, and rise strictly for a positive one |
| DxfParser.ArcPoints | dxf_parser.py:55-59 | `n + 1` points, the arc evaluated at the angles `a1 + sw*i/n` (reference function for FlattenArc) |
| DxfParser.FlattenArc | dxf_parser.py:48-59 | the arc loop returns `n + 1 >= 13` points at the specified angles |
| DxfParser.CircleAngle | dxf_parser.py:66 | the `i`-th circle angle, `2*pi*i/64` (reference function) |
| DxfParser.CirclePoints | dxf_parser.py:61-68 | 65 points, the circle evaluated at `2*pi*i/64` (reference function for FlattenCircle) |
| DxfParser.FlattenCircle | dxf_parser.py:61-68 | the circle loop returns 65 points, the first at angle 0 and the last at a full turn |
| DxfParser.EllipsePoints | dxf_parser.py:70-74 | the result is the construction tool's 64-segment approximation whenever the tool and the approximation succeed, and empty when either raises |
| DxfParser.ReadablePrefix | dxf_parser.py:89-94 | the control points read before the first failure (reference function; see ReadablePrefixExact) |
| DxfParser.ReadablePrefixExact | dxf_parser.py:89-95 | the control points read are exactly the readable ones before the first failure, in order, and the read stops at a failure |
| DxfParser.ReadControlPoints | dxf_parser.py:89-95 | the control-point loop computes that prefix |
| DxfParser.SplinePoints | dxf_parser.py:76-95 | the spline branch's points (reference function for FlattenSpline; see SplineFallback) |
| DxfParser.FlattenSpline | dxf_parser.py:76-95 | the spline branch returns the evaluations at `i/128`, or else the readable control points |
| DxfParser.VertexLocations | dxf_parser.py:107-115 | the locations read by walking the vertices (reference function; see the next two lemmas) |
| DxfParser.VertexLocationsAppend | dxf_parser.py:107-115 | when no iteration error occurs in the first part, walking two parts of the vertices reads the first part's locations, then the second's |
| DxfParser.VertexSkipAndStop | dxf_parser.py:107-115 | an unreadable vertex is skipped without ending the walk; an iteration error ends it and keeps what was read |
| DxfParser.ReadVertices | dxf_parser.py:107-116 | the vertex loop computes that walk |
| DxfParser.PolylinePoints | dxf_parser.py:97-116 | the polyline branch's points (reference function for FlattenPolyline) |
| DxfParser.FlattenPolyline | dxf_parser.py:97-116 | the polyline branch returns what the flattening yielded, even when it then raised, or else the vertex locations |
| DxfParser.Fallback | dxf_parser.py:37-120 | the second tier, branch by entity kind (reference function; see the fallback lemmas) |
| DxfParser.Flattened | dxf_parser.py:25-120 | the points `_flatten_entity` returns (reference function for FlattenEntity) |
| DxfParser.FlattenEntity | dxf_parser.py:25-120 | the flattener returns the specified points; the primary flattening wins whenever it gives points; an unreadable or unhandled type gives nothing |
| DxfParser.LineFallback | dxf_parser.py:44-46 | with no primary result, a LINE gives exactly its two end points |
| DxfParser.ArcFallback | dxf_parser.py:48-59 | with no primary result, an ARC gives `n + 1 >= 13` points, from the start angle to start plus sweep |
| DxfParser.CircleFallback | dxf_parser.py:61-68 | with no primary result and a readable centre and radius, a CIRCLE gives 65 points at the angles `2*pi*i/64` |
| DxfParser.EllipseFallback | dxf_parser.py:70-74 | with no primary result, an ELLIPSE gives exactly its construction tool's 64-segment approximation, and nothing when the tool or the approximation raises |
| DxfParser.SplineFallback | dxf_parser.py:76-95 | with no primary result, a SPLINE gives its successful evaluations in parameter order (at most 129), or its readable control points when none succeed; a parameter `i/128` is used exactly when evaluation succeeds there |
| DxfParser.SplineWithoutTool | dxf_parser.py:76-77 | with no primary result, a SPLINE whose construction tool raises gives nothing |
| DxfParser.PolylinePartialFlattening | dxf_parser.py:29-35 | a polyline whose flattening raised after yielding points keeps those points: the first tier drops them, the polyline tier does not |
| DxfParser.PolylineVertexFallback | dxf_parser.py:104-116 | a polyline whose flattening yields nothing falls back to its vertex locations |
| DxfParser.DxfClosure | dxf_parser.py:148-176 | a path marked closed is a ring; a path that is already a ring is never changed; the points gain the first point again at the end exactly when the path is marked closed and is not yet a ring; an open path is left as it is |
| DxfParser.FlagClosure | dxf_parser.py:158-165 | the same guarantees for the polyline flag rule |
| DxfParser.ClosureRules | dxf_parser.py:148-176 | circles and ellipses are always closed; a readable polyline flag decides by bit 0; a readable spline `closed` attribute decides; only otherwise do the end points decide; other kinds are only classified, never extended |
| DxfParser.LineClosureExample | dxf_parser.py:175-176 | a line between two distinct points is open and is not extended |
| DxfParser.LayerName | dxf_parser.py:178-181 | the layer is the entity's layer, or "0" when it cannot be read |
| DxfParser.ColorName | dxf_parser.py:183-187 | a colour is present exactly when the index is readable and positive, and is then its decimal string, which reads back to the index |
| DxfParser.ColorOneExample | dxf_parser.py:185 | colour index 1 is written "1" |
| DxfParser.ScaleInchExample | dxf_parser.py:189 | ten units in inches are 254 mm |
| DxfParser.EntityRecord | dxf_parser.py:138-200 | an entity gives a record exactly when its type is readable and it flattens to at least two points; the record is well-formed, tagged `dxf`, and has the entity's layer and colour |
| DxfParser.EntityRecordShape | dxf_parser.py:144-200 | the record is the scaled, closure-completed points with the closure decision and the metadata |
| DxfParser.EntityRecordPoints | dxf_parser.py:148-194 | the record's points are the flattened points each multiplied by the scale; a point is added exactly when the path is closed and its ends differ, and that point is the scaled first point |
| DxfParser.ProcessEntity | dxf_parser.py:139-200 | the loop body computes that record, or skips the entity |
| DxfParser.LineRecordExample | dxf_parser.py:44-46 | a LINE from (0,0) to (10,0) on layer CUT with colour 1 and no primary result gives an open path (0,0)-(254,0) when scaled by 25.4 |
| DxfParser.LineInInchesExample | dxf_parser.py:123-202 | a drawing in inches holding only that LINE gives exactly that one record |
| DxfParser.DxfPaths | dxf_parser.py:123-202 | the records the loader returns for a drawing (reference function for LoadDxf) |
| DxfParser.DxfPathsWellFormed | dxf_parser.py:192-200 | every record the loader returns has at least two points, ends where it starts when closed, and is tagged `dxf` |
| DxfParser.SkippedEntityIsInvisible | dxf_parser.py:139-146 | an unusable entity leaves its neighbours' records exactly as they would be without it, in modelspace order |
| DxfParser.LoadDxf | dxf_parser.py:123-202 | the loader returns the specified records, all well-formed, and nothing when the library is missing or the file cannot be read |

## Left out

- File reading, the regular-expression scan for `<path>` elements and for `key="value"` attributes: the model starts from the list of elements, each given as its attribute matches in order.
- The settings store: the units setting is a parameter, and `None` stands for a store that is missing or raised.
- `svgpathtools` and `ezdxf` themselves: parsing, curve lengths, `point(t)`, `isclosed()`, `flattening(tol)`, construction tools and entity attributes are inputs that hold the library's answers. A call may raise or not, but it always gives the same answer.
- `math.cos`, `math.sin` and `math.pi` are uninterpreted parameters; `math.radians` is `deg * pi / 180`.
- Floating point: coordinates, lengths and angles are exact reals, so rounding, NaN and infinities are not modelled.
- Strings.Strip: removes the ASCII characters Python treats as white space (space, tab, line feed, vertical tab, form feed, carriage return and the separators 0x1C-0x1F), but not the non-ASCII ones such as U+0085 or U+00A0; the case mappings change only ASCII letters. Python's Unicode rules are not modelled.
- The `_HAS_SVGTOOLS`, `_HAS_QT` and `_HAS_EZDXF` import flags: an unavailable curve or DXF library is the same as the document input being `None`.
- An exception raised by iterating the modelspace itself propagates out of `load_dxf` in the source; the model takes the modelspace to be a finite list that iterates without failure.
- `str()` of a layer that is not a string, and `int()` of a colour that is not an integer: the layer and colour are given as the results of those conversions.
- DxfParser.ArcSweepRange: proves the sweep non-negative only when the end angle is at most one turn below the start. When the end is more than one turn below, the source's single `+ 360` leaves a negative sweep, and the model computes exactly that.
- `main.py`, `materials.py` and the package `__init__` files are not part of this model.
