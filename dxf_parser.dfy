/** The DXF loader: unit scale, per-entity flattening with its fallback
    tiers, closure classification, and the assembly of one output record
    per usable modelspace entity, in modelspace order. */
module DxfParser {
  import opened Wrappers
  import opened Strings
  import opened Geometry
  import opened Sampling

  // ------------------------------------------------------------------
  // Units and tolerance
  // ------------------------------------------------------------------

  /** `_unit_scale_to_mm`: 25.4 for any token whose normalised form starts
      with "in", else 1.0. */
  function UnitScaleToMm(units: string): (r: real)
    ensures r == 1.0 || r == 25.4
  {
    if units == [] then 1.0
    else if StartsWith(Lower(Strip(units)), "in") then 25.4
    else 1.0
  }

  /** The prefix rule: every inch spelling, in any case and with any
      surrounding white space, scales by 25.4; nothing else does. */
  lemma UnitScalePrefixRule(units: string)
    ensures UnitScaleToMm(units) == 25.4 <==> StartsWith(Lower(Strip(units)), "in")
    ensures UnitScaleToMm(units) == UnitScaleToMm(Lower(Strip(units)))
  {
    if units == [] {
      assert Strip(units) == [];
    }
    NormaliseIdempotent(units);
    if Lower(Strip(units)) == [] {
      assert !StartsWith(Lower(Strip(units)), "in");
    }
  }

  /** The bare inch token scales by 25.4. */
  lemma UnitScaleInchExample()
    ensures UnitScaleToMm("in") == 25.4
  {
    assert LeadingSpaces("in") == 0;
    assert TrailingSpaces("in") == 0;
    assert Strip("in") == "in";
    assert Lower("in") == "in";
  }

  /** A padded, capitalised inch spelling scales by 25.4 as well. */
  lemma UnitScalePaddedInchExample()
    ensures UnitScaleToMm(" Inches ") == 25.4
  {
    assert LeadingSpaces(" Inches ") == 1;
    assert TrailingSpaces("Inches ") == 1;
    assert Strip(" Inches ") == "Inches";
    assert Lower("Inches")[..2] == "in";
  }

  /** Millimetres, and the empty token, scale by 1.0. */
  lemma UnitScaleMmExamples()
    ensures UnitScaleToMm("mm") == 1.0
    ensures UnitScaleToMm("") == 1.0
  {
    assert LeadingSpaces("mm") == 0;
    assert TrailingSpaces("mm") == 0;
    assert Strip("mm") == "mm";
    assert Lower("mm")[..2] == "mm";
  }

  /** The flattening tolerance in drawing units: a quarter millimetre over the scale,
      which is always 0.25 mm once scaled. */
  function Tolerance(units: string): (tol: real)
    ensures tol > 0.0
    ensures tol * UnitScaleToMm(units) == 0.25
  {
    0.25 / UnitScaleToMm(units)
  }

  // ------------------------------------------------------------------
  // Entities as the DXF library presents them
  // ------------------------------------------------------------------

  /** What iterating `entity.flattening(tol)` gives: the points yielded
      before the iteration ended, and whether it ended by raising. */
  datatype Flattening = Flattening(yielded: seq<Point>, raised: bool)

  /** One step of iterating a library collection: a readable element, an
      element whose attributes raise when read, or the iteration itself
      raising (which ends it). */
  datatype Elem<T> = Readable(value: T) | Unreadable | IterError

  /** `entity.construction_tool()`: `approximate(n)` and `evaluate(t)`,
      each None when the call raised. */
  datatype ConstructionTool = ConstructionTool(
    approximate: nat -> Option<seq<Point>>,
    evaluate: real -> Option<Point>)

  /** The trigonometry the fallbacks use, left uninterpreted: `math.cos`,
      `math.sin` and `math.pi`. */
  datatype Trig = Trig(cos: real -> real, sin: real -> real, pi: real)

  /** One modelspace entity: every attribute the loader reads, None when
      reading it raises. */
  datatype DxfEntity = DxfEntity(
    dxftype: Option<string>,
    flattening: real -> Flattening,
    start: Option<Point>,
    end: Option<Point>,
    center: Option<Point>,
    radius: Option<real>,
    startAngle: Option<real>,
    endAngle: Option<real>,
    tool: Option<ConstructionTool>,
    controlPoints: seq<Elem<Point>>,
    vertices: seq<Elem<Point>>,
    flags: Option<int>,
    closedAttr: Option<bool>,
    layer: Option<string>,
    color: Option<int>)

  /** The entity types the loader distinguishes. */
  datatype EntityKind = Line | Arc | Circle | Ellipse | Spline | LwPolyline | Polyline | Other

  /** The dispatch on `dxftype()`: seven tags are handled, every other tag
      has no fallback. */
  function KindOf(tag: string): (k: EntityKind)
    ensures k == Other <==>
      tag !in {"LINE", "ARC", "CIRCLE", "ELLIPSE", "SPLINE", "LWPOLYLINE", "POLYLINE"}
    ensures k == Line <==> tag == "LINE"
    ensures k == Arc <==> tag == "ARC"
    ensures k == Circle <==> tag == "CIRCLE"
    ensures k == Ellipse <==> tag == "ELLIPSE"
    ensures k == Spline <==> tag == "SPLINE"
    ensures k == LwPolyline <==> tag == "LWPOLYLINE"
    ensures k == Polyline <==> tag == "POLYLINE"
  {
    if tag == "LINE" then Line
    else if tag == "ARC" then Arc
    else if tag == "CIRCLE" then Circle
    else if tag == "ELLIPSE" then Ellipse
    else if tag == "SPLINE" then Spline
    else if tag == "LWPOLYLINE" then LwPolyline
    else if tag == "POLYLINE" then Polyline
    else Other
  }

  // ------------------------------------------------------------------
  // Primary flattening
  // ------------------------------------------------------------------

  /** The first tier: the points of `entity.flattening(tol)`, or nothing
      if that raised (the partial list is discarded). */
  function Primary(e: DxfEntity, tol: real): seq<Point> {
    var f := e.flattening(tol);
    if f.raised then [] else f.yielded
  }

  // ------------------------------------------------------------------
  // ARC and CIRCLE sampling
  // ------------------------------------------------------------------

  function Radians(trig: Trig, deg: real): real {
    deg * trig.pi / 180.0
  }

  /** The point at angle `ang` (in radians) on the circle of centre `c` and radius `r`. */
  function OnCircle(trig: Trig, c: Point, r: real, ang: real): Point {
    Point(c.x + r * trig.cos(ang), c.y + r * trig.sin(ang))
  }

  /** The arc's sweep in degrees after the end angle is moved past the
      start: an end angle below the start is raised by one full turn. */
  function ArcSweep(a1: real, a2: real): real {
    (if a2 < a1 then a2 + 360.0 else a2) - a1
  }

  /** The sweep is non-negative whenever the two angles lie within one
      turn of each other (as DXF angles normally do), and below 360 when
      the end had to be moved. */
  lemma ArcSweepRange(a1: real, a2: real)
    requires a1 - 360.0 <= a2
    ensures 0.0 <= ArcSweep(a1, a2)
    ensures a2 < a1 ==> ArcSweep(a1, a2) <= 360.0
    ensures a2 >= a1 ==> ArcSweep(a1, a2) == a2 - a1
  {
  }

  /** The number of arc steps: the sweep over the tolerance (floored at
      1e-4), truncated toward zero, and never fewer than 12. */
  function ArcSteps(sw: real, tol: real): (n: nat)
    ensures n >= 12
    ensures n > 12 ==> n as real <= sw / (if tol >= 0.0001 then tol else 0.0001)
    ensures sw / (if tol >= 0.0001 then tol else 0.0001) < n as real + 1.0
  {
    var q := Trunc(sw / (if tol >= 0.0001 then tol else 0.0001));
    if q > 12 then q else 12
  }

  /** The angle of step `i`: the start angle plus `i/n` of the sweep. */
  function ArcAngle(a1: real, sw: real, n: nat, i: nat): real
    requires n > 0
  {
    a1 + sw * i as real / n as real
  }

  /** The angles start at the start angle, end at start plus sweep, and
      never decrease when the sweep is non-negative. */
  lemma ArcAnglesProgress(a1: real, sw: real, n: nat, i: nat, j: nat)
    requires n > 0
    ensures ArcAngle(a1, sw, n, 0) == a1
    ensures ArcAngle(a1, sw, n, n) == a1 + sw
    ensures sw >= 0.0 && i <= j ==> ArcAngle(a1, sw, n, i) <= ArcAngle(a1, sw, n, j)
    ensures sw > 0.0 && i < j ==> ArcAngle(a1, sw, n, i) < ArcAngle(a1, sw, n, j)
  {
    var m := n as real;
    assert sw * n as real / m == sw;
    if i <= j {
      assert sw * j as real / m - sw * i as real / m == sw * (j - i) as real / m;
    }
  }

  /** Sample `i` of `n` of the ARC fallback. */
  function ArcPoint(trig: Trig, c: Point, r: real, a1: real, sw: real, n: nat, i: nat): Point
    requires n > 0
  {
    OnCircle(trig, c, r, Radians(trig, ArcAngle(a1, sw, n, i)))
  }

  /** The ARC fallback's points. */
  function ArcPoints(trig: Trig, c: Point, r: real, a1: real, a2: real, tol: real): (out: seq<Point>)
    ensures |out| == ArcSteps(ArcSweep(a1, a2), tol) + 1
  {
    var sw := ArcSweep(a1, a2);
    var n := ArcSteps(sw, tol);
    seq(n + 1, i requires 0 <= i <= n => ArcPoint(trig, c, r, a1, sw, n, i))
  }

  /** The ARC sampling loop. */
  method FlattenArc(trig: Trig, c: Point, r: real, a1: real, a2: real, tol: real) returns (out: seq<Point>)
    ensures out == ArcPoints(trig, c, r, a1, a2, tol)
    ensures |out| >= 13
  {
    var b := if a2 < a1 then a2 + 360.0 else a2;
    var sw := b - a1;
    assert sw == ArcSweep(a1, a2);
    var n := ArcSteps(sw, tol);
    out := [];
    var i := 0;
    while i < n + 1
      invariant 0 <= i <= n + 1
      invariant |out| == i
      invariant forall j :: 0 <= j < i ==> out[j] == ArcPoint(trig, c, r, a1, sw, n, j)
    {
      var ang := Radians(trig, ArcAngle(a1, sw, n, i));
      var p := OnCircle(trig, c, r, ang);
      out := out + [p];
      i := i + 1;
    }
  }

  /** The angle of step `i` of the CIRCLE fallback: `i/64` of a full turn. */
  function CircleAngle(trig: Trig, i: nat): real {
    2.0 * trig.pi * i as real / 64.0
  }

  function CirclePoints(trig: Trig, c: Point, r: real): (out: seq<Point>)
    ensures |out| == 65
  {
    seq(65, i requires 0 <= i < 65 => OnCircle(trig, c, r, CircleAngle(trig, i)))
  }

  /** The CIRCLE sampling loop: 65 samples, from angle 0 to a full turn. */
  method FlattenCircle(trig: Trig, c: Point, r: real) returns (out: seq<Point>)
    ensures out == CirclePoints(trig, c, r)
    ensures |out| == 65
    ensures out[0] == OnCircle(trig, c, r, 0.0) && out[64] == OnCircle(trig, c, r, 2.0 * trig.pi)
  {
    var n := 64;
    out := [];
    var i := 0;
    while i < n + 1
      invariant 0 <= i <= n + 1
      invariant |out| == i
      invariant forall j :: 0 <= j < i ==> out[j] == OnCircle(trig, c, r, CircleAngle(trig, j))
    {
      var ang := 2.0 * trig.pi * i as real / n as real;
      assert ang == CircleAngle(trig, i);
      var p := OnCircle(trig, c, r, ang);
      out := out + [p];
      i := i + 1;
    }
    assert CircleAngle(trig, 64) == 2.0 * trig.pi;
  }

  // ------------------------------------------------------------------
  // ELLIPSE and SPLINE
  // ------------------------------------------------------------------

  /** The ELLIPSE fallback: the construction tool's 64-segment
      approximation, or nothing when either call raises. */
  function EllipsePoints(e: DxfEntity): (out: seq<Point>)
    ensures out != [] ==> e.tool.Some? && e.tool.value.approximate(64) == Some(out)
    ensures e.tool.Some? && e.tool.value.approximate(64).Some? ==> out == e.tool.value.approximate(64).value
    ensures e.tool.None? || e.tool.value.approximate(64).None? ==> out == []
  {
    match e.tool
    case None => []
    case Some(t) =>
      match t.approximate(64)
      case None => []
      case Some(ps) => ps
  }

  /** Reading the control points under a single exception handler:
      the points read before the first failure. */
  function ReadablePrefix(cps: seq<Elem<Point>>): seq<Point> {
    if cps == [] || !cps[0].Readable? then [] else [cps[0].value] + ReadablePrefix(cps[1..])
  }

  /** The control points read are exactly the leading readable ones: the
      read stops at the first element that is not readable. */
  lemma {:induction false} ReadablePrefixExact(cps: seq<Elem<Point>>)
    ensures |ReadablePrefix(cps)| <= |cps|
    ensures forall i :: 0 <= i < |ReadablePrefix(cps)| ==> cps[i] == Readable(ReadablePrefix(cps)[i])
    ensures |ReadablePrefix(cps)| < |cps| ==> !cps[|ReadablePrefix(cps)|].Readable?
  {
    if cps != [] && cps[0].Readable? {
      ReadablePrefixExact(cps[1..]);
    }
  }

  /** The control-point loop of the SPLINE fallback. */
  method ReadControlPoints(cps: seq<Elem<Point>>) returns (cp: seq<Point>)
    ensures cp == ReadablePrefix(cps)
  {
    cp := [];
    var i := 0;
    while i < |cps| && cps[i].Readable?
      invariant 0 <= i <= |cps|
      invariant cp + ReadablePrefix(cps[i..]) == ReadablePrefix(cps)
    {
      assert cps[i..][1..] == cps[i + 1..];
      cp := cp + [cps[i].value];
      i := i + 1;
    }
  }

  /** The SPLINE fallback: the successful evaluations at `t = i/128`, else
      the readable control points. */
  function SplinePoints(e: DxfEntity): seq<Point> {
    match e.tool
    case None => []
    case Some(t) =>
      var samples := GridSamples(t.evaluate, 128, 129);
      if samples != [] then samples else ReadablePrefix(e.controlPoints)
  }

  method FlattenSpline(e: DxfEntity) returns (out: seq<Point>)
    ensures out == SplinePoints(e)
  {
    if e.tool.None? {
      return [];
    }
    out := SampleGrid(e.tool.value.evaluate, 128);
    if out == [] {
      out := ReadControlPoints(e.controlPoints);
    }
  }

  // ------------------------------------------------------------------
  // POLYLINE and LWPOLYLINE
  // ------------------------------------------------------------------

  /** The vertex walk: unreadable vertices are skipped, an iteration error
      ends the walk keeping what was read. */
  function VertexLocations(vs: seq<Elem<Point>>): seq<Point> {
    if vs == [] then []
    else
      match vs[0]
      case IterError => []
      case Unreadable => VertexLocations(vs[1..])
      case Readable(p) => [p] + VertexLocations(vs[1..])
  }

  predicate NoIterError(vs: seq<Elem<Point>>) {
    forall i :: 0 <= i < |vs| ==> !vs[i].IterError?
  }

  /** Walking `a` then `b` reads `a`'s vertices then `b`'s, as long as the
      iteration does not fail inside `a`. */
  lemma {:induction false} VertexLocationsAppend(a: seq<Elem<Point>>, b: seq<Elem<Point>>)
    requires NoIterError(a)
    ensures VertexLocations(a + b) == VertexLocations(a) + VertexLocations(b)
  {
    if a != [] {
      assert (a + b)[1..] == a[1..] + b;
      assert (a + b)[0] == a[0];
      assert !a[0].IterError?;
      assert NoIterError(a[1..]) by {
        forall i | 0 <= i < |a[1..]| ensures !a[1..][i].IterError? {
          assert a[1..][i] == a[i + 1];
        }
      }
      VertexLocationsAppend(a[1..], b);
      assert a + b != [];
      if a[0].Readable? {
        assert VertexLocations(a + b) == [a[0].value] + VertexLocations(a[1..] + b);
        assert VertexLocations(a) == [a[0].value] + VertexLocations(a[1..]);
      } else {
        assert VertexLocations(a + b) == VertexLocations(a[1..] + b);
        assert VertexLocations(a) == VertexLocations(a[1..]);
      }
    } else {
      assert a + b == b;
    }
  }

  /** An unreadable vertex is skipped without stopping the walk; an
      iteration error stops it. */
  lemma VertexSkipAndStop(a: seq<Elem<Point>>, b: seq<Elem<Point>>)
    requires NoIterError(a)
    ensures VertexLocations(a + [Unreadable] + b) == VertexLocations(a + b)
    ensures VertexLocations(a + [IterError] + b) == VertexLocations(a)
  {
    VertexLocationsAppend(a, [Unreadable] + b);
    VertexLocationsAppend(a, [IterError] + b);
    VertexLocationsAppend(a, b);
    assert ([Unreadable] + b)[1..] == b;
    assert a + [Unreadable] + b == a + ([Unreadable] + b);
    assert a + [IterError] + b == a + ([IterError] + b);
    assert VertexLocations(a) + [] == VertexLocations(a);
  }

  /** The vertex loop of the polyline fallback. */
  method ReadVertices(vs: seq<Elem<Point>>) returns (out: seq<Point>)
    ensures out == VertexLocations(vs)
  {
    out := [];
    var i := 0;
    while i < |vs| && !vs[i].IterError?
      invariant 0 <= i <= |vs|
      invariant out + VertexLocations(vs[i..]) == VertexLocations(vs)
    {
      assert vs[i..][1..] == vs[i + 1..];
      if vs[i].Readable? {
        out := out + [vs[i].value];
      }
      i := i + 1;
    }
  }

  /** The polyline fallback: what `flattening(tol)` yielded (also the part
      yielded before it raised), else the readable vertices. */
  function PolylinePoints(e: DxfEntity, tol: real): seq<Point> {
    var out := e.flattening(tol).yielded;
    if out != [] then out else VertexLocations(e.vertices)
  }

  // ------------------------------------------------------------------
  // The flattener
  // ------------------------------------------------------------------

  /** The fallback tier chosen by the entity's type. */
  function Fallback(e: DxfEntity, kind: EntityKind, tol: real, trig: Trig): seq<Point> {
    match kind
    case Line =>
      if e.start.Some? && e.end.Some? then [e.start.value, e.end.value] else []
    case Arc =>
      if e.center.Some? && e.radius.Some? && e.startAngle.Some? && e.endAngle.Some?
      then ArcPoints(trig, e.center.value, e.radius.value, e.startAngle.value, e.endAngle.value, tol)
      else []
    case Circle =>
      if e.center.Some? && e.radius.Some? then CirclePoints(trig, e.center.value, e.radius.value) else []
    case Ellipse => EllipsePoints(e)
    case Spline => SplinePoints(e)
    case LwPolyline => PolylinePoints(e, tol)
    case Polyline => PolylinePoints(e, tol)
    case Other => []
  }

  /** `_flatten_entity` as a function of the entity. */
  function Flattened(e: DxfEntity, tol: real, trig: Trig): seq<Point> {
    var p := Primary(e, tol);
    if p != [] then p
    else
      match e.dxftype
      case None => []
      case Some(t) => Fallback(e, KindOf(t), tol, trig)
  }

  /** `_flatten_entity`: the primary flattening when it gives points,
      otherwise the fallback for the entity's type; never fails. */
  method FlattenEntity(e: DxfEntity, tol: real, trig: Trig) returns (pts: seq<Point>)
    ensures pts == Flattened(e, tol, trig)
    ensures Primary(e, tol) != [] ==> pts == Primary(e, tol)
    ensures Primary(e, tol) == [] && (e.dxftype.None? || KindOf(e.dxftype.value) == Other) ==> pts == []
  {
    var f := e.flattening(tol);
    if !f.raised && f.yielded != [] {
      return f.yielded;
    }
    if e.dxftype.None? {
      return [];
    }
    var kind := KindOf(e.dxftype.value);
    match kind {
      case Line =>
        if e.start.Some? && e.end.Some? {
          pts := [e.start.value, e.end.value];
        } else {
          pts := [];
        }
      case Arc =>
        if e.center.Some? && e.radius.Some? && e.startAngle.Some? && e.endAngle.Some? {
          pts := FlattenArc(trig, e.center.value, e.radius.value, e.startAngle.value, e.endAngle.value, tol);
        } else {
          pts := [];
        }
      case Circle =>
        if e.center.Some? && e.radius.Some? {
          pts := FlattenCircle(trig, e.center.value, e.radius.value);
        } else {
          pts := [];
        }
      case Ellipse =>
        pts := EllipsePoints(e);
      case Spline =>
        pts := FlattenSpline(e);
      case LwPolyline =>
        pts := FlattenPolyline(e, tol);
      case Polyline =>
        pts := FlattenPolyline(e, tol);
      case Other =>
        pts := [];
    }
  }

  method FlattenPolyline(e: DxfEntity, tol: real) returns (out: seq<Point>)
    ensures out == PolylinePoints(e, tol)
  {
    out := e.flattening(tol).yielded;
    if out == [] {
      out := ReadVertices(e.vertices);
    }
  }

  /** With no primary result, a LINE gives exactly its two end points. */
  lemma LineFallback(e: DxfEntity, tol: real, trig: Trig)
    requires Primary(e, tol) == [] && e.dxftype == Some("LINE")
    requires e.start.Some? && e.end.Some?
    ensures Flattened(e, tol, trig) == [e.start.value, e.end.value]
  {
  }

  /** With no primary result, a readable ARC gives `n + 1 >= 13` points at
      the angles `a1 + sw*i/n`, from the start angle to start plus sweep. */
  lemma ArcFallback(e: DxfEntity, tol: real, trig: Trig)
    requires Primary(e, tol) == [] && e.dxftype == Some("ARC")
    requires e.center.Some? && e.radius.Some? && e.startAngle.Some? && e.endAngle.Some?
    ensures var pts := Flattened(e, tol, trig);
      var a1, sw := e.startAngle.value, ArcSweep(e.startAngle.value, e.endAngle.value);
      var n := |pts| - 1;
      && n == ArcSteps(sw, tol) && n >= 12
      && pts[0] == OnCircle(trig, e.center.value, e.radius.value, Radians(trig, a1))
      && pts[n] == OnCircle(trig, e.center.value, e.radius.value, Radians(trig, a1 + sw))
  {
    var a1, sw := e.startAngle.value, ArcSweep(e.startAngle.value, e.endAngle.value);
    var n := ArcSteps(sw, tol);
    ArcAnglesProgress(a1, sw, n, 0, n);
  }

  /** With no primary result, a readable CIRCLE gives 65 samples at the
      angles `2*pi*i/64`. */
  lemma CircleFallback(e: DxfEntity, tol: real, trig: Trig)
    requires Primary(e, tol) == [] && e.dxftype == Some("CIRCLE")
    requires e.center.Some? && e.radius.Some?
    ensures var pts := Flattened(e, tol, trig);
      |pts| == 65 && forall i :: 0 <= i < 65 ==> pts[i] == OnCircle(trig, e.center.value, e.radius.value, CircleAngle(trig, i))
  {
  }

  /** With no primary result, a SPLINE gives its successful evaluations in
      parameter order when there is at least one, else its leading
      readable control points. */
  lemma SplineFallback(e: DxfEntity, tol: real, trig: Trig)
    requires Primary(e, tol) == [] && e.dxftype == Some("SPLINE") && e.tool.Some?
    ensures var ts := GridParams(e.tool.value.evaluate, 128, 129);
      var pts := Flattened(e, tol, trig);
      && (ts != [] ==>
            (|pts| == |ts| <= 129 && forall j :: 0 <= j < |ts| ==> e.tool.value.evaluate(ts[j]) == Some(pts[j])))
      && (ts == [] ==> pts == ReadablePrefix(e.controlPoints))
      && (forall i :: 0 <= i <= 128 ==>
            (e.tool.value.evaluate(GridPoint(128, i)).Some? <==> GridPoint(128, i) in ts))
      && (forall j :: 0 <= j < |ts| ==> exists i :: 0 <= i <= 128 && ts[j] == GridPoint(128, i))
  {
    assert KindOf("SPLINE") == Spline;
    assert Flattened(e, tol, trig) == SplinePoints(e);
    GridSamplesAtParams(e.tool.value.evaluate, 128, 129);
  }

  /** An ellipse the first tier could not flatten yields exactly the 64-way
      approximation of its construction tool, and nothing when the tool or
      the approximation raises. */
  lemma EllipseFallback(e: DxfEntity, tol: real, trig: Trig)
    requires Primary(e, tol) == [] && e.dxftype == Some("ELLIPSE")
    ensures e.tool.Some? && e.tool.value.approximate(64).Some? ==>
      Flattened(e, tol, trig) == e.tool.value.approximate(64).value
    ensures e.tool.None? || e.tool.value.approximate(64).None? ==> Flattened(e, tol, trig) == []
  {
    assert KindOf("ELLIPSE") == Ellipse;
  }

  /** A spline whose construction tool cannot be built, and that the first
      tier could not flatten, gives nothing: the outer handler catches the
      failure before any control point is read. */
  lemma SplineWithoutTool(e: DxfEntity, tol: real, trig: Trig)
    requires Primary(e, tol) == [] && e.dxftype == Some("SPLINE") && e.tool.None?
    ensures Flattened(e, tol, trig) == []
  {
    assert KindOf("SPLINE") == Spline;
  }

  /** A polyline whose flattening raised after yielding some points keeps
      those points: the fallback re-runs the flattening and, unlike the
      first tier, does not discard a partial result. */
  lemma PolylinePartialFlattening(e: DxfEntity, tol: real, trig: Trig)
    requires e.dxftype == Some("POLYLINE") || e.dxftype == Some("LWPOLYLINE")
    requires e.flattening(tol).raised && e.flattening(tol).yielded != []
    ensures Primary(e, tol) == []
    ensures Flattened(e, tol, trig) == e.flattening(tol).yielded
  {
  }

  /** A polyline whose flattening yields nothing falls back to its
      readable vertices. */
  lemma PolylineVertexFallback(e: DxfEntity, tol: real, trig: Trig)
    requires e.dxftype == Some("POLYLINE") || e.dxftype == Some("LWPOLYLINE")
    requires e.flattening(tol).yielded == []
    ensures Flattened(e, tol, trig) == VertexLocations(e.vertices)
  {
  }

  // ------------------------------------------------------------------
  // Closure
  // ------------------------------------------------------------------

  /** The closure decision of `load_dxf`, with the force-closed points. */
  function DxfClosure(kind: EntityKind, e: DxfEntity, pts: seq<Point>): (res: (bool, seq<Point>))
    requires |pts| >= 2
    ensures res.0 ==> RingClosed(res.1)
    ensures |pts| <= |res.1| <= |pts| + 1 && res.1[..|pts|] == pts
    ensures !res.0 ==> res.1 == pts
    ensures RingClosed(pts) ==> res.1 == pts
    ensures |res.1| > |pts| <==> res.0 && !RingClosed(pts)
  {
    match kind
    case Circle => (true, ForceClose(pts))
    case Ellipse => (true, ForceClose(pts))
    case LwPolyline => FlagClosure(e.flags, pts)
    case Polyline => FlagClosure(e.flags, pts)
    case Spline =>
      var closed := match e.closedAttr case Some(b) => b case None => RingClosed(pts);
      (closed, if closed then ForceClose(pts) else pts)
    case Line => (RingClosed(pts), pts)
    case Arc => (RingClosed(pts), pts)
    case Other => (RingClosed(pts), pts)
  }

  /** The polyline rule: bit 0 of the flags word when it can be read,
      otherwise whether the end points coincide. */
  function FlagClosure(flags: Option<int>, pts: seq<Point>): (res: (bool, seq<Point>))
    requires |pts| >= 2
    ensures res.0 ==> RingClosed(res.1)
    ensures |pts| <= |res.1| <= |pts| + 1 && res.1[..|pts|] == pts
    ensures !res.0 ==> res.1 == pts
    ensures RingClosed(pts) ==> res.1 == pts
    ensures |res.1| > |pts| <==> res.0 && !RingClosed(pts)
  {
    var closed := match flags case Some(f) => f % 2 == 1 case None => RingClosed(pts);
    (closed, if closed then ForceClose(pts) else pts)
  }

  /** Explicit metadata decides when it can be read; only otherwise is the
      geometry compared. Circles and ellipses are always closed, and the
      remaining kinds are only ever classified, never extended. */
  lemma ClosureRules(kind: EntityKind, e: DxfEntity, pts: seq<Point>)
    requires |pts| >= 2
    ensures (kind == Circle || kind == Ellipse) ==> DxfClosure(kind, e, pts).0
    ensures (kind == Polyline || kind == LwPolyline) && e.flags.Some? ==>
      (DxfClosure(kind, e, pts).0 <==> e.flags.value % 2 == 1)
    ensures (kind == Polyline || kind == LwPolyline) && e.flags.None? ==>
      (DxfClosure(kind, e, pts).0 <==> RingClosed(pts))
    ensures kind == Spline && e.closedAttr.Some? ==> DxfClosure(kind, e, pts).0 == e.closedAttr.value
    ensures kind == Spline && e.closedAttr.None? ==> (DxfClosure(kind, e, pts).0 <==> RingClosed(pts))
    ensures (kind == Line || kind == Arc || kind == Other) ==>
      DxfClosure(kind, e, pts) == (RingClosed(pts), pts)
  {
  }

  // ------------------------------------------------------------------
  // Metadata and assembly
  // ------------------------------------------------------------------

  /** The entity's layer name, or "0" when it cannot be read. */
  function LayerName(e: DxfEntity): (l: string)
    ensures e.layer.Some? ==> l == e.layer.value
    ensures e.layer.None? ==> l == "0"
  {
    e.layer.GetOr("0")
  }

  /** A positive colour index written in decimal; None for zero, a
      negative index, or a colour that cannot be read. */
  function ColorName(e: DxfEntity): (c: Option<string>)
    ensures c.Some? <==> e.color.Some? && e.color.value > 0
    ensures c.Some? ==> c.value == NatToDecimal(e.color.value) && DecimalValue(c.value) == e.color.value
  {
    match e.color
    case Some(col) =>
      if col > 0 then
        DecimalRoundTrip(col);
        Some(NatToDecimal(col))
      else None
    case None => None
  }

  /** The record one entity contributes, or None when its type cannot be
      read or it flattens to fewer than two points. */
  function EntityRecord(e: DxfEntity, tol: real, scale: real, trig: Trig): (r: Option<PathRecord>)
    ensures r.Some? <==> e.dxftype.Some? && |Flattened(e, tol, trig)| >= 2
    ensures r.Some? ==> WellFormed(r.value) && r.value.source == Dxf
    ensures r.Some? ==> r.value.layer == Some(LayerName(e)) && r.value.color == ColorName(e)
  {
    match e.dxftype
    case None => None
    case Some(t) =>
      var pts := Flattened(e, tol, trig);
      if |pts| < 2 then None
      else
        var res := DxfClosure(KindOf(t), e, pts);
        ScaleKeepsRing(res.1, scale);
        Some(PathRecord(ScalePoints(res.1, scale), res.0, Some(LayerName(e)), ColorName(e), Dxf))
  }

  /** A record's points are the flattened points, closed into a ring when
      required, each multiplied by the unit scale. */
  lemma EntityRecordPoints(e: DxfEntity, tol: real, scale: real, trig: Trig)
    requires EntityRecord(e, tol, scale, trig).Some?
    ensures var r := EntityRecord(e, tol, scale, trig).value;
      var pts := Flattened(e, tol, trig);
      var res := DxfClosure(KindOf(e.dxftype.value), e, pts);
      && r.closed == res.0
      && |pts| <= |r.points| <= |pts| + 1
      && (!r.closed ==> |r.points| == |pts|)
      && (forall i :: 0 <= i < |pts| ==> r.points[i] == ScalePoint(pts[i], scale))
      && (|r.points| > |pts| ==> r.points[|pts|] == ScalePoint(pts[0], scale))
      && (|r.points| > |pts| <==> r.closed && pts[0] != pts[|pts| - 1])
  {
    var pts := Flattened(e, tol, trig);
    var res := DxfClosure(KindOf(e.dxftype.value), e, pts);
    assert forall i :: 0 <= i < |pts| ==> res.1[i] == pts[i];
    if |res.1| > |pts| {
      assert res.1[|pts|] == res.1[0];
    }
  }

  /** The step of the modelspace loop. */
  function EntityStep(tol: real, scale: real, trig: Trig): DxfEntity -> seq<PathRecord> {
    (e: DxfEntity) => OptionToSeq(EntityRecord(e, tol, scale, trig))
  }

  /** `load_dxf` as a function of the modelspace (None when the library is
      missing or the file cannot be read), the units token and the
      trigonometry. */
  function DxfPaths(doc: Option<seq<DxfEntity>>, units: string, trig: Trig): seq<PathRecord> {
    match doc
    case None => []
    case Some(entities) =>
      FlatMap(EntityStep(Tolerance(units), UnitScaleToMm(units), trig), entities)
  }

  /** Every record the loader emits has at least two points, ends where it
      starts when closed, and is tagged `dxf`. */
  lemma DxfPathsWellFormed(doc: Option<seq<DxfEntity>>, units: string, trig: Trig)
    ensures AllWellFormed(DxfPaths(doc, units, trig), Dxf)
  {
    if doc.Some? {
      var f := EntityStep(Tolerance(units), UnitScaleToMm(units), trig);
      forall i | 0 <= i < |doc.value| ensures AllWellFormed(f(doc.value[i]), Dxf) {
        var r := EntityRecord(doc.value[i], Tolerance(units), UnitScaleToMm(units), trig);
        assert f(doc.value[i]) == OptionToSeq(r);
      }
      FlatMapWellFormed(f, doc.value, Dxf);
    }
  }

  /** Entities are independent: an entity that cannot be used (its type
      unreadable, or too few points) leaves its neighbours' records
      exactly as they would be without it, and order follows modelspace. */
  lemma SkippedEntityIsInvisible(a: seq<DxfEntity>, e: DxfEntity, b: seq<DxfEntity>, units: string, trig: Trig)
    requires EntityRecord(e, Tolerance(units), UnitScaleToMm(units), trig).None?
    ensures DxfPaths(Some(a + [e] + b), units, trig) == DxfPaths(Some(a), units, trig) + DxfPaths(Some(b), units, trig)
  {
    var f := EntityStep(Tolerance(units), UnitScaleToMm(units), trig);
    assert f(e) == [];
    FlatMapSkip(f, a, e, b);
  }

  /** The record of a LINE from (0,0) to (10,0) on layer CUT, colour 1,
      whose primary flattening gives nothing: an open two-point path with
      both ends multiplied by 25.4. */
  lemma LineRecordExample(e: DxfEntity, tol: real, trig: Trig)
    requires e.dxftype == Some("LINE") && Primary(e, tol) == []
    requires e.start == Some(Point(0.0, 0.0)) && e.end == Some(Point(10.0, 0.0))
    requires e.layer == Some("CUT") && e.color == Some(1)
    ensures EntityRecord(e, tol, 25.4, trig) ==
      Some(PathRecord([Point(0.0, 0.0), Point(254.0, 0.0)], false, Some("CUT"), Some("1"), Dxf))
  {
    var pts := [Point(0.0, 0.0), Point(10.0, 0.0)];
    LineFallback(e, tol, trig);
    assert KindOf("LINE") == Line;
    EntityRecordShape(e, tol, 25.4, trig, Line, pts);
    LineClosureExample(e);
    ScaleInchExample();
    ColorOneExample();
  }

  /** The record of an entity that flattens to at least two points. */
  lemma EntityRecordShape(e: DxfEntity, tol: real, scale: real, trig: Trig, kind: EntityKind, pts: seq<Point>)
    requires e.dxftype.Some? && KindOf(e.dxftype.value) == kind
    requires Flattened(e, tol, trig) == pts && |pts| >= 2
    ensures EntityRecord(e, tol, scale, trig) ==
      Some(PathRecord(ScalePoints(DxfClosure(kind, e, pts).1, scale), DxfClosure(kind, e, pts).0,
                      Some(LayerName(e)), ColorName(e), Dxf))
  {
  }

  /** A LINE between two distinct points is open and is not extended. */
  lemma LineClosureExample(e: DxfEntity)
    ensures DxfClosure(Line, e, [Point(0.0, 0.0), Point(10.0, 0.0)]) == (false, [Point(0.0, 0.0), Point(10.0, 0.0)])
  {
  }

  /** Colour index 1 is written "1". */
  lemma ColorOneExample()
    ensures NatToDecimal(1) == "1"
  {
  }

  /** Ten drawing units in inches are 254 millimetres. */
  lemma ScaleInchExample()
    ensures ScalePoints([Point(0.0, 0.0), Point(10.0, 0.0)], 25.4) == [Point(0.0, 0.0), Point(254.0, 0.0)]
  {
  }

  /** A drawing in inches holding just that LINE yields exactly its record. */
  lemma LineInInchesExample(e: DxfEntity, trig: Trig)
    requires e.dxftype == Some("LINE") && Primary(e, Tolerance("in")) == []
    requires e.start == Some(Point(0.0, 0.0)) && e.end == Some(Point(10.0, 0.0))
    requires e.layer == Some("CUT") && e.color == Some(1)
    ensures DxfPaths(Some([e]), "in", trig) ==
      [PathRecord([Point(0.0, 0.0), Point(254.0, 0.0)], false, Some("CUT"), Some("1"), Dxf)]
  {
    UnitScaleInchExample();
    var tol := Tolerance("in");
    LineRecordExample(e, tol, trig);
    FlatMapSingle(EntityStep(tol, 25.4, trig), e);
  }

  /** `load_dxf`. */
  method LoadDxf(doc: Option<seq<DxfEntity>>, units: string, trig: Trig) returns (paths: seq<PathRecord>)
    ensures paths == DxfPaths(doc, units, trig)
    ensures AllWellFormed(paths, Dxf)
    ensures doc.None? ==> paths == []
  {
    DxfPathsWellFormed(doc, units, trig);
    if doc.None? {
      return [];
    }
    var entities := doc.value;
    var scale := UnitScaleToMm(units);
    var tol := 0.25 / scale;
    paths := [];
    var i := 0;
    while i < |entities|
      invariant 0 <= i <= |entities|
      invariant paths == FlatMap(EntityStep(tol, scale, trig), entities[..i])
    {
      FlatMapSnoc(EntityStep(tol, scale, trig), entities, i);
      var rec := ProcessEntity(entities[i], tol, scale, trig);
      assert EntityStep(tol, scale, trig)(entities[i]) == OptionToSeq(rec);
      if rec.Some? {
        paths := paths + [rec.value];
      }
      i := i + 1;
    }
    assert entities[..i] == entities;
  }

  /** The body of the modelspace loop. */
  method ProcessEntity(e: DxfEntity, tol: real, scale: real, trig: Trig) returns (rec: Option<PathRecord>)
    ensures rec == EntityRecord(e, tol, scale, trig)
  {
    if e.dxftype.None? {
      return None;
    }
    var t := e.dxftype.value;
    var pts := FlattenEntity(e, tol, trig);
    if |pts| < 2 {
      return None;
    }
    ghost var flat := pts;
    var kind := KindOf(t);
    var closed := false;
    if kind == Circle || kind == Ellipse {
      closed := true;
      if pts[0] != pts[|pts| - 1] {
        pts := pts + [pts[0]];
      }
    } else if kind == LwPolyline || kind == Polyline {
      if e.flags.Some? {
        closed := e.flags.value % 2 == 1;
      } else {
        closed := pts[0] == pts[|pts| - 1];
      }
      if closed && pts[0] != pts[|pts| - 1] {
        pts := pts + [pts[0]];
      }
    } else if kind == Spline {
      if e.closedAttr.Some? {
        closed := e.closedAttr.value;
      } else {
        closed := pts[0] == pts[|pts| - 1];
      }
      if closed && pts[0] != pts[|pts| - 1] {
        pts := pts + [pts[0]];
      }
    } else {
      closed := pts[0] == pts[|pts| - 1];
    }
    assert (closed, pts) == DxfClosure(kind, e, flat);
    var layer := if e.layer.Some? then e.layer.value else "0";
    var color: Option<string> := None;
    if e.color.Some? && e.color.value > 0 {
      color := Some(NatToDecimal(e.color.value));
    }
    var scaled := ScalePoints(pts, scale);
    rec := Some(PathRecord(scaled, closed, Some(layer), color, Dxf));
  }
}
