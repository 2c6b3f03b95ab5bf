/** The SVG loader: unit scale table, the split of a path `d` string into
    subpaths at move commands, curve sampling, closure detection, and the
    assembly of one output record per subpath, in element order and then
    subpath order. */
module SvgParser {
  import opened Wrappers
  import opened Strings
  import opened Geometry
  import opened Sampling

  // ------------------------------------------------------------------
  // Unit scale
  // ------------------------------------------------------------------

  /** `_unit_scale_to_mm`: millimetres per unit of the (optional) token. */
  function UnitScaleToMm(unit: Option<string>): (r: real)
    ensures r > 0.0
    ensures unit.None? ==> r == 1.0
  {
    if unit.None? || unit.value == [] then 1.0
    else
      var u := Lower(Strip(unit.value));
      if u in {"mm", "millimeter", "millimeters"} then 1.0
      else if u in {"inch", "inches", "in"} then 25.4
      else if u in {"cm", "centimeter", "centimeters"} then 10.0
      else if u in {"px", "pixels", "pixel"} then 25.4 / 96.0
      else 1.0
  }

  /** The tokens the converter recognises, after normalisation, with the
      scale each stands for. */
  const UnitTable: map<string, real> := map[
    "mm" := 1.0, "millimeter" := 1.0, "millimeters" := 1.0,
    "inch" := 25.4, "inches" := 25.4, "in" := 25.4,
    "cm" := 10.0, "centimeter" := 10.0, "centimeters" := 10.0,
    "px" := 25.4 / 96.0, "pixels" := 25.4 / 96.0, "pixel" := 25.4 / 96.0]

  /** The converter agrees with the table on every token, and falls back
      to 1.0 (millimetres) on any token the table does not list. */
  lemma UnitScaleMatchesTable(unit: string)
    ensures UnitScaleToMm(Some(unit)) ==
      (var u := Lower(Strip(unit)); if u in UnitTable then UnitTable[u] else 1.0)
  {
    var u := Lower(Strip(unit));
    if unit == [] {
      assert Strip(unit) == [];
      assert u == [];
      assert u !in UnitTable;
    }
  }

  /** Surrounding white space and letter case do not change the scale. */
  lemma UnitScaleNormalised(unit: string)
    ensures UnitScaleToMm(Some(unit)) == UnitScaleToMm(Some(Lower(Strip(unit))))
  {
    NormaliseIdempotent(unit);
  }

  /** The fixed pixel factor the loader applies (96 pixels per inch). */
  lemma PixelScale()
    ensures UnitScaleToMm(Some("px")) == 25.4 / 96.0
  {
    assert LeadingSpaces("px") == 0;
    assert TrailingSpaces("px") == 0;
    assert Strip("px") == "px";
    assert Lower("px") == "px";
  }

  // ------------------------------------------------------------------
  // Splitting a path string into subpaths
  // ------------------------------------------------------------------

  predicate IsMove(c: char) {
    c == 'M' || c == 'm'
  }

  function CountMoves(s: string): nat {
    if s == [] then 0 else (if IsMove(s[0]) then 1 else 0) + CountMoves(s[1..])
  }

  /** A regular-expression split at a zero-width look-ahead for a move
      command: the pieces of `s` cut just before every
      move character. A move at position 0 leaves an empty first piece. */
  function SplitBeforeMoves(s: string): (r: seq<string>)
    ensures |r| == CountMoves(s) + 1
    ensures forall j :: 0 <= j < |r[0]| ==> !IsMove(r[0][j])
    ensures forall k :: 1 <= k < |r| ==> r[k] != [] && IsMove(r[k][0])
    ensures forall k, j :: 1 <= k < |r| && 1 <= j < |r[k]| ==> !IsMove(r[k][j])
    ensures s != [] && !IsMove(s[0]) ==> r[0] != [] && r[0][0] == s[0]
    ensures s != [] && IsMove(s[0]) ==> r[0] == []
  {
    if s == [] then [[]]
    else
      var rest := SplitBeforeMoves(s[1..]);
      if IsMove(s[0]) then [[], [s[0]] + rest[0]] + rest[1..]
      else [[s[0]] + rest[0]] + rest[1..]
  }

  function Concat(ps: seq<string>): string {
    if ps == [] then [] else ps[0] + Concat(ps[1..])
  }

  lemma ConcatCons(x: string, ys: seq<string>)
    ensures Concat([x] + ys) == x + Concat(ys)
  {
    assert ([x] + ys)[1..] == ys;
  }

  /** The pieces, concatenated in order, give back the string. */
  lemma {:induction false} SplitBeforeMovesConcat(s: string)
    ensures Concat(SplitBeforeMoves(s)) == s
  {
    if s != [] {
      var rest := SplitBeforeMoves(s[1..]);
      SplitBeforeMovesConcat(s[1..]);
      assert rest == [rest[0]] + rest[1..];
      ConcatCons(rest[0], rest[1..]);
      var head := [s[0]] + rest[0];
      ConcatCons(head, rest[1..]);
      if IsMove(s[0]) {
        ConcatCons([], [head] + rest[1..]);
        assert SplitBeforeMoves(s) == [[]] + ([head] + rest[1..]);
      } else {
        assert SplitBeforeMoves(s) == [head] + rest[1..];
      }
      assert s == [s[0]] + s[1..];
    }
  }

  /** Every piece stripped, dropping the pieces that strip to nothing. */
  function KeepStripped(ps: seq<string>): (r: seq<string>)
    ensures |r| <= |ps|
  {
    if ps == [] then []
    else (if Strip(ps[0]) != [] then [Strip(ps[0])] else []) + KeepStripped(ps[1..])
  }

  function StripAll(ps: seq<string>): (r: seq<string>)
    ensures |r| == |ps| && forall i :: 0 <= i < |ps| ==> r[i] == Strip(ps[i])
  {
    seq(|ps|, i requires 0 <= i < |ps| => Strip(ps[i]))
  }

  /** Pieces that begin with a non-space are all kept. */
  lemma {:induction false} KeepStrippedAll(ps: seq<string>)
    requires forall k :: 0 <= k < |ps| ==> ps[k] != [] && !IsSpace(ps[k][0])
    ensures KeepStripped(ps) == StripAll(ps)
  {
    if ps != [] {
      KeepStrippedAll(ps[1..]);
      StripKeepsHead(ps[0]);
      assert StripAll(ps) == [Strip(ps[0])] + StripAll(ps[1..]);
    }
  }

  /** A piece that starts with its only move character still does after
      stripping. */
  lemma StripMovePiece(p: string)
    requires p != [] && IsMove(p[0])
    requires forall j :: 1 <= j < |p| ==> !IsMove(p[j])
    ensures var q := Strip(p);
      q != [] && IsMove(q[0]) && forall j :: 1 <= j < |q| ==> !IsMove(q[j])
  {
    StripKeepsHead(p);
  }

  /** A piece without move characters has none after stripping. */
  lemma StripMoveFree(p: string)
    requires forall j :: 0 <= j < |p| ==> !IsMove(p[j])
    ensures forall j :: 0 <= j < |Strip(p)| ==> !IsMove(Strip(p)[j])
  {
    StripChars(p);
    assert forall j :: 0 <= j < |Strip(p)| ==> Strip(p)[j] in Strip(p);
  }

  /** `_split_path_by_moves`: the subpath strings of a `d` attribute. */
  function SplitPathByMoves(d: string): (r: seq<string>)
    ensures d == [] ==> r == []
    ensures forall k :: 0 <= k < |r| ==> r[k] != [] && IsStripped(r[k])
    ensures forall k :: 1 <= k < |r| ==> IsMove(r[k][0])
    ensures forall k, j :: 0 <= k < |r| && 1 <= j < |r[k]| ==> !IsMove(r[k][j])
    ensures |r| == CountMoves(Strip(d)) + (if Strip(d) != [] && !IsMove(Strip(d)[0]) then 1 else 0)
  {
    if d == [] then []
    else
      var t := Strip(d);
      SplitStrippedFacts(t);
      KeepStripped(SplitBeforeMoves(t))
  }

  /** A fragment that opens with its only move command. */
  predicate MoveFragment(f: string) {
    f != [] && IsStripped(f) && IsMove(f[0]) && forall j :: 1 <= j < |f| ==> !IsMove(f[j])
  }

  /** A fragment with no move command at all. */
  predicate LeadFragment(f: string) {
    f != [] && IsStripped(f) && forall j :: 0 <= j < |f| ==> !IsMove(f[j])
  }

  /** The pieces after the first are all kept, each a move fragment. */
  lemma TailFragments(t: string)
    ensures var rt := KeepStripped(SplitBeforeMoves(t)[1..]);
      |rt| == CountMoves(t) && forall k :: 0 <= k < |rt| ==> MoveFragment(rt[k])
  {
    var ps := SplitBeforeMoves(t);
    var tail := ps[1..];
    assert forall k :: 0 <= k < |tail| ==> tail[k] == ps[k + 1];
    KeepStrippedAll(tail);
    var rt := StripAll(tail);
    forall k | 0 <= k < |tail| ensures MoveFragment(rt[k]) {
      StripMovePiece(tail[k]);
    }
  }

  /** The first piece is kept exactly when the string does not open with
      a move, and then it has no move in it. */
  lemma HeadFragment(t: string)
    requires IsStripped(t)
    ensures var ps := SplitBeforeMoves(t);
      KeepStripped(ps) ==
        (if t != [] && !IsMove(t[0]) then [Strip(ps[0])] else []) + KeepStripped(ps[1..])
    ensures var ps := SplitBeforeMoves(t);
      t != [] && !IsMove(t[0]) ==> LeadFragment(Strip(ps[0]))
  {
    var ps := SplitBeforeMoves(t);
    assert ps == [ps[0]] + ps[1..];
    if t != [] && !IsMove(t[0]) {
      StripKeepsHead(ps[0]);
      StripMoveFree(ps[0]);
    } else {
      assert ps[0] == [];
    }
  }

  /** An optional lead fragment followed by move fragments: every
      fragment is non-empty and stripped, only the first may lack a
      leading move, and no fragment has a move after its first character. */
  lemma FragmentListFacts(head: seq<string>, rt: seq<string>)
    requires |head| <= 1 && forall k :: 0 <= k < |head| ==> LeadFragment(head[k])
    requires forall k :: 0 <= k < |rt| ==> MoveFragment(rt[k])
    ensures var r := head + rt;
      && (forall k :: 0 <= k < |r| ==> r[k] != [] && IsStripped(r[k]))
      && (forall k :: 1 <= k < |r| ==> IsMove(r[k][0]))
      && (forall k, j :: 0 <= k < |r| && 1 <= j < |r[k]| ==> !IsMove(r[k][j]))
  {
    var r := head + rt;
    forall k | 0 <= k < |r|
      ensures r[k] != [] && IsStripped(r[k])
      ensures k >= 1 ==> IsMove(r[k][0])
      ensures forall j :: 1 <= j < |r[k]| ==> !IsMove(r[k][j])
    {
      if k >= |head| {
        assert r[k] == rt[k - |head|];
        assert MoveFragment(rt[k - |head|]);
      } else {
        assert r[k] == head[k];
        assert LeadFragment(head[k]);
      }
    }
  }

  /** What splitting and filtering a stripped string yields. */
  lemma SplitStrippedFacts(t: string)
    requires IsStripped(t)
    ensures var r := KeepStripped(SplitBeforeMoves(t));
      && (forall k :: 0 <= k < |r| ==> r[k] != [] && IsStripped(r[k]))
      && (forall k :: 1 <= k < |r| ==> IsMove(r[k][0]))
      && (forall k, j :: 0 <= k < |r| && 1 <= j < |r[k]| ==> !IsMove(r[k][j]))
      && |r| == CountMoves(t) + (if t != [] && !IsMove(t[0]) then 1 else 0)
  {
    var ps := SplitBeforeMoves(t);
    TailFragments(t);
    HeadFragment(t);
    var lead := t != [] && !IsMove(t[0]);
    var head := if lead then [Strip(ps[0])] else [];
    FragmentListFacts(head, KeepStripped(ps[1..]));
  }

  /** Every fragment is its own `strip()`. */
  lemma SplitFragmentsStripped(d: string)
    ensures forall f :: f in SplitPathByMoves(d) ==> f != [] && Strip(f) == f
  {
    forall f | f in SplitPathByMoves(d) ensures f != [] && Strip(f) == f {
      StripStripped(f);
    }
  }

  /** Every subpath is a substring of the pieces: joining the pieces that
      the split cuts gives back the stripped attribute. */
  lemma SplitPathPiecesConcat(d: string)
    ensures Concat(SplitBeforeMoves(Strip(d))) == Strip(d)
  {
    SplitBeforeMovesConcat(Strip(d));
  }

  /** `M0L1 m2Z` is cut before both moves, leaving an empty first piece. */
  lemma SplitBeforeMovesExample()
    ensures SplitBeforeMoves("M0L1 m2Z") == [[], "M0L1 ", "m2Z"]
  {
    var s := "M0L1 m2Z";
    assert s[7..][1..] == [];
    assert SplitBeforeMoves([]) == [[]];
    assert SplitBeforeMoves(s[7..]) == [[s[7]] + []] + [];
    assert [s[7]] + [] == [s[7]];
    assert s[6..][1..] == s[7..];
    assert [s[6]] + [s[7]] == "2Z";
    assert SplitBeforeMoves(s[6..]) == ["2Z"];
    assert s[5..][1..] == s[6..];
    assert [s[5]] + "2Z" == "m2Z";
    assert SplitBeforeMoves(s[5..]) == [[], "m2Z"];
    assert s[4..][1..] == s[5..];
    assert [s[4]] + [] == " ";
    assert SplitBeforeMoves(s[4..]) == [" ", "m2Z"];
    assert s[3..][1..] == s[4..];
    assert [s[3]] + " " == "1 ";
    assert SplitBeforeMoves(s[3..]) == ["1 ", "m2Z"];
    assert s[2..][1..] == s[3..];
    assert [s[2]] + "1 " == "L1 ";
    assert SplitBeforeMoves(s[2..]) == ["L1 ", "m2Z"];
    assert s[1..][1..] == s[2..];
    assert [s[1]] + "L1 " == "0L1 ";
    assert SplitBeforeMoves(s[1..]) == ["0L1 ", "m2Z"];
    assert [s[0]] + "0L1 " == "M0L1 ";
  }

  /** The filter drops the empty piece and strips the others. */
  lemma KeepStrippedExample()
    ensures KeepStripped([[], "M0L1 ", "m2Z"]) == ["M0L1", "m2Z"]
  {
    var ps: seq<string> := [[], "M0L1 ", "m2Z"];
    assert LeadingSpaces("M0L1 ") == 0;
    assert TrailingSpaces("M0L1 ") == 1;
    assert Strip("M0L1 ") == "M0L1";
    assert LeadingSpaces("m2Z") == 0;
    assert TrailingSpaces("m2Z") == 0;
    assert Strip("m2Z") == "m2Z";
    assert Strip([]) == [];
    assert ps[1..][1..][1..] == [];
    assert KeepStripped(ps[1..][1..]) == ["m2Z"];
    assert KeepStripped(ps[1..]) == ["M0L1", "m2Z"];
  }

  /** An attribute with two move commands gives two stripped subpaths,
      each starting at its move. */
  lemma SplitPathByMovesExample()
    ensures SplitPathByMoves(" M0L1 m2Z") == ["M0L1", "m2Z"]
  {
    assert LeadingSpaces(" M0L1 m2Z") == 1;
    assert TrailingSpaces("M0L1 m2Z") == 0;
    assert Strip(" M0L1 m2Z") == "M0L1 m2Z";
    SplitBeforeMovesExample();
    KeepStrippedExample();
  }

  // ------------------------------------------------------------------
  // Attributes
  // ------------------------------------------------------------------

  /** The attributes of one `<path>` element: the `key="value"` matches in
      the order they occur. */
  type AttrPairs = seq<(string, string)>

  /** The dictionary built by storing each match's value under its key,
      in match order. */
  function AttrsOf(pairs: AttrPairs): map<string, string> {
    if pairs == [] then map[]
    else AttrsOf(pairs[..|pairs| - 1])[pairs[|pairs| - 1].0 := pairs[|pairs| - 1].1]
  }

  /** A key is present iff some match has it, and its value is that of
      the last match with that key. */
  lemma {:induction false} AttrsLastWins(pairs: AttrPairs, key: string)
    ensures key in AttrsOf(pairs) <==> exists i :: 0 <= i < |pairs| && pairs[i].0 == key
    ensures key in AttrsOf(pairs) ==>
      exists i :: (0 <= i < |pairs| && pairs[i] == (key, AttrsOf(pairs)[key])
                   && forall j :: i < j < |pairs| ==> pairs[j].0 != key)
  {
    if pairs != [] {
      var init := pairs[..|pairs| - 1];
      var n := |pairs| - 1;
      AttrsLastWins(init, key);
      assert forall i :: 0 <= i < n ==> init[i] == pairs[i];
      if pairs[n].0 != key && key in AttrsOf(init) {
        var i :| 0 <= i < |init| && init[i] == (key, AttrsOf(init)[key])
          && forall j :: i < j < |init| ==> init[j].0 != key;
        assert pairs[i] == (key, AttrsOf(pairs)[key]);
      }
    }
  }

  /** The attribute loop of `load_svg`. */
  method BuildAttrs(pairs: AttrPairs) returns (attrs: map<string, string>)
    ensures attrs == AttrsOf(pairs)
  {
    attrs := map[];
    var i := 0;
    while i < |pairs|
      invariant 0 <= i <= |pairs|
      invariant attrs == AttrsOf(pairs[..i])
    {
      assert pairs[..i + 1][..i] == pairs[..i];
      attrs := attrs[pairs[i].0 := pairs[i].1];
      i := i + 1;
    }
    assert pairs[..i] == pairs;
  }

  /** The `stroke` attribute as the colour, with `"none"` and `""` read as
      absent. */
  function StrokeColor(attrs: map<string, string>): (c: Option<string>)
    ensures c.Some? <==> "stroke" in attrs && attrs["stroke"] != "none" && attrs["stroke"] != ""
    ensures c.Some? ==> c.value == attrs["stroke"]
  {
    match Get(attrs, "stroke")
    case Some(s) => if s == "none" || s == "" then None else Some(s)
    case None => None
  }

  // ------------------------------------------------------------------
  // Curves and flattening
  // ------------------------------------------------------------------

  /** What the curve library answers about one parsed subpath:
      `len(path)`, `path.length()` (None when it raised), `path.point(t)`
      (None when it raised) and `path.isclosed()` (None when it raised). */
  datatype SvgCurve = SvgCurve(
    segmentCount: nat,
    length: Option<real>,
    point: real -> Option<Point>,
    isClosed: Option<bool>)

  function MaxReal(a: real, b: real): (m: real)
    ensures m >= a && m >= b && (m == a || m == b)
  {
    if a >= b then a else b
  }

  /** The curve length the sampler uses: at least 1e-3, 1.0 when
      measuring failed. */
  function CurveLength(c: SvgCurve): (len: real)
    ensures len >= 0.001
    ensures c.length.Some? ==> len == MaxReal(c.length.value, 0.001)
    ensures c.length.None? ==> len == 1.0
  {
    match c.length
    case Some(l) => MaxReal(l, 0.001)
    case None => 1.0
  }

  /** The segment count: the length over the tolerance (floored at 1e-3),
      truncated toward zero: at least 64, and
      above 64 only as the whole number of tolerance steps the length holds. */
  function SegmentCount(c: SvgCurve, tol: real): (segs: nat)
    ensures segs >= 64
    ensures CurveLength(c) / MaxReal(tol, 0.001) < segs as real + 1.0
    ensures segs > 64 ==> segs as real <= CurveLength(c) / MaxReal(tol, 0.001)
  {
    var q := CurveLength(c) / MaxReal(tol, 0.001);
    assert q > 0.0;
    var n := Trunc(q);
    if n > 64 then n else 64
  }

  /** The points `_flatten_path_points` returns, as a function of its inputs. */
  function FlatPoints(path: Option<SvgCurve>, tol: real): seq<Point> {
    match path
    case None => []
    case Some(c) =>
      var segs := SegmentCount(c, tol);
      GridSamples(c.point, segs, segs + 1)
  }

  /** `_flatten_path_points`: samples the curve at `t = i/segs`, skipping
      the parameters at which it cannot be evaluated. */
  method FlattenPathPoints(path: Option<SvgCurve>, tol: real) returns (pts: seq<Point>)
    ensures pts == FlatPoints(path, tol)
    ensures path.None? ==> pts == []
    ensures path.Some? ==> |pts| <= SegmentCount(path.value, tol) + 1
  {
    if path.None? {
      return [];
    }
    var segs := SegmentCount(path.value, tol);
    pts := SampleGrid(path.value.point, segs);
  }

  /** The flattened points are the curve's values at rising parameters in
      `[0, 1]`, at most `segs + 1` of them, and those parameters are exactly
      the grid points `i/segs` at which the curve can be evaluated. */
  lemma FlatPointsInOrder(c: SvgCurve, tol: real, segs: nat, ts: seq<real>)
    requires segs == SegmentCount(c, tol) && ts == GridParams(c.point, segs, segs + 1)
    ensures |FlatPoints(Some(c), tol)| == |ts| <= segs + 1
    ensures forall j :: 0 <= j < |ts| ==> 0.0 <= ts[j] <= 1.0 && c.point(ts[j]) == Some(FlatPoints(Some(c), tol)[j])
    ensures forall i, j :: 0 <= i < j < |ts| ==> ts[i] < ts[j]
    ensures forall i :: 0 <= i <= segs ==> (c.point(GridPoint(segs, i)).Some? <==> GridPoint(segs, i) in ts)
    ensures forall j :: 0 <= j < |ts| ==> exists i :: 0 <= i <= segs && ts[j] == GridPoint(segs, i)
  {
    FullGridSamples(c.point, segs, segs + 1);
  }

  // ------------------------------------------------------------------
  // Closure
  // ------------------------------------------------------------------

  /** The subpath, stripped and upper-cased, ends with the close command `Z`. */
  predicate EndsWithClose(sub: string) {
    EndsWith(Upper(Strip(sub)), "Z")
  }

  /** The close command is recognised in either case. */
  lemma EndsWithCloseEitherCase(sub: string)
    ensures EndsWithClose(sub) <==>
      (var s := Strip(sub); s != [] && (s[|s| - 1] == 'Z' || s[|s| - 1] == 'z'))
  {
    var s := Strip(sub);
    var u := Upper(s);
    if s != [] {
      assert u[|u| - 1..] == [u[|u| - 1]];
    }
  }

  function Abs(x: real): real {
    if x < 0.0 then -x else x
  }

  /** First and last points within 1e-6 of each other on both axes. */
  predicate NearlyRing(pts: seq<Point>)
    requires pts != []
  {
    Abs(pts[0].x - pts[|pts| - 1].x) < 0.000001 && Abs(pts[0].y - pts[|pts| - 1].y) < 0.000001
  }

  /** The closure decision: the close command first, then the curve's own
      `isclosed()`, then (when that raised) near-coincidence of the ends. */
  function SubpathClosed(sub: string, c: SvgCurve, pts: seq<Point>): bool
    requires pts != []
  {
    if EndsWithClose(sub) then true
    else
      match c.isClosed
      case Some(b) => b
      case None => NearlyRing(pts)
  }

  /** Format metadata wins over geometry: the close command decides
      whenever it is present, `isclosed()` decides whenever it answers, and
      the ends are compared only when neither is available; that comparison
      accepts every exact ring. */
  lemma ClosurePrecedence(sub: string, c: SvgCurve, pts: seq<Point>)
    requires pts != []
    ensures EndsWithClose(sub) ==> SubpathClosed(sub, c, pts)
    ensures !EndsWithClose(sub) && c.isClosed.Some? ==> SubpathClosed(sub, c, pts) == c.isClosed.value
    ensures !EndsWithClose(sub) && c.isClosed.None? && RingClosed(pts) ==> SubpathClosed(sub, c, pts)
    ensures !EndsWithClose(sub) && c.isClosed.None? ==>
      (SubpathClosed(sub, c, pts) <==>
         Abs(pts[0].x - pts[|pts| - 1].x) < 0.000001 && Abs(pts[0].y - pts[|pts| - 1].y) < 0.000001)
  {
  }

  // ------------------------------------------------------------------
  // Assembly
  // ------------------------------------------------------------------

  /** The flattening tolerance picked by the units setting: 0.05 in metric
      mode (also when no setting can be read), 0.002 otherwise. */
  function SvgTolerance(units: Option<string>): (tol: real)
    ensures tol > 0.0
  {
    var u := if units.None? || units.value == [] then "metric" else units.value;
    if StartsWith(u, "met") then 0.05 else 0.002
  }

  lemma SvgToleranceChoice(units: Option<string>)
    ensures SvgTolerance(units) == 0.05 || SvgTolerance(units) == 0.002
    ensures SvgTolerance(units) == 0.05 <==>
      (units.None? || units.value == [] || StartsWith(units.value, "met"))
  {
    assert "metric"[..3] == "met";
  }

  /** The record one subpath contributes, or None when it is skipped
      (blank, unparsable, empty curve, or fewer than two sampled points). */
  function SubpathRecord(sub: string, attrs: map<string, string>,
                         parse: string -> Option<SvgCurve>, tol: real): (r: Option<PathRecord>)
    ensures r.Some? ==> WellFormed(r.value) && r.value.source == Svg
    ensures r.Some? ==> r.value.layer == Get(attrs, "id") && r.value.color == StrokeColor(attrs)
    ensures r.Some? <==>
      (Strip(sub) != [] && parse(sub).Some? && parse(sub).value.segmentCount != 0
       && |FlatPoints(parse(sub), tol)| >= 2)
  {
    if Strip(sub) == [] then None
    else
      match parse(sub)
      case None => None
      case Some(c) =>
        if c.segmentCount == 0 then None
        else
          var pts := FlatPoints(Some(c), tol);
          if |pts| < 2 then None
          else
            var closed := SubpathClosed(sub, c, pts);
            var ring := if closed then ForceClose(pts) else pts;
            ScaleKeepsRing(ring, UnitScaleToMm(Some("px")));
            Some(PathRecord(ScalePoints(ring, UnitScaleToMm(Some("px"))), closed,
                            Get(attrs, "id"), StrokeColor(attrs), Svg))
  }

  /** A record's points are the flattened points, closed into a ring when
      the subpath is closed, each scaled by the pixel factor; the ring gains
      at most one point. */
  lemma SubpathRecordPoints(sub: string, attrs: map<string, string>,
                            parse: string -> Option<SvgCurve>, tol: real)
    requires SubpathRecord(sub, attrs, parse, tol).Some?
    ensures var r := SubpathRecord(sub, attrs, parse, tol).value;
      var pts := FlatPoints(parse(sub), tol);
      && r.closed == SubpathClosed(sub, parse(sub).value, pts)
      && |pts| <= |r.points| <= |pts| + (if r.closed then 1 else 0)
      && (forall i :: 0 <= i < |pts| ==> r.points[i] == ScalePoint(pts[i], 25.4 / 96.0))
      && (|r.points| > |pts| ==> r.points[|pts|] == ScalePoint(pts[0], 25.4 / 96.0))
      && (|r.points| > |pts| <==> r.closed && pts[0] != pts[|pts| - 1])
  {
    PixelScale();
    var c := parse(sub).value;
    var pts := FlatPoints(parse(sub), tol);
    var closed := SubpathClosed(sub, c, pts);
    var ring := if closed then ForceClose(pts) else pts;
    assert SubpathRecord(sub, attrs, parse, tol).value.points == ScalePoints(ring, 25.4 / 96.0);
    assert SubpathRecord(sub, attrs, parse, tol).value.closed == closed;
    assert forall i :: 0 <= i < |pts| ==> ring[i] == pts[i];
  }

  /** The step of the subpath loop: what one subpath contributes. */
  function SubpathStep(attrs: map<string, string>, parse: string -> Option<SvgCurve>, tol: real)
    : string -> seq<PathRecord>
  {
    (sub: string) => OptionToSeq(SubpathRecord(sub, attrs, parse, tol))
  }

  /** The step of the element loop: what one element contributes. */
  function ElementStep(parse: string -> Option<SvgCurve>, tol: real): AttrPairs -> seq<PathRecord> {
    (pairs: AttrPairs) => ElementPaths(pairs, parse, tol)
  }

  /** The records of the subpaths, in subpath order. */
  function SubpathPaths(subs: seq<string>, attrs: map<string, string>,
                        parse: string -> Option<SvgCurve>, tol: real): seq<PathRecord>
  {
    FlatMap(SubpathStep(attrs, parse, tol), subs)
  }

  /** The records one `<path>` element contributes: none without a
      non-empty `d`, otherwise one per surviving subpath. */
  function ElementPaths(pairs: AttrPairs, parse: string -> Option<SvgCurve>, tol: real): (r: seq<PathRecord>)
    ensures r != [] ==> "d" in AttrsOf(pairs) && AttrsOf(pairs)["d"] != []
  {
    var attrs := AttrsOf(pairs);
    var d := Get(attrs, "d").GetOr("");
    if d == [] then []
    else
      SubpathPaths(SplitPathByMoves(d), attrs, parse, tol)
  }

  lemma {:induction false} SubpathPathsLength(subs: seq<string>, attrs: map<string, string>,
                                             parse: string -> Option<SvgCurve>, tol: real)
    ensures |SubpathPaths(subs, attrs, parse, tol)| <= |subs|
    decreases |subs|
  {
    if subs != [] {
      SubpathPathsLength(subs[..|subs| - 1], attrs, parse, tol);
    }
  }

  lemma SubpathRecordWellFormed(sub: string, attrs: map<string, string>,
                                parse: string -> Option<SvgCurve>, tol: real)
    ensures AllWellFormed(OptionToSeq(SubpathRecord(sub, attrs, parse, tol)), Svg)
  {
  }

  /** Every record of one element is well-formed and tagged `svg`. */
  lemma ElementPathsWellFormed(pairs: AttrPairs, parse: string -> Option<SvgCurve>, tol: real)
    ensures AllWellFormed(ElementPaths(pairs, parse, tol), Svg)
  {
    var attrs := AttrsOf(pairs);
    var d := Get(attrs, "d").GetOr("");
    if d != [] {
      var subs := SplitPathByMoves(d);
      var f := SubpathStep(attrs, parse, tol);
      forall i | 0 <= i < |subs| ensures AllWellFormed(f(subs[i]), Svg) {
        SubpathRecordWellFormed(subs[i], attrs, parse, tol);
      }
      FlatMapWellFormed(f, subs, Svg);
    }
  }

  /** The records of a list of elements, in element order. */
  function ElementsPaths(elements: seq<AttrPairs>, parse: string -> Option<SvgCurve>, tol: real): seq<PathRecord> {
    FlatMap(ElementStep(parse, tol), elements)
  }

  /** Every record the loader emits has at least two points, ends where it
      starts when closed, and is tagged `svg`. */
  lemma ElementsPathsWellFormed(elements: seq<AttrPairs>, parse: string -> Option<SvgCurve>, tol: real)
    ensures AllWellFormed(ElementsPaths(elements, parse, tol), Svg)
  {
    forall i | 0 <= i < |elements| ensures AllWellFormed(ElementPaths(elements[i], parse, tol), Svg) {
      ElementPathsWellFormed(elements[i], parse, tol);
    }
    FlatMapWellFormed(ElementStep(parse, tol), elements, Svg);
  }

  /** Elements are processed independently: the records of a document are
      those of its first part followed by those of the rest, so a bad
      element never disturbs its siblings. */
  lemma ElementsPathsAppend(a: seq<AttrPairs>, b: seq<AttrPairs>,
                            parse: string -> Option<SvgCurve>, tol: real)
    ensures ElementsPaths(a + b, parse, tol) == ElementsPaths(a, parse, tol) + ElementsPaths(b, parse, tol)
  {
    FlatMapAppend(ElementStep(parse, tol), a, b);
  }

  /** `load_svg` as a function of the document's `<path>` elements (None
      when the file or the curve library is unavailable), the curve
      parser, and the units setting. */
  function SvgPaths(doc: Option<seq<AttrPairs>>, parse: string -> Option<SvgCurve>,
                    units: Option<string>): seq<PathRecord>
  {
    match doc
    case None => []
    case Some(elements) => ElementsPaths(elements, parse, SvgTolerance(units))
  }

  /** `load_svg`. */
  method LoadSvg(doc: Option<seq<AttrPairs>>, parse: string -> Option<SvgCurve>,
                 units: Option<string>) returns (result: seq<PathRecord>)
    ensures result == SvgPaths(doc, parse, units)
    ensures AllWellFormed(result, Svg)
    ensures doc.None? ==> result == []
  {
    if doc.None? {
      return [];
    }
    var elements := doc.value;
    var tol := SvgTolerance(units);
    ElementsPathsWellFormed(elements, parse, tol);
    result := [];
    var i := 0;
    while i < |elements|
      invariant 0 <= i <= |elements|
      invariant result == ElementsPaths(elements[..i], parse, tol)
    {
      FlatMapSnoc(ElementStep(parse, tol), elements, i);
      var recs := ProcessElement(elements[i], parse, tol);
      result := result + recs;
      i := i + 1;
    }
    assert elements[..i] == elements;
  }

  /** The body of the element loop of `load_svg`: one record per surviving
      subpath of the element's `d` attribute, in subpath order. */
  method ProcessElement(pairs: AttrPairs, parse: string -> Option<SvgCurve>, tol: real)
    returns (recs: seq<PathRecord>)
    ensures recs == ElementPaths(pairs, parse, tol)
  {
    var attrs := BuildAttrs(pairs);
    var d := Get(attrs, "d").GetOr("");
    recs := [];
    if d == [] {
      return;
    }
    var subs := SplitPathByMoves(d);
    var k := 0;
    while k < |subs|
      invariant 0 <= k <= |subs|
      invariant recs == SubpathPaths(subs[..k], attrs, parse, tol)
    {
      FlatMapSnoc(SubpathStep(attrs, parse, tol), subs, k);
      var rec := ProcessSubpath(subs[k], attrs, parse, tol);
      assert SubpathStep(attrs, parse, tol)(subs[k]) == OptionToSeq(rec);
      if rec.Some? {
        recs := recs + [rec.value];
      }
      k := k + 1;
    }
    assert subs[..k] == subs;
  }

  /** The body of the subpath loop of `load_svg`. */
  method ProcessSubpath(sub: string, attrs: map<string, string>,
                        parse: string -> Option<SvgCurve>, tol: real) returns (rec: Option<PathRecord>)
    ensures rec == SubpathRecord(sub, attrs, parse, tol)
    ensures rec.Some? ==> WellFormed(rec.value)
  {
    if Strip(sub) == [] {
      return None;
    }
    var parsed := parse(sub);
    if parsed.None? || parsed.value.segmentCount == 0 {
      return None;
    }
    var c := parsed.value;
    var pts := FlattenPathPoints(Some(c), tol);
    if |pts| < 2 {
      return None;
    }
    ghost var flat := pts;
    var closed := DecideClosed(sub, c, pts);
    if closed && pts[0] != pts[|pts| - 1] {
      pts := pts + [pts[0]];
    }
    assert pts == if closed then ForceClose(flat) else flat;
    var mm := ScalePoints(pts, UnitScaleToMm(Some("px")));
    var layer := Get(attrs, "id");
    var color := Get(attrs, "stroke");
    if color == Some("none") || color == Some("") {
      color := None;
    }
    rec := Some(PathRecord(mm, closed, layer, color, Svg));
    assert SubpathRecord(sub, attrs, parse, tol) == rec by {
      assert parse(sub) == Some(c) && c.segmentCount != 0;
      assert FlatPoints(Some(c), tol) == flat && |flat| >= 2;
      assert color == StrokeColor(attrs);
    }
  }

  /** The closure block of `load_svg`: close command, then `isclosed()`,
      then the 1e-6 comparison of the end points. */
  method DecideClosed(sub: string, c: SvgCurve, pts: seq<Point>) returns (closed: bool)
    requires pts != []
    ensures closed == SubpathClosed(sub, c, pts)
  {
    closed := false;
    if EndsWithClose(sub) {
      closed := true;
    } else {
      match c.isClosed {
        case Some(b) =>
          closed := b;
        case None =>
          var dx := Abs(pts[0].x - pts[|pts| - 1].x);
          var dy := Abs(pts[0].y - pts[|pts| - 1].y);
          closed := dx < 0.000001 && dy < 0.000001;
      }
    }
  }
}
