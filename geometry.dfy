/** The unified output schema both loaders produce, and the point-list
    operations they share: ring closure and scaling to millimetres. */
module Geometry {
  import opened Wrappers

  /** A 2D coordinate (a Python `(x, y)` tuple of floats). */
  datatype Point = Point(x: real, y: real)

  /** The `source` tag of an output record. */
  datatype Source = Dxf | Svg

  /** One output record `{points, closed, layer, color, source}`. */
  datatype PathRecord = PathRecord(
    points: seq<Point>,
    closed: bool,
    layer: Option<string>,
    color: Option<string>,
    source: Source)

  /** The first and last points coincide exactly. */
  predicate RingClosed(pts: seq<Point>) {
    |pts| > 0 && pts[0] == pts[|pts| - 1]
  }

  /** The invariant of every emitted record: at least two points, and a
      closed record ends where it starts. */
  predicate WellFormed(p: PathRecord) {
    |p.points| >= 2 && (p.closed ==> RingClosed(p.points))
  }

  /** Every record of `rs` is well-formed and tagged with `src`. */
  predicate AllWellFormed(rs: seq<PathRecord>, src: Source) {
    forall i :: 0 <= i < |rs| ==> WellFormed(rs[i]) && rs[i].source == src
  }

  lemma AllWellFormedAppend(a: seq<PathRecord>, b: seq<PathRecord>, src: Source)
    requires AllWellFormed(a, src) && AllWellFormed(b, src)
    ensures AllWellFormed(a + b, src)
  {
    assert forall i :: |a| <= i < |a + b| ==> (a + b)[i] == b[i - |a|];
  }

  /** Forcing a ring closed: the first point is appended again unless the
      end points already coincide. */
  function ForceClose(pts: seq<Point>): (r: seq<Point>)
    requires pts != []
    ensures RingClosed(r)
    ensures |pts| <= |r| <= |pts| + 1 && r[..|pts|] == pts
    ensures RingClosed(pts) ==> r == pts
    ensures |r| == |pts| + 1 <==> !RingClosed(pts)
  {
    if pts[0] != pts[|pts| - 1] then pts + [pts[0]] else pts
  }

  /** Closing a ring that is already closed changes nothing. */
  lemma ForceCloseIdempotent(pts: seq<Point>)
    requires pts != []
    ensures ForceClose(ForceClose(pts)) == ForceClose(pts)
  {
  }

  function ScalePoint(p: Point, k: real): Point {
    Point(p.x * k, p.y * k)
  }

  /** Every point multiplied coordinate-wise by `k`. */
  function ScalePoints(pts: seq<Point>, k: real): (r: seq<Point>)
    ensures |r| == |pts|
    ensures forall i :: 0 <= i < |pts| ==> r[i] == ScalePoint(pts[i], k)
  {
    seq(|pts|, i requires 0 <= i < |pts| => ScalePoint(pts[i], k))
  }

  /** Scaling by a non-zero factor is undone by scaling by its inverse, so
      it loses no point and reorders nothing. */
  lemma ScaleRoundTrip(pts: seq<Point>, k: real)
    requires k != 0.0
    ensures ScalePoints(ScalePoints(pts, k), 1.0 / k) == pts
  {
    var back := ScalePoints(ScalePoints(pts, k), 1.0 / k);
    forall i | 0 <= i < |pts| ensures back[i] == pts[i] {
      calc {
        back[i].x;
        (pts[i].x * k) * (1.0 / k);
        pts[i].x * (k * (1.0 / k));
        pts[i].x;
      }
      calc {
        back[i].y;
        (pts[i].y * k) * (1.0 / k);
        pts[i].y * (k * (1.0 / k));
        pts[i].y;
      }
    }
  }

  /** Scaling keeps a closed ring closed, and by a non-zero factor it keeps
      an open one open. */
  lemma ScaleKeepsRing(pts: seq<Point>, k: real)
    ensures RingClosed(pts) ==> RingClosed(ScalePoints(pts, k))
    ensures k != 0.0 ==> (RingClosed(ScalePoints(pts, k)) <==> RingClosed(pts))
  {
    if k != 0.0 && RingClosed(ScalePoints(pts, k)) {
      var s := ScalePoints(pts, k);
      ScaleRoundTrip(pts, k);
      assert ScalePoints(s, 1.0 / k) == pts;
    }
  }

  /** Scaling a well-formed record's points keeps it well-formed. */
  lemma ScaleKeepsWellFormed(p: PathRecord, k: real)
    requires WellFormed(p)
    ensures WellFormed(p.(points := ScalePoints(p.points, k)))
  {
    ScaleKeepsRing(p.points, k);
  }

  /** The records each input yields, concatenated in input order: the
      shape of both loaders' loops (each input is handled on its own and
      its records are appended to the result). */
  function FlatMap<T>(f: T -> seq<PathRecord>, xs: seq<T>): seq<PathRecord> {
    if xs == [] then [] else FlatMap(f, xs[..|xs| - 1]) + f(xs[|xs| - 1])
  }

  /** One more input appends its records. */
  lemma FlatMapSnoc<T>(f: T -> seq<PathRecord>, xs: seq<T>, k: nat)
    requires k < |xs|
    ensures FlatMap(f, xs[..k + 1]) == FlatMap(f, xs[..k]) + f(xs[k])
  {
    assert xs[..k + 1][..k] == xs[..k];
  }

  /** The records of `a + b` are those of `a` followed by those of `b`:
      inputs do not influence each other's records. */
  lemma {:induction false} FlatMapAppend<T>(f: T -> seq<PathRecord>, a: seq<T>, b: seq<T>)
    ensures FlatMap(f, a + b) == FlatMap(f, a) + FlatMap(f, b)
    decreases |b|
  {
    if b == [] {
      assert a + b == a;
    } else {
      var b' := b[..|b| - 1];
      assert (a + b)[..|a + b| - 1] == a + b';
      assert (a + b)[|a + b| - 1] == b[|b| - 1];
      FlatMapAppend(f, a, b');
    }
  }

  /** A single input yields exactly its own records. */
  lemma FlatMapSingle<T>(f: T -> seq<PathRecord>, x: T)
    ensures FlatMap(f, [x]) == f(x)
  {
    assert [x][..0] == [];
  }

  /** An input that yields no record leaves the records of its
      neighbours as if it were absent. */
  lemma FlatMapSkip<T>(f: T -> seq<PathRecord>, a: seq<T>, x: T, b: seq<T>)
    requires f(x) == []
    ensures FlatMap(f, a + [x] + b) == FlatMap(f, a) + FlatMap(f, b)
  {
    FlatMapAppend(f, a + [x], b);
    FlatMapSnoc(f, a + [x], |a|);
    assert (a + [x])[..|a|] == a;
    assert (a + [x])[..|a| + 1] == a + [x];
  }

  /** If each input yields only well-formed records, so do all of them. */
  lemma {:induction false} FlatMapWellFormed<T>(f: T -> seq<PathRecord>, xs: seq<T>, src: Source)
    requires forall i :: 0 <= i < |xs| ==> AllWellFormed(f(xs[i]), src)
    ensures AllWellFormed(FlatMap(f, xs), src)
    decreases |xs|
  {
    if xs != [] {
      var init := xs[..|xs| - 1];
      assert forall i :: 0 <= i < |init| ==> init[i] == xs[i];
      FlatMapWellFormed(f, init, src);
      AllWellFormedAppend(FlatMap(f, init), f(xs[|xs| - 1]), src);
    }
  }

  /** The list a skipped-or-emitted step contributes. */
  function OptionToSeq(o: Option<PathRecord>): (r: seq<PathRecord>)
    ensures |r| <= 1
    ensures o.Some? ==> r == [o.value]
    ensures o.None? ==> r == []
  {
    match o
    case Some(p) => [p]
    case None => []
  }
}
