/**
 The motion-safety validator: inclusive range checks against the cached axis
 limits, the six-extreme attachment bounding-box check of the attachment
 client, and the plain point check of the K2 Pro client.
 */
module Safety {
  import opened Klipper

  datatype Range = Range(lo: real, hi: real) {
    predicate Holds(v: real) { lo <= v <= hi }
  }

  /** The cached `((xmin, xmax), (ymin, ymax), (zmin, zmax))`. */
  datatype Limits = Limits(x: Range, y: Range, z: Range) {
    function Of(a: Axis): Range {
      match a
      case X => x
      case Y => y
      case Z => z
    }
  }

  datatype Point = Point(x: real, y: real, z: real) {
    function At(a: Axis): real {
      match a
      case X => x
      case Y => y
      case Z => z
    }
  }

  /** The attachment bounding box as offsets from the toolhead point, in mm. */
  datatype Attachment = Attachment(minX: real, maxX: real, minY: real, maxY: real, minZ: real, maxZ: real) {
    function Offset(a: Axis, s: Side): real {
      match (a, s)
      case (X, Low) => minX
      case (X, High) => maxX
      case (Y, Low) => minY
      case (Y, High) => maxY
      case (Z, Low) => minZ
      case (Z, High) => maxZ
    }

    /** min <= max on every axis. */
    predicate WellFormed() {
      forall a: Axis :: Offset(a, Low) <= Offset(a, High)
    }
  }

  /** Well-formedness is the three per-axis comparisons. */
  lemma WellFormedByAxes(att: Attachment)
    ensures att.WellFormed() <==> att.minX <= att.maxX && att.minY <= att.maxY && att.minZ <= att.maxZ
  {
    if att.minX <= att.maxX && att.minY <= att.maxY && att.minZ <= att.maxZ {
      forall a: Axis ensures att.Offset(a, Low) <= att.Offset(a, High) {
        match a
        case X =>
        case Y =>
        case Z =>
      }
    } else {
      assert !(att.Offset(X, Low) <= att.Offset(X, High)) || !(att.Offset(Y, Low) <= att.Offset(Y, High)) ||
        !(att.Offset(Z, Low) <= att.Offset(Z, High));
    }
  }

  /** The configuration defaults: no attachment at all. */
  const NoAttachment := Attachment(0.0, 0.0, 0.0, 0.0, 0.0, 0.0)

  /** `_range_check`: raises unless `lo <= v <= hi`. */
  function RangeCheck(v: real, lo: real, hi: real, name: Label): (r: Outcome<Error>)
    ensures r.Pass? <==> lo <= v <= hi
    ensures r.Fail? ==> r.error == OutOfRange(name, v, lo, hi)
  {
    if v < lo || v > hi then Fail(OutOfRange(name, v, lo, hi)) else Pass
  }

  /** One call of `_range_check`, before it is made. */
  datatype Probe = Probe(name: Label, v: real, range: Range) {
    predicate Ok() { range.Holds(v) }
    function Failure(): Error { OutOfRange(name, v, range.lo, range.hi) }
  }

  /** Probe `k` is the first one that fails. */
  predicate FirstFailing(ps: seq<Probe>, k: int) {
    0 <= k < |ps| && !ps[k].Ok() && forall j :: 0 <= j < k ==> ps[j].Ok()
  }

  /** A straight run of `_range_check` calls: the first failure is raised,
      later checks are not made. */
  function RunProbes(ps: seq<Probe>): (r: Outcome<Error>)
    ensures r.Pass? <==> forall i :: 0 <= i < |ps| ==> ps[i].Ok()
    ensures r.Fail? ==> exists k :: FirstFailing(ps, k) && r.error == ps[k].Failure()
  {
    if ps == [] then Pass
    else
      match RangeCheck(ps[0].v, ps[0].range.lo, ps[0].range.hi, ps[0].name)
      case Fail(e) =>
        assert FirstFailing(ps, 0);
        Fail(e)
      case Pass =>
        var rest := RunProbes(ps[1..]);
        if rest.Fail? then
          var k :| FirstFailing(ps[1..], k) && rest.error == ps[1..][k].Failure();
          assert FirstFailing(ps, k + 1);
          rest
        else
          assert forall i :: 1 <= i < |ps| ==> ps[i] == ps[1..][i - 1];
          rest
  }

  /** The order in which the six extremes are checked. */
  const ExtremeOrder: seq<(Axis, Side)> :=
    [(X, Low), (X, High), (Y, Low), (Y, High), (Z, Low), (Z, High)]

  /** The coordinate of one face of the attachment box when the toolhead is at `p`. */
  function ExtremeValue(p: Point, att: Attachment, a: Axis, s: Side): real {
    p.At(a) + att.Offset(a, s)
  }

  /** The whole attachment box lies in the limits. */
  predicate EnvelopeInside(lim: Limits, att: Attachment, p: Point) {
    forall a: Axis, s: Side :: lim.Of(a).Holds(ExtremeValue(p, att, a, s))
  }

  /** The `k`-th extreme in check order is outside its range and every earlier one inside. */
  predicate FirstBadExtreme(lim: Limits, att: Attachment, p: Point, k: int) {
    0 <= k < |ExtremeOrder| &&
    !lim.Of(ExtremeOrder[k].0).Holds(ExtremeValue(p, att, ExtremeOrder[k].0, ExtremeOrder[k].1)) &&
    forall j :: 0 <= j < k ==> lim.Of(ExtremeOrder[j].0).Holds(ExtremeValue(p, att, ExtremeOrder[j].0, ExtremeOrder[j].1))
  }

  function ExtremeProbe(lim: Limits, att: Attachment, p: Point, e: (Axis, Side)): Probe {
    Probe(Extreme(e.0, e.1), ExtremeValue(p, att, e.0, e.1), lim.Of(e.0))
  }

  /** The six probes of `_check_xyz_with_attachment`, in source order. */
  function AttachmentProbes(lim: Limits, att: Attachment, p: Point): (ps: seq<Probe>)
    ensures |ps| == |ExtremeOrder|
    ensures forall k :: 0 <= k < |ps| ==> ps[k] == ExtremeProbe(lim, att, p, ExtremeOrder[k])
  {
    [ Probe(Extreme(X, Low), p.x + att.minX, lim.x),
      Probe(Extreme(X, High), p.x + att.maxX, lim.x),
      Probe(Extreme(Y, Low), p.y + att.minY, lim.y),
      Probe(Extreme(Y, High), p.y + att.maxY, lim.y),
      Probe(Extreme(Z, Low), p.z + att.minZ, lim.z),
      Probe(Extreme(Z, High), p.z + att.maxZ, lim.z) ]
  }

  /** `_check_xyz_with_attachment` once the limits are known: accepts exactly
      when every face of the box is inside, and otherwise names the first face
      outside, in the order x0, x1, y0, y1, z0, z1. */
  function CheckWithAttachment(lim: Limits, att: Attachment, p: Point): (r: Outcome<Error>)
    ensures r.Pass? <==> EnvelopeInside(lim, att, p)
    ensures r.Fail? ==>
      exists k :: FirstBadExtreme(lim, att, p, k) && r.error == ExtremeProbe(lim, att, p, ExtremeOrder[k]).Failure()
  {
    var ps := AttachmentProbes(lim, att, p);
    var r := RunProbes(ps);
    if r.Pass? then
      assert EnvelopeInside(lim, att, p) by {
        forall a: Axis, s: Side ensures lim.Of(a).Holds(ExtremeValue(p, att, a, s)) {
          var k := match (a, s)
            case (X, Low) => 0 case (X, High) => 1
            case (Y, Low) => 2 case (Y, High) => 3
            case (Z, Low) => 4 case (Z, High) => 5;
          assert ps[k].Ok();
        }
      }
      r
    else
      var k :| FirstFailing(ps, k) && r.error == ps[k].Failure();
      assert FirstBadExtreme(lim, att, p, k);
      assert !EnvelopeInside(lim, att, p);
      r
  }

  /** `_check_xyz_with_attachment` on the client's cache, which may be empty. */
  function CachedCheck(limits: Option<Limits>, att: Attachment, p: Point): (r: Outcome<Error>)
    ensures r.Pass? <==> limits.Some? && EnvelopeInside(limits.value, att, p)
    ensures limits.None? ==> r == Fail(NotInitialized)
  {
    match limits
    case None => Fail(NotInitialized)
    case Some(lim) => CheckWithAttachment(lim, att, p)
  }

  /** The point itself is inside the limits. */
  predicate PointInside(lim: Limits, p: Point) {
    lim.x.Holds(p.x) && lim.y.Holds(p.y) && lim.z.Holds(p.z)
  }

  /** A point is inside exactly when a box of zero size around it is. */
  lemma PointInsideIsZeroEnvelope(lim: Limits, p: Point)
    ensures PointInside(lim, p) <==> EnvelopeInside(lim, NoAttachment, p)
  {
    assert forall a: Axis, s: Side :: ExtremeValue(p, NoAttachment, a, s) == p.At(a) by {
      forall a: Axis, s: Side ensures ExtremeValue(p, NoAttachment, a, s) == p.At(a) {
        match (a, s)
        case (X, Low) => case (X, High) => case (Y, Low) => case (Y, High) => case (Z, Low) => case (Z, High) =>
      }
    }
    if !lim.x.Holds(p.x) {
      assert !lim.Of(X).Holds(ExtremeValue(p, NoAttachment, X, Low));
    } else if !lim.y.Holds(p.y) {
      assert !lim.Of(Y).Holds(ExtremeValue(p, NoAttachment, Y, Low));
    } else if !lim.z.Holds(p.z) {
      assert !lim.Of(Z).Holds(ExtremeValue(p, NoAttachment, Z, Low));
    }
  }

  /** `_check_xyz_in_limits` of the K2 Pro client once the limits are known:
      accepts exactly when x, y and z are each in range, and otherwise names
      the first failing axis in X, Y, Z order. */
  function CheckInLimits(lim: Limits, p: Point): (r: Outcome<Error>)
    ensures r.Pass? <==> PointInside(lim, p)
    ensures r.Fail? && !lim.x.Holds(p.x) ==> r.error == OutOfRange(Coord(X), p.x, lim.x.lo, lim.x.hi)
    ensures r.Fail? && lim.x.Holds(p.x) && !lim.y.Holds(p.y) ==> r.error == OutOfRange(Coord(Y), p.y, lim.y.lo, lim.y.hi)
    ensures r.Fail? && lim.x.Holds(p.x) && lim.y.Holds(p.y) ==> r.error == OutOfRange(Coord(Z), p.z, lim.z.lo, lim.z.hi)
  {
    var ps := [Probe(Coord(X), p.x, lim.x), Probe(Coord(Y), p.y, lim.y), Probe(Coord(Z), p.z, lim.z)];
    var r := RunProbes(ps);
    if r.Fail? then
      var k :| FirstFailing(ps, k) && r.error == ps[k].Failure();
      assert 0 < k ==> ps[0].Ok();
      assert 1 < k ==> ps[1].Ok();
      r
    else
      assert ps[0].Ok() && ps[1].Ok() && ps[2].Ok();
      r
  }

  /** `_check_xyz_in_limits` on the client's cache, which may be empty. */
  function CachedCheckInLimits(limits: Option<Limits>, p: Point): (r: Outcome<Error>)
    ensures r.Pass? <==> limits.Some? && PointInside(limits.value, p)
    ensures limits.None? ==> r == Fail(NotInitialized)
  {
    match limits
    case None => Fail(NotInitialized)
    case Some(lim) => CheckInLimits(lim, p)
  }

  /** Renames an attachment-check failure to the name the plain check uses. */
  function AsPlain(r: Outcome<Error>): Outcome<Error> {
    match r
    case Fail(OutOfRange(Extreme(a, _), v, lo, hi)) => Fail(OutOfRange(Coord(a), v, lo, hi))
    case _ => r
  }

  /** The K2 Pro check is the attachment check with every offset zero: same
      verdict, same failing axis, value and bounds. */
  lemma PlainIsZeroAttachment(lim: Limits, p: Point)
    ensures CheckInLimits(lim, p) == AsPlain(CheckWithAttachment(lim, NoAttachment, p))
  {
    var r := CheckWithAttachment(lim, NoAttachment, p);
    if r.Fail? {
      var k :| FirstBadExtreme(lim, NoAttachment, p, k) &&
        r.error == ExtremeProbe(lim, NoAttachment, p, ExtremeOrder[k]).Failure();
      if lim.x.Holds(p.x) {
        assert k != 0 && k != 1;
        if lim.y.Holds(p.y) {
          assert k != 2 && k != 3;
        } else {
          assert FirstBadExtreme(lim, NoAttachment, p, 2);
          assert k == 2;
        }
      } else {
        assert k == 0;
      }
    } else {
      assert lim.Of(X).Holds(ExtremeValue(p, NoAttachment, X, Low));
      assert lim.Of(Y).Holds(ExtremeValue(p, NoAttachment, Y, Low));
      assert lim.Of(Z).Holds(ExtremeValue(p, NoAttachment, Z, Low));
    }
  }

  /** Linear interpolation between two points. */
  function Lerp(p: Point, q: Point, t: real): Point {
    Point(p.x + t * (q.x - p.x), p.y + t * (q.y - p.y), p.z + t * (q.z - p.z))
  }

  lemma BetweenStaysInRange(rg: Range, a: real, b: real, t: real)
    requires rg.Holds(a) && rg.Holds(b) && 0.0 <= t <= 1.0
    ensures rg.Holds(a + t * (b - a))
  {
    var d := b - a;
    assert t * d + (1.0 - t) * d == d;
    if 0.0 <= d {
      ProductNonNegative(t, d);
      ProductNonNegative(1.0 - t, d);
    } else {
      ProductNonNegative(t, -d);
      ProductNonNegative(1.0 - t, -d);
    }
  }

  lemma ProductNonNegative(u: real, v: real)
    requires 0.0 <= u && 0.0 <= v
    ensures 0.0 <= u * v
  {
  }

  /** The accepted positions form a box, so a straight move between two
      accepted positions never takes the attachment outside the limits. */
  lemma {:induction false} EnvelopeConvex(lim: Limits, att: Attachment, p: Point, q: Point, t: real)
    requires EnvelopeInside(lim, att, p) && EnvelopeInside(lim, att, q) && 0.0 <= t <= 1.0
    ensures EnvelopeInside(lim, att, Lerp(p, q, t))
  {
    forall a: Axis, s: Side ensures lim.Of(a).Holds(ExtremeValue(Lerp(p, q, t), att, a, s)) {
      var u, w := ExtremeValue(p, att, a, s), ExtremeValue(q, att, a, s);
      BetweenStaysInRange(lim.Of(a), u, w, t);
      assert ExtremeValue(Lerp(p, q, t), att, a, s) == u + t * (w - u);
    }
  }

  /** The largest distance the attachment reaches out from the toolhead along `a`. */
  function Reach(att: Attachment, a: Axis): (m: real)
    ensures m >= 0.0 && m >= att.Offset(a, High) && m >= -att.Offset(a, Low)
  {
    var hi := att.Offset(a, High);
    var lo := -att.Offset(a, Low);
    if hi >= lo && hi >= 0.0 then hi else if lo >= 0.0 then lo else 0.0
  }

  /** Every point at least the attachment's reach away from each limit is accepted. */
  lemma ShrunkLimitsAccept(lim: Limits, att: Attachment, p: Point)
    requires att.WellFormed()
    requires forall a: Axis :: lim.Of(a).lo + Reach(att, a) <= p.At(a) <= lim.Of(a).hi - Reach(att, a)
    ensures CheckWithAttachment(lim, att, p) == Pass
  {
    forall a: Axis, s: Side ensures lim.Of(a).Holds(ExtremeValue(p, att, a, s)) {
      assert lim.Of(a).lo + Reach(att, a) <= p.At(a) <= lim.Of(a).hi - Reach(att, a);
      assert att.Offset(a, Low) <= att.Offset(a, High);
    }
  }

  /** X limits [0, 400], attachment from -5 to +30 along X: at x = 390 the
      right face is at 420 and the check names "X+attach_max_x". */
  lemma RightFaceRejected()
    ensures CheckWithAttachment(
              Limits(Range(0.0, 400.0), Range(0.0, 400.0), Range(0.0, 400.0)),
              Attachment(-5.0, 30.0, 0.0, 0.0, 0.0, 0.0),
              Point(390.0, 100.0, 100.0))
         == Fail(OutOfRange(Extreme(X, High), 420.0, 0.0, 400.0))
  {
    var lim := Limits(Range(0.0, 400.0), Range(0.0, 400.0), Range(0.0, 400.0));
    var att := Attachment(-5.0, 30.0, 0.0, 0.0, 0.0, 0.0);
    var p := Point(390.0, 100.0, 100.0);
    var r := CheckWithAttachment(lim, att, p);
    var k :| FirstBadExtreme(lim, att, p, k) && r.error == ExtremeProbe(lim, att, p, ExtremeOrder[k]).Failure();
    assert k == 1;
  }
}
