/**
 The operator gate of `home` in 3DPrinter.py: the typed answer must read
 "CONFIRM" once surrounding white space is dropped and letters upper-cased.
 */
module Confirmation {
  import opened Klipper

  /** `home`'s operator gate: the answer, stripped and upper-cased, is exactly "CONFIRM". */
  predicate Confirmed(answer: string) {
    Upper(Strip(answer)) == "CONFIRM"
  }

  /** Surrounding white space and letter case do not matter. */
  lemma PaddedLowerCaseConfirms()
    ensures Confirmed(" confirm\n")
  {
    TrimsOfPaddedAnswer();
    UpperOfAnswer();
  }

  lemma TrimsOfPaddedAnswer()
    ensures TrimStart(" confirm\n") == "confirm\n"
    ensures TrimEnd("confirm\n") == "confirm"
  {
    var typed, inner := " confirm\n", "confirm\n";
    assert typed[1..] == inner;
    assert IsSpace(typed[0]) && !IsSpace(typed[1]);
    assert inner[..7] == "confirm";
    assert IsSpace(inner[7]) && !IsSpace(inner[6]);
  }

  lemma UpperOfAnswer()
    ensures Upper("confirm") == "CONFIRM"
  {
  }

  /** An answer without surrounding white space is refused unless it has
      exactly the seven letters of the word. */
  lemma WrongLengthRefused(answer: string)
    requires |answer| > 0 && !IsSpace(answer[0]) && !IsSpace(answer[|answer| - 1]) && |answer| != 7
    ensures !Confirmed(answer)
  {
    assert TrimStart(answer) == answer;
    assert TrimEnd(answer) == answer;
  }
}

/**
 The attachment-aware client of 3DPrinter.py (`Printer`). Every motion command
 first passes the ready and homed gates and the attachment bounding-box check
 for each key point; only then is a script sent. The HTTP transport is
 replaced by the `sent` log (one entry per `send_gcode` call) and by the
 `Remote` status observation passed to each call.
 */
module Printer3D {
  import opened Klipper
  import opened Safety
  import opened Gates
  import opened Sweep
  import opened Confirmation

  /** `PrinterConfig` without the transport settings. */
  datatype PrinterConfig = PrinterConfig(attach: Attachment, zSpeed: real)

  /** Axis `k` of x, y, z has `attach_min > attach_max`, and no earlier one has. */
  predicate FirstInverted(att: Attachment, k: int) {
    0 <= k < 3 && att.Offset(AxisAt(k), Low) > att.Offset(AxisAt(k), High) &&
    forall j :: 0 <= j < k ==> att.Offset(AxisAt(j), Low) <= att.Offset(AxisAt(j), High)
  }

  /** What `_validate_attachment_box` decides: passes exactly when the box is
      well formed, and otherwise names the first inverted axis in x, y, z order. */
  function AttachBoxGate(att: Attachment): (r: Outcome<Error>)
    ensures r.Pass? <==> att.WellFormed()
    ensures r.Fail? ==> exists k :: FirstInverted(att, k) && r.error == AttachBoxInverted(AxisAt(k))
  {
    WellFormedByAxes(att);
    if att.minX > att.maxX then
      assert FirstInverted(att, 0);
      Fail(AttachBoxInverted(X))
    else if att.minY > att.maxY then
      assert FirstInverted(att, 1);
      Fail(AttachBoxInverted(Y))
    else if att.minZ > att.maxZ then
      assert FirstInverted(att, 2);
      Fail(AttachBoxInverted(Z))
    else
      Pass
  }

  /** The script `move_absolute` sends: absolute mode, then one G1 to the point. */
  function MoveScript(p: Point, speed: real): Script {
    [G90, G1(Some(p.x), Some(p.y), Some(p.z), Feed(speed))]
  }

  /** What `move_absolute` decides before sending: the error it raises, or
      the script it sends. */
  function MoveAbsolutePlan(remote: Remote, limits: Option<Limits>, att: Attachment, p: Point, speed: real)
    : Result<Script, Error>
  {
    var homed := HomedGate("xyz", HomedAxes(remote));
    var check := CachedCheck(limits, att, p);
    if !Ready(remote) then Failure(NotReady(remote.state))
    else if homed.Fail? then Failure(homed.error)
    else if speed <= 0.0 then Failure(NonPositiveSpeed)
    else if check.Fail? then Failure(check.error)
    else Success(MoveScript(p, speed))
  }

  /** `move_absolute` sends something exactly when the printer is ready, x, y
      and z are homed, the speed is positive, the limits are cached and the
      whole attachment box at the target is inside them; what it sends is
      one script holding a single move to exactly that target. */
  lemma MoveAbsoluteSendsOnlySafe(remote: Remote, limits: Option<Limits>, att: Attachment, p: Point, speed: real)
    ensures var plan := MoveAbsolutePlan(remote, limits, att, p, speed);
      plan.Success? <==>
        Ready(remote) && XyzHomed(remote) && speed > 0.0 && limits.Some? && EnvelopeInside(limits.value, att, p)
    ensures var plan := MoveAbsolutePlan(remote, limits, att, p, speed);
      plan.Success? ==>
        |plan.value| == 2 && plan.value[0] == G90 &&
        plan.value[1] == G1(Some(p.x), Some(p.y), Some(p.z), Feed(speed)) &&
        0 <= plan.value[1].feed &&
        forall q: Point :: Step(q, plan.value[1]) == p
  {
    XyzHomedGate(remote);
  }

  /** What `safe_y_pass` decides before sending. The four corners
      `{y_start, y_end} x {z_safe, z_contact}` are checked in source order. */
  function SafeYPassPlan(remote: Remote, limits: Option<Limits>, cfg: PrinterConfig,
                         x: real, yStart: real, yEnd: real, zSafe: real, zContact: real,
                         travelSpeed: real, approachSpeed: real): Result<Script, Error>
  {
    var homed := HomedGate("xyz", HomedAxes(remote));
    var c1 := CachedCheck(limits, cfg.attach, Point(x, yStart, zSafe));
    var c2 := CachedCheck(limits, cfg.attach, Point(x, yEnd, zSafe));
    var c3 := CachedCheck(limits, cfg.attach, Point(x, yStart, zContact));
    var c4 := CachedCheck(limits, cfg.attach, Point(x, yEnd, zContact));
    if !Ready(remote) then Failure(NotReady(remote.state))
    else if homed.Fail? then Failure(homed.error)
    else if travelSpeed <= 0.0 || approachSpeed <= 0.0 then Failure(NonPositiveSpeed)
    else if c1.Fail? then Failure(c1.error)
    else if c2.Fail? then Failure(c2.error)
    else if c3.Fail? then Failure(c3.error)
    else if c4.Fail? then Failure(c4.error)
    else Success(SweepScript(x, yStart, yEnd, zSafe, zContact,
                             Feed(cfg.zSpeed), Feed(approachSpeed), Feed(travelSpeed)))
  }

  /** The four corners of the pass, each with the whole attachment box inside. */
  predicate CornersInside(lim: Limits, att: Attachment, x: real, yStart: real, yEnd: real, zSafe: real, zContact: real) {
    EnvelopeInside(lim, att, Point(x, yStart, zSafe)) && EnvelopeInside(lim, att, Point(x, yEnd, zSafe)) &&
    EnvelopeInside(lim, att, Point(x, yStart, zContact)) && EnvelopeInside(lim, att, Point(x, yEnd, zContact))
  }

  /** `safe_y_pass` sends something exactly when the gates pass, both speeds
      are positive and all four corners are safe; what it sends is the pass
      at `z_safe`/`z_contact`, with Z moves at the configured Z speed. */
  lemma SafeYPassSendsOnlySafe(remote: Remote, limits: Option<Limits>, cfg: PrinterConfig,
                               x: real, yStart: real, yEnd: real, zSafe: real, zContact: real,
                               travelSpeed: real, approachSpeed: real)
    ensures var plan := SafeYPassPlan(remote, limits, cfg, x, yStart, yEnd, zSafe, zContact, travelSpeed, approachSpeed);
      plan.Success? <==>
        Ready(remote) && XyzHomed(remote) && travelSpeed > 0.0 && approachSpeed > 0.0 &&
        limits.Some? && CornersInside(limits.value, cfg.attach, x, yStart, yEnd, zSafe, zContact)
    ensures var plan := SafeYPassPlan(remote, limits, cfg, x, yStart, yEnd, zSafe, zContact, travelSpeed, approachSpeed);
      plan.Success? ==>
        plan.value == SweepScript(x, yStart, yEnd, zSafe, zContact, Feed(cfg.zSpeed), Feed(approachSpeed), Feed(travelSpeed))
  {
    XyzHomedGate(remote);
  }

  /** Once the pass is accepted, from wherever the toolhead starts, every
      point of the path from the approach on (lowering to contact, the
      travel along Y, the final lift) keeps the whole attachment box inside
      the limits. Only the very first lift, at the unknown starting X/Y, and
      the approach move from there are outside what the checks cover. */
  lemma {:induction false} SafeYPassPathInside(remote: Remote, limits: Option<Limits>, cfg: PrinterConfig,
                                              x: real, yStart: real, yEnd: real, zSafe: real, zContact: real,
                                              travelSpeed: real, approachSpeed: real, start: Point)
    requires SafeYPassPlan(remote, limits, cfg, x, yStart, yEnd, zSafe, zContact, travelSpeed, approachSpeed).Success?
    ensures var tr := Trace(start, SafeYPassPlan(remote, limits, cfg, x, yStart, yEnd, zSafe, zContact,
                                                travelSpeed, approachSpeed).value);
      (forall t :: 0.0 <= t <= 1.0 ==> EnvelopeInside(limits.value, cfg.attach, Lerp(tr[2], tr[3], t))) &&
      (forall t :: 0.0 <= t <= 1.0 ==> EnvelopeInside(limits.value, cfg.attach, Lerp(tr[3], tr[4], t))) &&
      (forall t :: 0.0 <= t <= 1.0 ==> EnvelopeInside(limits.value, cfg.attach, Lerp(tr[4], tr[5], t)))
  {
    SafeYPassSendsOnlySafe(remote, limits, cfg, x, yStart, yEnd, zSafe, zContact, travelSpeed, approachSpeed);
    var lim, att := limits.value, cfg.attach;
    var fz, fa, ft := Feed(cfg.zSpeed), Feed(approachSpeed), Feed(travelSpeed);
    SweepStops(start, x, yStart, yEnd, zSafe, zContact, fz, fa, ft);
    var tr := Trace(start, SweepScript(x, yStart, yEnd, zSafe, zContact, fz, fa, ft));
    forall t | 0.0 <= t <= 1.0 ensures EnvelopeInside(lim, att, Lerp(tr[2], tr[3], t)) {
      EnvelopeConvex(lim, att, tr[2], tr[3], t);
    }
    forall t | 0.0 <= t <= 1.0 ensures EnvelopeInside(lim, att, Lerp(tr[3], tr[4], t)) {
      EnvelopeConvex(lim, att, tr[3], tr[4], t);
    }
    forall t | 0.0 <= t <= 1.0 ensures EnvelopeInside(lim, att, Lerp(tr[4], tr[5], t)) {
      EnvelopeConvex(lim, att, tr[4], tr[5], t);
    }
  }

  /** Where `home` sends the toolhead after G28: the middle of the X and Y
      maxima, at a height that puts the attachment's lowest face at Z = 10. */
  function ParkPoint(lim: Limits, att: Attachment): (p: Point)
    ensures ExtremeValue(p, att, Z, Low) == 10.0
    ensures 2.0 * p.x == lim.x.hi && 2.0 * p.y == lim.y.hi
  {
    Point(lim.x.hi / 2.0, lim.y.hi / 2.0, -att.minZ + 10.0)
  }

  /** The follow-up move of `home`: `move_absolute` to the park point at
      20 mm/s, judged on the status seen after homing. With no cached limits
      the source fails reading them (a TypeError rather than a PrinterError). */
  function ParkPlan(limits: Option<Limits>, att: Attachment, after: Remote): Result<Script, Error> {
    match limits
    case None => Failure(NotInitialized)
    case Some(lim) => MoveAbsolutePlan(after, limits, att, ParkPoint(lim, att), 20.0)
  }

  /** A chamber reading: current temperature and, when reported, the target. */
  datatype Reading = Reading(current: real, target: Option<real>)

  /** The chamber objects tried by `get_chamber_temperature`, in order. */
  const ChamberCandidates: seq<string> :=
    ["temperature_sensor chamber", "heater_generic chamber", "temperature_fan chamber", "chamber"]

  /** The status of `name` is a dict whose `temperature` converts to a number
      and whose `target` is absent, null or a number. */
  predicate Readable(objects: map<string, ObjectStatus>, name: string) {
    name in objects && objects[name].Dict? && objects[name].temperature.Num? && !objects[name].target.Garbled?
  }

  function ReadingOf(o: ObjectStatus): Reading
    requires o.Dict? && o.temperature.Num?
  {
    Reading(o.temperature.v, if o.target.Num? then Some(o.target.v) else None)
  }

  /** Candidate `k` is the first readable one. */
  predicate FirstReadable(objects: map<string, ObjectStatus>, k: int) {
    0 <= k < |ChamberCandidates| && Readable(objects, ChamberCandidates[k]) &&
    forall j :: 0 <= j < k ==> !Readable(objects, ChamberCandidates[j])
  }

  /** The status of `name` is a dict (what `set_chamber_temperature` probes for). */
  predicate IsDict(objects: map<string, ObjectStatus>, name: string) {
    name in objects && objects[name].Dict?
  }

  function Abs(v: real): real {
    if v < 0.0 then -v else v
  }

  /** Some sample is within `tol` of `target`. */
  predicate Reaches(samples: seq<real>, target: real, tol: real) {
    exists i :: 0 <= i < |samples| && Abs(samples[i] - target) <= tol
  }

  /** `_wait_chamber_reach`: polls the chamber temperature until it is within
      `tol` of the target; `samples` are the readings taken before the
      deadline passed. */
  method WaitChamberReach(target: real, tol: real, samples: seq<real>) returns (r: Outcome<Error>)
    ensures r.Pass? <==> Reaches(samples, target, tol)
    ensures r.Fail? ==> r == Fail(ChamberTimeout(target))
  {
    for i := 0 to |samples|
      invariant forall j :: 0 <= j < i ==> Abs(samples[j] - target) > tol
    {
      if Abs(samples[i] - target) <= tol {
        return Pass;
      }
    }
    return Fail(ChamberTimeout(target));
  }

  class Printer {
    const cfg: PrinterConfig
    /** `_limits`: empty until `refresh_limits` fills it. */
    var limits: Option<Limits>
    /** Every script handed to `send_gcode`, oldest first. */
    var sent: seq<Script>

    /** `Printer(cfg, auto_init=False)`; with `auto_init=True` the source then calls `initialize`. */
    constructor (cfg: PrinterConfig)
      ensures this.cfg == cfg && limits == None && sent == []
    {
      this.cfg := cfg;
      limits := None;
      sent := [];
    }

    /** `refresh_limits`: caches the first three axis bounds; on a malformed
        status the cache is left as it was. */
    method RefreshLimits(remote: Remote) returns (r: Outcome<Error>)
      modifies this`limits
      ensures ReadLimits(remote).Success? ==> r == Pass && limits == Some(ReadLimits(remote).value)
      ensures ReadLimits(remote).Failure? ==> r == Fail(StatusMalformed) && limits == old(limits)
    {
      var read := ReadLimits(remote);
      if read.Failure? {
        return Fail(read.error);
      }
      limits := Some(read.value);
      r := Pass;
    }

    /** `get_limits_cached`: the cache, or an error while it is empty. */
    function LimitsCached(): (r: Result<Limits, Error>)
      reads this
      ensures r.Success? <==> limits.Some?
      ensures r.Success? ==> limits == Some(r.value)
      ensures r.Failure? ==> r.error == NotInitialized
    {
      if limits.None? then Failure(NotInitialized) else Success(limits.value)
    }

    /** `_validate_attachment_box`: the loop over x, y, z. */
    method ValidateAttachmentBox() returns (r: Outcome<Error>)
      ensures r == AttachBoxGate(cfg.attach)
      ensures r.Pass? <==> cfg.attach.WellFormed()
    {
      var att := cfg.attach;
      var axes := [X, Y, Z];
      for i := 0 to 3
        invariant forall j :: 0 <= j < i ==> att.Offset(AxisAt(j), Low) <= att.Offset(AxisAt(j), High)
      {
        assert axes[i] == AxisAt(i);
        if att.Offset(axes[i], Low) > att.Offset(axes[i], High) {
          assert FirstInverted(att, i);
          var g := AttachBoxGate(att);
          var k :| FirstInverted(att, k) && g.error == AttachBoxInverted(AxisAt(k));
          assert k == i;
          return Fail(AttachBoxInverted(axes[i]));
        }
      }
      r := Pass;
    }

    /** `initialize`: the ready gate, then the cache is filled, then the box is
        validated, so an inverted box is reported with the cache already set. */
    method Initialize(remote: Remote) returns (r: Outcome<Error>)
      modifies this`limits
      ensures !Ready(remote) ==> r == Fail(NotReady(remote.state)) && limits == old(limits)
      ensures Ready(remote) && ReadLimits(remote).Failure? ==> r == Fail(StatusMalformed) && limits == old(limits)
      ensures Ready(remote) && ReadLimits(remote).Success? ==>
        limits == Some(ReadLimits(remote).value) && r == AttachBoxGate(cfg.attach)
    {
      r := EnsureReady(remote);
      if r.Fail? {
        return;
      }
      r := RefreshLimits(remote);
      if r.Fail? {
        return;
      }
      r := ValidateAttachmentBox();
    }

    /** `set_motion_limits`. */
    method SetMotionLimits(velocity: real, accel: real, remote: Remote) returns (r: Outcome<Error>)
      modifies this`sent
      ensures !Ready(remote) ==> r == Fail(NotReady(remote.state)) && sent == old(sent)
      ensures Ready(remote) && (velocity <= 0.0 || accel <= 0.0) ==>
        r == Fail(NonPositiveMotionLimits) && sent == old(sent)
      ensures Ready(remote) && velocity > 0.0 && accel > 0.0 ==>
        r == Pass && sent == old(sent) + [[SetVelocityLimit(velocity, accel)]]
    {
      r := EnsureReady(remote);
      if r.Fail? {
        return;
      }
      if velocity <= 0.0 || accel <= 0.0 {
        return Fail(NonPositiveMotionLimits);
      }
      sent := sent + [[SetVelocityLimit(velocity, accel)]];
    }

    /** `move_absolute`: nothing is sent unless every gate and the attachment
        check pass; then one script, and with `wait` the idle poll. */
    method MoveAbsolute(x: real, y: real, z: real, speed: real, wait: bool, remote: Remote) returns (r: Outcome<Error>)
      modifies this`sent
      ensures var plan := MoveAbsolutePlan(remote, limits, cfg.attach, Point(x, y, z), speed);
        plan.Failure? ==> r == Fail(plan.error) && sent == old(sent)
      ensures var plan := MoveAbsolutePlan(remote, limits, cfg.attach, Point(x, y, z), speed);
        plan.Success? ==>
          sent == old(sent) + [plan.value] && r == if wait && !Settles(remote.moving) then Fail(MovesTimeout) else Pass
    {
      r := EnsureReady(remote);
      if r.Fail? {
        return;
      }
      r := EnsureHomed("xyz", remote);
      if r.Fail? {
        return;
      }
      if speed <= 0.0 {
        return Fail(NonPositiveSpeed);
      }
      r := CachedCheck(limits, cfg.attach, Point(x, y, z));
      if r.Fail? {
        return;
      }
      sent := sent + [[G90, G1(Some(x), Some(y), Some(z), Feed(speed))]];
      if wait {
        r := WaitMoves(remote.moving);
      }
    }

    /** `safe_y_pass`: all four corners are checked before anything is sent;
        then one script, and with `wait` an M400. */
    method SafeYPass(x: real, yStart: real, yEnd: real, zSafe: real, zContact: real,
                     travelSpeed: real, approachSpeed: real, wait: bool, remote: Remote)
      returns (r: Outcome<Error>)
      modifies this`sent
      ensures var plan := SafeYPassPlan(remote, limits, cfg, x, yStart, yEnd, zSafe, zContact, travelSpeed, approachSpeed);
        plan.Failure? ==> r == Fail(plan.error) && sent == old(sent)
      ensures var plan := SafeYPassPlan(remote, limits, cfg, x, yStart, yEnd, zSafe, zContact, travelSpeed, approachSpeed);
        plan.Success? ==> r == Pass && sent == old(sent) + [plan.value] + (if wait then [[M400]] else [])
    {
      r := EnsureReady(remote);
      if r.Fail? {
        return;
      }
      r := EnsureHomed("xyz", remote);
      if r.Fail? {
        return;
      }
      if travelSpeed <= 0.0 || approachSpeed <= 0.0 {
        return Fail(NonPositiveSpeed);
      }
      r := CachedCheck(limits, cfg.attach, Point(x, yStart, zSafe));
      if r.Fail? {
        return;
      }
      r := CachedCheck(limits, cfg.attach, Point(x, yEnd, zSafe));
      if r.Fail? {
        return;
      }
      r := CachedCheck(limits, cfg.attach, Point(x, yStart, zContact));
      if r.Fail? {
        return;
      }
      r := CachedCheck(limits, cfg.attach, Point(x, yEnd, zContact));
      if r.Fail? {
        return;
      }
      var fz := Feed(cfg.zSpeed);
      var fApproach := Feed(approachSpeed);
      var fTravel := Feed(travelSpeed);
      sent := sent + [SweepScript(x, yStart, yEnd, zSafe, zContact, fz, fApproach, fTravel)];
      if wait {
        sent := sent + [[M400]];
      }
    }

    /** `home`: after the ready gate and, when asked for, the operator's
        confirmation, sends G28 and M400 and then moves to the park point;
        `answer` is what the operator typed and `after` the status once
        homing has run. */
    method Home(axes: string, confirm: bool, answer: string, remote: Remote, after: Remote) returns (r: Outcome<Error>)
      modifies this`sent
      ensures !Ready(remote) ==> r == Fail(NotReady(remote.state)) && sent == old(sent)
      ensures Ready(remote) && confirm && !Confirmed(answer) ==> r == Fail(HomingCancelled) && sent == old(sent)
      ensures Ready(remote) && (!confirm || Confirmed(answer)) ==>
        var homed := old(sent) + [[G28(Upper(axes))], [M400]];
        var park := ParkPlan(limits, cfg.attach, after);
        (park.Failure? ==> r == Fail(park.error) && sent == homed) &&
        (park.Success? ==>
           sent == homed + [park.value] && r == if Settles(after.moving) then Pass else Fail(MovesTimeout))
    {
      r := EnsureReady(remote);
      if r.Fail? {
        return;
      }
      if confirm && !Confirmed(answer) {
        return Fail(HomingCancelled);
      }
      sent := sent + [[G28(Upper(axes))]];
      sent := sent + [[M400]];
      if limits.None? {
        return Fail(NotInitialized);
      }
      var park := ParkPoint(limits.value, cfg.attach);
      assert Point(park.x, park.y, park.z) == park;
      assert ParkPlan(limits, cfg.attach, after) == MoveAbsolutePlan(after, limits, cfg.attach, park, 20.0);
      r := MoveAbsolute(park.x, park.y, park.z, 20.0, true, after);
    }

    /** `set_bed_temperature`: range [0, 150] checked before sending; M190
        (then M400) when waiting, M140 otherwise. */
    method SetBedTemperature(temp: real, wait: bool, remote: Remote) returns (r: Outcome<Error>)
      modifies this`sent
      ensures !Ready(remote) ==> r == Fail(NotReady(remote.state)) && sent == old(sent)
      ensures Ready(remote) && (temp < 0.0 || temp > 150.0) ==>
        r == Fail(BedTemperatureOutOfRange(temp)) && sent == old(sent)
      ensures Ready(remote) && 0.0 <= temp <= 150.0 ==>
        r == Pass && sent == old(sent) + if wait then [[M190(temp)], [M400]] else [[M140(temp)]]
    {
      r := EnsureReady(remote);
      if r.Fail? {
        return;
      }
      if temp < 0.0 || temp > 150.0 {
        return Fail(BedTemperatureOutOfRange(temp));
      }
      var cmd := if wait then M190(temp) else M140(temp);
      sent := sent + [[cmd]];
      if wait {
        sent := sent + [[M400]];
      }
    }

    /** `get_chamber_temperature`: the reading of the first candidate, in the
        fixed order, whose status is a dict with a numeric temperature and a
        numeric or missing target; an error when none is. */
    method GetChamberTemperature(remote: Remote) returns (r: Result<Reading, Error>)
      ensures r.Success? <==> exists k :: 0 <= k < |ChamberCandidates| && Readable(remote.objects, ChamberCandidates[k])
      ensures r.Success? ==>
        exists k :: FirstReadable(remote.objects, k) && r.value == ReadingOf(remote.objects[ChamberCandidates[k]])
      ensures r.Failure? ==> r.error == ChamberNotFound
    {
      var objects := remote.objects;
      for i := 0 to |ChamberCandidates|
        invariant forall j :: 0 <= j < i ==> !Readable(objects, ChamberCandidates[j])
      {
        var name := ChamberCandidates[i];
        if name in objects && objects[name].Dict? {
          var data := objects[name];
          if data.temperature.Num? && !data.target.Garbled? {
            assert FirstReadable(objects, i);
            return Success(ReadingOf(data));
          }
        }
      }
      r := Failure(ChamberNotFound);
    }

    /** `set_chamber_temperature`: range [0, 90] checked before sending, then
        `heater_generic chamber` is preferred over `temperature_fan chamber`.
        As in the source, a wait that times out after one command is
        swallowed and the next mechanism is tried. */
    method SetChamberTemperature(temp: real, wait: bool, remote: Remote) returns (r: Outcome<Error>)
      modifies this`sent
      ensures !Ready(remote) ==> r == Fail(NotReady(remote.state)) && sent == old(sent)
      ensures Ready(remote) && (temp < 0.0 || temp > 90.0) ==>
        r == Fail(ChamberTemperatureOutOfRange(temp)) && sent == old(sent)
      ensures Ready(remote) && 0.0 <= temp <= 90.0 ==>
        var heater := IsDict(remote.objects, "heater_generic chamber");
        var fan := IsDict(remote.objects, "temperature_fan chamber");
        var done := !wait || Reaches(remote.chamber, temp, 1.0);
        (heater && done ==> r == Pass && sent == old(sent) + [[SetHeaterTemperature(temp)]]) &&
        (heater && !done ==>
           r == Fail(ChamberControlNotFound) &&
           sent == old(sent) + [[SetHeaterTemperature(temp)]] + (if fan then [[SetTemperatureFanTarget(temp)]] else [])) &&
        (!heater && fan ==>
           sent == old(sent) + [[SetTemperatureFanTarget(temp)]] && r == if done then Pass else Fail(ChamberControlNotFound)) &&
        (!heater && !fan ==> r == Fail(ChamberControlNotFound) && sent == old(sent))
    {
      r := EnsureReady(remote);
      if r.Fail? {
        return;
      }
      if temp < 0.0 || temp > 90.0 {
        return Fail(ChamberTemperatureOutOfRange(temp));
      }
      if IsDict(remote.objects, "heater_generic chamber") {
        sent := sent + [[SetHeaterTemperature(temp)]];
        if !wait {
          return Pass;
        }
        var w := WaitChamberReach(temp, 1.0, remote.chamber);
        if w.Pass? {
          return Pass;
        }
      }
      if IsDict(remote.objects, "temperature_fan chamber") {
        sent := sent + [[SetTemperatureFanTarget(temp)]];
        if !wait {
          return Pass;
        }
        var w := WaitChamberReach(temp, 1.0, remote.chamber);
        if w.Pass? {
          return Pass;
        }
      }
      r := Fail(ChamberControlNotFound);
    }
  }
}
