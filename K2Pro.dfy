/**
 The plain client of k2pro.py (`K2Pro`): the same limits cache and the same
 ready and homed gates as the attachment client, a point-in-limits check with
 no attachment box, homing without confirmation, and a Y-only pass whose lift
 height is the configured air height raised to at least the contact height.
 */
module K2ProClient {
  import opened Klipper
  import opened Safety
  import opened Gates
  import opened Sweep

  /** `K2ProConfig` without the transport settings. */
  datatype K2ProConfig = K2ProConfig(zAirMin: real, zSpeed: real)

  /** `z_air` of `safe_y_pass`: `z_air_min`, raised to `z_contact` when lower. */
  function AirHeight(zAirMin: real, zContact: real): (z: real)
    ensures z >= zContact && z >= zAirMin
    ensures z == zAirMin || z == zContact
  {
    var z := zAirMin;
    if z < zContact then zContact else z
  }

  /** What `safe_y_pass` decides before sending. Only the two contact points
      are checked; the air height is not. */
  function SafeYPassPlan(remote: Remote, limits: Option<Limits>, cfg: K2ProConfig,
                         x: real, yStart: real, yEnd: real, zContact: real,
                         travelSpeed: real, approachSpeed: real): Result<Script, Error>
  {
    var homed := HomedGate("xyz", HomedAxes(remote));
    var c1 := CachedCheckInLimits(limits, Point(x, yStart, zContact));
    var c2 := CachedCheckInLimits(limits, Point(x, yEnd, zContact));
    if !Ready(remote) then Failure(NotReady(remote.state))
    else if homed.Fail? then Failure(homed.error)
    else if travelSpeed <= 0.0 || approachSpeed <= 0.0 then Failure(NonPositiveSpeed)
    else if c1.Fail? then Failure(c1.error)
    else if c2.Fail? then Failure(c2.error)
    else Success(SweepScript(x, yStart, yEnd, AirHeight(cfg.zAirMin, zContact), zContact,
                             Feed(cfg.zSpeed), Feed(approachSpeed), Feed(travelSpeed)))
  }

  /** `safe_y_pass` sends something exactly when the gates pass, both speeds
      are positive and both contact points are inside the limits; what it
      sends is the pass lifted to the air height, which is never below contact. */
  lemma SafeYPassSendsOnlyChecked(remote: Remote, limits: Option<Limits>, cfg: K2ProConfig,
                                  x: real, yStart: real, yEnd: real, zContact: real,
                                  travelSpeed: real, approachSpeed: real)
    ensures var plan := SafeYPassPlan(remote, limits, cfg, x, yStart, yEnd, zContact, travelSpeed, approachSpeed);
      plan.Success? <==>
        Ready(remote) && XyzHomed(remote) && travelSpeed > 0.0 && approachSpeed > 0.0 && limits.Some? &&
        PointInside(limits.value, Point(x, yStart, zContact)) && PointInside(limits.value, Point(x, yEnd, zContact))
    ensures var plan := SafeYPassPlan(remote, limits, cfg, x, yStart, yEnd, zContact, travelSpeed, approachSpeed);
      plan.Success? ==>
        plan.value == SweepScript(x, yStart, yEnd, AirHeight(cfg.zAirMin, zContact), zContact,
                                  Feed(cfg.zSpeed), Feed(approachSpeed), Feed(travelSpeed)) &&
        plan.value[1].z.value >= zContact && plan.value[5].z.value >= zContact
  {
    XyzHomedGate(remote);
  }

  /** Once the pass is accepted, from wherever the toolhead starts, the
      travel at contact height stays inside the limits all along, and both
      lifts end no lower than contact. */
  lemma {:induction false} ContactTravelInside(remote: Remote, limits: Option<Limits>, cfg: K2ProConfig,
                                              x: real, yStart: real, yEnd: real, zContact: real,
                                              travelSpeed: real, approachSpeed: real, start: Point)
    requires SafeYPassPlan(remote, limits, cfg, x, yStart, yEnd, zContact, travelSpeed, approachSpeed).Success?
    ensures var tr := Trace(start, SafeYPassPlan(remote, limits, cfg, x, yStart, yEnd, zContact,
                                                travelSpeed, approachSpeed).value);
      (forall t :: 0.0 <= t <= 1.0 ==> PointInside(limits.value, Lerp(tr[3], tr[4], t))) &&
      tr[1].z >= zContact && tr[5].z >= zContact
  {
    SafeYPassSendsOnlyChecked(remote, limits, cfg, x, yStart, yEnd, zContact, travelSpeed, approachSpeed);
    var lim := limits.value;
    var zAir := AirHeight(cfg.zAirMin, zContact);
    var fz, fa, ft := Feed(cfg.zSpeed), Feed(approachSpeed), Feed(travelSpeed);
    SweepStops(start, x, yStart, yEnd, zAir, zContact, fz, fa, ft);
    var tr := Trace(start, SweepScript(x, yStart, yEnd, zAir, zContact, fz, fa, ft));
    PointInsideIsZeroEnvelope(lim, tr[3]);
    PointInsideIsZeroEnvelope(lim, tr[4]);
    forall t | 0.0 <= t <= 1.0 ensures PointInside(lim, Lerp(tr[3], tr[4], t)) {
      EnvelopeConvex(lim, NoAttachment, tr[3], tr[4], t);
      PointInsideIsZeroEnvelope(lim, Lerp(tr[3], tr[4], t));
    }
  }

  /** The air height is never checked: a pass is accepted with Z limits
      [0, 10] and `z_air_min = 20`, and its lifts go to Z = 20. */
  lemma AirHeightUnchecked()
    ensures var lim := Limits(Range(0.0, 100.0), Range(0.0, 100.0), Range(0.0, 10.0));
      var remote := Remote("ready", Some(Toolhead(Some("xyz"), [], [])), map[], [], []);
      var plan := SafeYPassPlan(remote, Some(lim), K2ProConfig(20.0, 8.0), 50.0, 10.0, 90.0, 5.0, 25.0, 25.0);
      plan.Success? && plan.value[1].z == Some(20.0) && !lim.z.Holds(20.0)
  {
    var lim := Limits(Range(0.0, 100.0), Range(0.0, 100.0), Range(0.0, 10.0));
    var remote := Remote("ready", Some(Toolhead(Some("xyz"), [], [])), map[], [], []);
    assert Lower("xyz") == "xyz";
    assert XyzHomed(remote);
    SafeYPassSendsOnlyChecked(remote, Some(lim), K2ProConfig(20.0, 8.0), 50.0, 10.0, 90.0, 5.0, 25.0, 25.0);
  }

  class K2Pro {
    const cfg: K2ProConfig
    /** `_limits`: empty until `refresh_limits` fills it. */
    var limits: Option<Limits>
    /** Every script handed to `send_gcode`, oldest first. */
    var sent: seq<Script>

    /** `K2Pro(cfg, auto_init=False)`; with `auto_init=True` the source then calls `initialize`. */
    constructor (cfg: K2ProConfig)
      ensures this.cfg == cfg && limits == None && sent == []
    {
      this.cfg := cfg;
      limits := None;
      sent := [];
    }

    /** `refresh_limits`: caches the first three axis bounds; on a malformed
        status the cache is left as it was. */
    method RefreshLimits(remote: Remote) returns (r: Outcome<Error>)
      modifies this`limits
      ensures ReadLimits(remote).Success? ==> r == Pass && limits == Some(ReadLimits(remote).value)
      ensures ReadLimits(remote).Failure? ==> r == Fail(StatusMalformed) && limits == old(limits)
    {
      var read := ReadLimits(remote);
      if read.Failure? {
        return Fail(read.error);
      }
      limits := Some(read.value);
      r := Pass;
    }

    /** `get_limits_cached`: the cache, or an error while it is empty. */
    function LimitsCached(): (r: Result<Limits, Error>)
      reads this
      ensures r.Success? <==> limits.Some?
      ensures r.Success? ==> limits == Some(r.value)
      ensures r.Failure? ==> r.error == NotInitialized
    {
      if limits.None? then Failure(NotInitialized) else Success(limits.value)
    }

    /** `initialize`: the ready gate, then the cache is filled. */
    method Initialize(remote: Remote) returns (r: Outcome<Error>)
      modifies this`limits
      ensures !Ready(remote) ==> r == Fail(NotReady(remote.state)) && limits == old(limits)
      ensures Ready(remote) && ReadLimits(remote).Failure? ==> r == Fail(StatusMalformed) && limits == old(limits)
      ensures Ready(remote) && ReadLimits(remote).Success? ==> r == Pass && limits == Some(ReadLimits(remote).value)
    {
      r := EnsureReady(remote);
      if r.Fail? {
        return;
      }
      r := RefreshLimits(remote);
    }

    /** `_check_xyz_in_limits` on the cache. */
    function CheckXyzInLimits(x: real, y: real, z: real): (r: Outcome<Error>)
      reads this
      ensures r.Pass? <==> limits.Some? && PointInside(limits.value, Point(x, y, z))
      ensures limits.Some? ==> r == AsPlain(CheckWithAttachment(limits.value, NoAttachment, Point(x, y, z)))
    {
      if limits.Some? then
        PlainIsZeroAttachment(limits.value, Point(x, y, z));
        CachedCheckInLimits(limits, Point(x, y, z))
      else
        Fail(NotInitialized)
    }

    /** `home`: the ready gate, then `G28` with the upper-cased axes; no
        confirmation and no follow-up move. */
    method Home(axes: string, remote: Remote) returns (r: Outcome<Error>)
      modifies this`sent
      ensures !Ready(remote) ==> r == Fail(NotReady(remote.state)) && sent == old(sent)
      ensures Ready(remote) ==> r == Pass && sent == old(sent) + [[G28(Upper(axes))]]
    {
      r := EnsureReady(remote);
      if r.Fail? {
        return;
      }
      sent := sent + [[G28(Upper(axes))]];
    }

    /** `set_motion_limits`. */
    method SetMotionLimits(velocity: real, accel: real, remote: Remote) returns (r: Outcome<Error>)
      modifies this`sent
      ensures !Ready(remote) ==> r == Fail(NotReady(remote.state)) && sent == old(sent)
      ensures Ready(remote) && (velocity <= 0.0 || accel <= 0.0) ==>
        r == Fail(NonPositiveMotionLimits) && sent == old(sent)
      ensures Ready(remote) && velocity > 0.0 && accel > 0.0 ==>
        r == Pass && sent == old(sent) + [[SetVelocityLimit(velocity, accel)]]
    {
      r := EnsureReady(remote);
      if r.Fail? {
        return;
      }
      if velocity <= 0.0 || accel <= 0.0 {
        return Fail(NonPositiveMotionLimits);
      }
      sent := sent + [[SetVelocityLimit(velocity, accel)]];
    }

    /** `safe_y_pass`: both contact points are checked before anything is
        sent; then one script, and with `wait` the idle poll. */
    method SafeYPass(x: real, yStart: real, yEnd: real, zContact: real,
                     travelSpeed: real, approachSpeed: real, wait: bool, remote: Remote)
      returns (r: Outcome<Error>)
      modifies this`sent
      ensures var plan := SafeYPassPlan(remote, limits, cfg, x, yStart, yEnd, zContact, travelSpeed, approachSpeed);
        plan.Failure? ==> r == Fail(plan.error) && sent == old(sent)
      ensures var plan := SafeYPassPlan(remote, limits, cfg, x, yStart, yEnd, zContact, travelSpeed, approachSpeed);
        plan.Success? ==>
          sent == old(sent) + [plan.value] && r == if wait && !Settles(remote.moving) then Fail(MovesTimeout) else Pass
    {
      r := EnsureReady(remote);
      if r.Fail? {
        return;
      }
      r := EnsureHomed("xyz", remote);
      if r.Fail? {
        return;
      }
      if travelSpeed <= 0.0 || approachSpeed <= 0.0 {
        return Fail(NonPositiveSpeed);
      }
      r := CachedCheckInLimits(limits, Point(x, yStart, zContact));
      if r.Fail? {
        return;
      }
      r := CachedCheckInLimits(limits, Point(x, yEnd, zContact));
      if r.Fail? {
        return;
      }
      var zAir := cfg.zAirMin;
      if zAir < zContact {
        zAir := zContact;
      }
      var fz := Feed(cfg.zSpeed);
      var fApproach := Feed(approachSpeed);
      var fTravel := Feed(travelSpeed);
      sent := sent + [SweepScript(x, yStart, yEnd, zAir, zContact, fz, fApproach, fTravel)];
      if wait {
        r := WaitMoves(remote.moving);
      }
    }
  }
}
