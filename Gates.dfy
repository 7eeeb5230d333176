/**
 The status-reading steps that both clients carry, line for line the same in
 3DPrinter.py and k2pro.py: the "ready" gate, the homed-axes gate, reading the
 axis limits out of the toolhead status, and the wait for the toolhead to
 stop moving.
 */
module Gates {
  import opened Klipper
  import opened Safety

  predicate Ready(remote: Remote) {
    remote.state == "ready"
  }

  /** `_ensure_ready`. */
  function EnsureReady(remote: Remote): (r: Outcome<Error>)
    ensures r.Pass? <==> Ready(remote)
    ensures r.Fail? ==> r.error == NotReady(remote.state)
  {
    if remote.state != "ready" then Fail(NotReady(remote.state)) else Pass
  }

  /** `(st.get("toolhead", {}) or {}).get("homed_axes", "") or ""`. */
  function HomedAxes(remote: Remote): (h: string)
    ensures remote.toolhead.None? ==> h == ""
    ensures remote.toolhead.Some? && remote.toolhead.value.homedAxes.None? ==> h == ""
    ensures remote.toolhead.Some? && remote.toolhead.value.homedAxes.Some? ==> h == remote.toolhead.value.homedAxes.value
  {
    match remote.toolhead
    case None => ""
    case Some(t) => if t.homedAxes.Some? then t.homedAxes.value else ""
  }

  /** The letter `c` of the requested axes is among the homed axes, ignoring case. */
  predicate IsHomed(c: char, homed: string) {
    LowerChar(c) in Lower(homed)
  }

  /** Requested letter `k` is the first that is not homed. */
  predicate FirstUnhomed(axes: string, homed: string, k: int) {
    0 <= k < |axes| && !IsHomed(axes[k], homed) && forall j :: 0 <= j < k ==> IsHomed(axes[j], homed)
  }

  /** What `_ensure_homed(axes)` decides when the status reports `homed`:
      passes exactly when every requested letter is homed, and otherwise
      names the first one that is not. */
  function HomedGate(axes: string, homed: string): (r: Outcome<Error>)
    ensures r.Pass? <==> forall i :: 0 <= i < |axes| ==> IsHomed(axes[i], homed)
    ensures r.Fail? ==> exists k :: FirstUnhomed(axes, homed, k) && r.error == NotHomed(LowerChar(axes[k]))
  {
    if axes == [] then Pass
    else if !IsHomed(axes[0], homed) then
      assert FirstUnhomed(axes, homed, 0);
      Fail(NotHomed(LowerChar(axes[0])))
    else
      var rest := HomedGate(axes[1..], homed);
      if rest.Fail? then
        var k :| FirstUnhomed(axes[1..], homed, k) && rest.error == NotHomed(LowerChar(axes[1..][k]));
        assert FirstUnhomed(axes, homed, k + 1);
        rest
      else
        assert forall i :: 1 <= i < |axes| ==> axes[i] == axes[1..][i - 1];
        rest
  }

  /** The first unhomed letter is unique, so the gate's verdict is determined. */
  lemma FirstUnhomedUnique(axes: string, homed: string, k: int, m: int)
    requires FirstUnhomed(axes, homed, k) && FirstUnhomed(axes, homed, m)
    ensures k == m
  {
  }

  /** `_ensure_homed(axes)`: the loop over the lower-cased requested letters,
      stopping at the first that the status does not list. */
  method EnsureHomed(axes: string, remote: Remote) returns (r: Outcome<Error>)
    ensures r == HomedGate(axes, HomedAxes(remote))
    ensures r.Pass? <==> forall i :: 0 <= i < |axes| ==> LowerChar(axes[i]) in Lower(HomedAxes(remote))
  {
    var homed := HomedAxes(remote);
    var wanted := Lower(axes);
    var have := Lower(homed);
    for i := 0 to |wanted|
      invariant forall j :: 0 <= j < i ==> IsHomed(axes[j], homed)
    {
      if wanted[i] !in have {
        r := Fail(NotHomed(wanted[i]));
        assert FirstUnhomed(axes, homed, i);
        var g := HomedGate(axes, homed);
        var k :| FirstUnhomed(axes, homed, k) && g.error == NotHomed(LowerChar(axes[k]));
        FirstUnhomedUnique(axes, homed, i, k);
        return;
      }
    }
    r := Pass;
  }

  /** All of x, y and z are reported homed, in either case. */
  predicate XyzHomed(remote: Remote) {
    var h := Lower(HomedAxes(remote));
    'x' in h && 'y' in h && 'z' in h
  }

  /** The gate both clients apply before a move, `_ensure_homed("xyz")`,
      passes exactly when x, y and z are all listed. */
  lemma XyzHomedGate(remote: Remote)
    ensures HomedGate("xyz", HomedAxes(remote)).Pass? <==> XyzHomed(remote)
  {
    var h := HomedAxes(remote);
    assert LowerChar('x') == 'x' && LowerChar('y') == 'y' && LowerChar('z') == 'z';
    if XyzHomed(remote) {
      assert forall i :: 0 <= i < 3 ==> IsHomed("xyz"[i], h) by {
        forall i | 0 <= i < 3 ensures IsHomed("xyz"[i], h) {
          assert i == 0 || i == 1 || i == 2;
        }
      }
    } else {
      assert !IsHomed("xyz"[0], h) || !IsHomed("xyz"[1], h) || !IsHomed("xyz"[2], h);
    }
  }

  /** `refresh_limits` reading the status: `toolhead.axis_minimum[0..3]` and
      `toolhead.axis_maximum[0..3]`; a missing toolhead or a list shorter
      than three raises. */
  function ReadLimits(remote: Remote): (r: Result<Limits, Error>)
    ensures r.Success? <==>
      remote.toolhead.Some? && |remote.toolhead.value.axisMinimum| >= 3 && |remote.toolhead.value.axisMaximum| >= 3
    ensures r.Failure? ==> r.error == StatusMalformed
    ensures r.Success? ==> forall i :: 0 <= i < 3 ==>
      r.value.Of(AxisAt(i)) == Range(remote.toolhead.value.axisMinimum[i], remote.toolhead.value.axisMaximum[i])
  {
    match remote.toolhead
    case None => Failure(StatusMalformed)
    case Some(t) =>
      if |t.axisMinimum| < 3 || |t.axisMaximum| < 3 then Failure(StatusMalformed)
      else
        var mn, mx := t.axisMinimum, t.axisMaximum;
        Success(Limits(Range(mn[0], mx[0]), Range(mn[1], mx[1]), Range(mn[2], mx[2])))
  }

  /** The axis whose bound sits at position `i` of `axis_minimum`/`axis_maximum`. */
  function AxisAt(i: int): Axis {
    if i == 0 then X else if i == 1 then Y else Z
  }

  /** Entries past the third (the extruder's E bounds) never affect the limits. */
  lemma ReadLimitsIgnoresExtruder(remote: Remote, t: Toolhead, moreMin: seq<real>, moreMax: seq<real>)
    requires remote.toolhead == Some(t) && |t.axisMinimum| >= 3 && |t.axisMaximum| >= 3
    ensures ReadLimits(remote) ==
      ReadLimits(remote.(toolhead := Some(t.(axisMinimum := t.axisMinimum + moreMin, axisMaximum := t.axisMaximum + moreMax))))
  {
    var t' := t.(axisMinimum := t.axisMinimum + moreMin, axisMaximum := t.axisMaximum + moreMax);
    assert t'.axisMinimum[..3] == t.axisMinimum[..3];
    assert t'.axisMaximum[..3] == t.axisMaximum[..3];
  }

  /** Some sample reports the toolhead idle. */
  predicate Settles(samples: seq<bool>) {
    exists i :: 0 <= i < |samples| && !samples[i]
  }

  /** `wait_moves`: polls the `moving` flag until it reads false; `samples`
      are the readings taken before the deadline passed. */
  method WaitMoves(samples: seq<bool>) returns (r: Outcome<Error>)
    ensures r.Pass? <==> Settles(samples)
    ensures r.Fail? ==> r == Fail(MovesTimeout)
  {
    var i := 0;
    while i < |samples|
      invariant 0 <= i <= |samples|
      invariant forall j :: 0 <= j < i ==> samples[j]
    {
      if !samples[i] {
        return Pass;
      }
      i := i + 1;
    }
    return Fail(MovesTimeout);
  }
}
