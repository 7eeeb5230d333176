# Motion-safety layer of the Moonraker/Klipper clients, in Dafny

This project models the safety layer of two Python HTTP clients for a
Klipper printer reached through Moonraker:

- `Printer` in `3DPrinter.py` carries an *attachment*, a tool fixed to the
  toolhead. The attachment is described as a bounding box of six offsets
  from the toolhead point. Before any move, every face of that box must be
  inside the cached axis limits.
- `K2Pro` in `k2pro.py` is the plain variant. It checks the point itself
  against the limits, and its Y-only pass lifts to an air height.

Both clients keep a cache of axis limits. The cache is empty until
`initialize`/`refresh_limits` fills it. Every motion call first checks
that the printer is `ready` and that x, y and z are homed. It then
validates every key point. Only then does it send one G-code script.

The HTTP transport is not modelled. Instead:

- each client is a class with a `limits: Option<Limits>` field and a
  `sent: seq<Script>` log, with one entry per `send_gcode` call;
- commands are a structured `Cmd` datatype, not formatted text;
- what the printer reports is a `Remote` value passed to each call. It holds
  the `state`, the `toolhead` object (homed axes and axis bounds), the other
  queried objects by name, and the samples that the polling loops read before
  their deadline passes.

Modules:

- `Klipper`: shared datatypes and the conversions `int()`, `lower()`,
  `upper()` and `strip()`.
- `Safety`: the validator, meaning the range check, the six-extreme
  attachment check and the plain point check.
- `Gates`: the steps that both files contain line for line. These are
  `_ensure_ready`, `_ensure_homed`, reading the limits, and `wait_moves`.
  k2pro.py:71-91 and k2pro.py:101-111 repeat 3DPrinter.py:93-103,
  3DPrinter.py:108-116 and 3DPrinter.py:124-132, so the members cite the
  3DPrinter.py lines once. `wait_moves_m400` (3DPrinter.py:105-106) exists
  only in 3DPrinter.py: that client waits by appending an M400 script,
  while k2pro.py polls with `wait_moves`.
- `Sweep`: the Y-only pass script and a trace of the toolhead position.
- `Confirmation`: the operator gate of `home`.
- `Printer3D`: the `Printer` class and its decision functions.
- `K2ProClient`: the `K2Pro` class and its decision functions.

Each motion method is written step by step, as in the source. Its `ensures`
ties the outcome and the new `sent` log to a pure decision function
(`MoveAbsolutePlan`, `SafeYPassPlan`, `ParkPlan`). The decision function
gives either the error the source raises or the script it sends. The
properties are proved about those functions as lemmas.

Behaviour of the source that the model keeps as written:

- `initialize` in 3DPrinter.py fills the cache before it validates the
  attachment box. An inverted box is reported with the cache already set.
- `home` in 3DPrinter.py reads the cache without checking it. With no limits
  cached, it fails only after G28 and M400 have been sent.
- After G28, `home` moves to (xmax/2, ymax/2, 10 − attach_min_z) at 20 mm/s.
  That puts the attachment's lowest face at Z = 10. k2pro.py's `home` sends
  only G28.
- In both `safe_y_pass` variants, the first lift happens at the unknown
  current X/Y. The approach move starts from there too. Only the points from
  the approach target onward are covered by the checks.
- k2pro.py's `safe_y_pass` never range-checks its air height
  (`AirHeightUnchecked` exhibits an accepted pass that lifts above the Z limit).
- In `set_chamber_temperature`, a failure after the `heater_generic` command
  (such as a wait that times out) is swallowed by the bare `except`. The
  method then tries `temperature_fan`. If that object is missing, it reports
  that neither object exists, although the heater command was already sent.

## Model

| member | source | states |
|---|---|---|
| Klipper.Trunc | 3DPrinter.py:383 | `int()` truncates toward zero: the result lies within 1 of the real and has its sign |
| Klipper.Feed | 3DPrinter.py:427-429 | for a positive speed, the feed word is the whole part of speed·60 mm/min and is not negative |
| Klipper.LowerChar | 3DPrinter.py:101-102 | lower-casing a character leaves no upper-case letter and changes nothing that is not one |
| Klipper.UpperChar | 3DPrinter.py:333 | upper-casing a character leaves no lower-case letter and changes nothing that is not one |
| Klipper.CharCaseFolds | 3DPrinter.py:101-102 | changing a character's case keeps what it maps to in the other direction |
| Klipper.LowerForgetsCase | 3DPrinter.py:101-102 | `lower()` leaves no upper-case letter in the string and keeps what every character upper-cases to |
| Klipper.UpperForgetsCase | 3DPrinter.py:333 | `upper()` leaves no lower-case letter in the string and keeps what every character lower-cases to |
| Klipper.CaseFolds | 3DPrinter.py:101-102 | case is forgotten: lower-casing after upper-casing equals lower-casing, and the mirror |
| Klipper.TrimStart | 3DPrinter.py:329 | the result is a suffix of the input; everything dropped is white space; the result does not start with white space |
| Klipper.TrimEnd | 3DPrinter.py:329 | the result is a prefix of the input; everything dropped is white space; the result does not end with white space |
| Safety.RangeCheck | 3DPrinter.py:339-342 | passes iff lo ≤ v ≤ hi (inclusive); otherwise the error carries the name, the value and both bounds |
| Safety.RunProbes | 3DPrinter.py:358-363 | a run of range checks passes iff every check passes; otherwise it reports the first failing one |
| Safety.CheckWithAttachment | 3DPrinter.py:344-363 | accepts iff all six faces of the attachment box are inside the limits; otherwise names the first bad face in the order x0, x1, y0, y1, z0, z1 |
| Safety.CachedCheck | 3DPrinter.py:348 | with an empty cache the check fails as not initialized; otherwise it accepts iff the box is inside |
| Safety.WellFormedByAxes | 3DPrinter.py:139-145 | the box is well formed iff min ≤ max on x, y and z |
| Safety.CheckInLimits | k2pro.py:127-136 | accepts iff x, y and z are each in their inclusive range; otherwise names the first failing axis in X, Y, Z order |
| Safety.CachedCheckInLimits | k2pro.py:133 | with an empty cache the plain check fails as not initialized; otherwise it accepts iff the point is inside |
| Safety.PlainIsZeroAttachment | k2pro.py:132-136 | the K2 Pro check equals the attachment check with all offsets zero: same verdict, axis, value and bounds |
| Safety.PointInsideIsZeroEnvelope | k2pro.py:132-136 | a point is inside iff a zero-size box around it is inside |
| Safety.EnvelopeConvex | 3DPrinter.py:344-363 | if the box is inside at two positions, it is inside at every position on the straight line between them |
| Safety.ShrunkLimitsAccept | 3DPrinter.py:344-363 | for a well-formed box, every point at least the box's reach from each limit is accepted |
| Safety.RightFaceRejected | 3DPrinter.py:351-359 | X limits [0,400], box −5..+30, x = 390: rejected as X+attach_max_x = 420 |
| Gates.EnsureReady | 3DPrinter.py:93-96 | passes iff the reported state is "ready"; otherwise the error carries the state |
| Gates.HomedAxes | 3DPrinter.py:100 | a missing toolhead or a null `homed_axes` reads as "" |
| Gates.HomedGate | 3DPrinter.py:98-103 | passes iff every requested letter is among the homed axes, ignoring case; otherwise names the first letter that is missing |
| Gates.EnsureHomed | 3DPrinter.py:98-103 | the early-exit loop decides exactly what the homed gate decides |
| Gates.XyzHomedGate | 3DPrinter.py:375 | `_ensure_homed("xyz")` passes iff x, y and z all appear in the lower-cased homed axes |
| Gates.ReadLimits | 3DPrinter.py:124-132 | succeeds iff the toolhead is present and both bound lists have at least three entries; axis i gets (axis_minimum[i], axis_maximum[i]) |
| Gates.ReadLimitsIgnoresExtruder | 3DPrinter.py:126-127 | entries after the third (E) never change the cached limits |
| Gates.WaitMoves | 3DPrinter.py:108-116 | returns iff some polled sample reports the toolhead idle; otherwise it times out |
| Sweep.SweepScript | 3DPrinter.py:431-438 | six lines starting with G90; the three vertical lines carry the Z feed, the approach its own feed and the Y travel the travel feed |
| Sweep.SweepStops | 3DPrinter.py:431-438 | from any start, the pass lifts in place, then stops at (x,y_start,up), (x,y_start,contact), (x,y_end,contact), (x,y_end,up) |
| Sweep.TravelAlongYOnly | 3DPrinter.py:436 | the travel line names only Y, and X and Z are the same before and after it |
| Confirmation.PaddedLowerCaseConfirms | 3DPrinter.py:329-330 | " confirm\n" is accepted: white space and case are ignored |
| Confirmation.WrongLengthRefused | 3DPrinter.py:329-331 | an answer with no surrounding white space and a length other than 7 is refused |
| Printer3D.AttachBoxGate | 3DPrinter.py:139-145 | passes iff the box is well formed; otherwise names the first axis in x, y, z order with min > max |
| Printer3D.MoveAbsoluteSendsOnlySafe | 3DPrinter.py:373-387 | a script is sent iff ready, homed xyz, speed > 0, limits cached and the box at the target is inside; the script is G90 then one G1 naming X, Y and Z of the target at F = int(speed·60), which reaches the target from any position |
| Printer3D.SafeYPassSendsOnlySafe | 3DPrinter.py:409-439 | a script is sent iff ready, homed xyz, both speeds > 0, limits cached and all four corners {y_start,y_end}×{z_safe,z_contact} are safe; the script is the pass at z_safe/z_contact |
| Printer3D.SafeYPassPathInside | 3DPrinter.py:421-438 | once accepted, the box stays inside the limits along the whole lowering, the Y travel and the final lift, from any starting position |
| Printer3D.ParkPoint | 3DPrinter.py:335 | the park point is at half the X and Y maxima, with the attachment's lowest face at Z = 10 |
| Printer3D.WaitChamberReach | 3DPrinter.py:303-311 | returns iff some polled chamber temperature is within tol of the target; otherwise it times out |
| Printer3D.Printer.constructor | 3DPrinter.py:55-59 | a new client has an empty cache and has sent nothing |
| Printer3D.Printer.RefreshLimits | 3DPrinter.py:124-132 | fills the cache from the status; on a malformed status it fails and leaves the cache unchanged |
| Printer3D.Printer.LimitsCached | 3DPrinter.py:134-137 | returns the cache, or fails as not initialized while the cache is empty |
| Printer3D.Printer.ValidateAttachmentBox | 3DPrinter.py:139-145 | the loop over x, y, z decides what the box gate decides |
| Printer3D.Printer.Initialize | 3DPrinter.py:119-122 | the ready check comes first; then the cache is filled; then the box is checked, with the cache already set |
| Printer3D.Printer.SetMotionLimits | 3DPrinter.py:366-370 | after the ready gate, rejects velocity ≤ 0 or accel ≤ 0 without sending; otherwise sends one SET_VELOCITY_LIMIT |
| Printer3D.Printer.MoveAbsolute | 3DPrinter.py:373-389 | nothing is sent when the decision fails; otherwise exactly the decided script is sent, and with wait the idle poll decides the outcome |
| Printer3D.Printer.SafeYPass | 3DPrinter.py:391-442 | nothing is sent when any check fails; otherwise the pass script is sent, followed by M400 when waiting |
| Printer3D.Printer.Home | 3DPrinter.py:313-335 | nothing is sent unless ready and, when asked, confirmed; then G28 with upper-cased axes, M400, and the move to the park point judged on the status after homing |
| Printer3D.Printer.SetBedTemperature | 3DPrinter.py:183-197 | a set-point outside [0,150] is rejected without sending; otherwise M190 then M400 when waiting, M140 when not |
| Printer3D.Printer.GetChamberTemperature | 3DPrinter.py:199-252 | returns the reading of the first candidate, in the fixed four-name order, that is a dict with a numeric temperature (target None when absent); fails iff none is |
| Printer3D.Printer.SetChamberTemperature | 3DPrinter.py:254-301 | a set-point outside [0,90] is rejected without sending; heater_generic is preferred over temperature_fan; with neither, it fails and sends nothing; a swallowed wait timeout falls through to the fan |
| K2ProClient.AirHeight | k2pro.py:176-179 | the air height is at least the contact height and at least z_air_min, and equals one of them |
| K2ProClient.SafeYPassSendsOnlyChecked | k2pro.py:161-193 | a script is sent iff ready, homed xyz, both speeds > 0, limits cached and both contact points are inside; the script lifts to the air height, never below contact |
| K2ProClient.ContactTravelInside | k2pro.py:173-192 | once accepted, the whole travel at contact height is inside the limits, and both lifts end no lower than contact |
| K2ProClient.AirHeightUnchecked | k2pro.py:173-179 | some accepted pass lifts to a Z outside the limits: the air height is not checked |
| K2ProClient.K2Pro.constructor | k2pro.py:30-37 | a new client has an empty cache and has sent nothing |
| K2ProClient.K2Pro.RefreshLimits | k2pro.py:101-111 | fills the cache from the status; on a malformed status it fails and leaves the cache unchanged |
| K2ProClient.K2Pro.LimitsCached | k2pro.py:113-116 | returns the cache, or fails as not initialized while the cache is empty |
| K2ProClient.K2Pro.Initialize | k2pro.py:94-99 | the ready check comes first, then the cache is filled; there is no box check |
| K2ProClient.K2Pro.CheckXyzInLimits | k2pro.py:132-136 | on the cache, accepts iff the point is inside; it equals the attachment check with zero offsets, with labels renamed |
| K2ProClient.K2Pro.Home | k2pro.py:122-124 | after the ready gate, sends exactly G28 with the upper-cased axes, with no confirmation and no follow-up move |
| K2ProClient.K2Pro.SetMotionLimits | k2pro.py:139-143 | after the ready gate, rejects velocity ≤ 0 or accel ≤ 0 without sending; otherwise sends one SET_VELOCITY_LIMIT |
| K2ProClient.K2Pro.SafeYPass | k2pro.py:146-196 | nothing is sent when any check fails; otherwise the pass script is sent, and with wait the idle poll decides the outcome |

## Left out

- HTTP transport (`_headers`, `_url`, `_get`, `_post`), JSON decoding and transport errors. `printer_info`, `query_status` and `_query_objects` are replaced by the `Remote` value passed to each call.
- Each call sees one `Remote` snapshot for all its status queries. The printer changing between two queries of one call is not modelled. The one exception is `Home`: it takes a second snapshot, `after`, for the move that follows G28.
- Time: `wait_moves` and `_wait_chamber_reach` read a finite list of samples, namely those taken before the deadline. The poll interval and the timeout values are not modelled.
- Printer3D.WaitChamberReach: a chamber read that fails during the wait, and so raises from inside it, is not modelled.
- Gates.WaitMoves: the AttributeError that `wait_moves` raises when the toolhead object is null is not modelled.
- The interactive `input()` prompt in `home`. The operator's answer is a parameter.
- Klipper.Lower, Klipper.Upper: only ASCII letters change case. Python's full Unicode case mapping (for example 'ı' upper-casing to 'I') is not modelled.
- Klipper.TrimStart, Klipper.TrimEnd: the stripped characters are the ASCII ones `str.isspace()` accepts (space, U+0009 to U+000D, U+001C to U+001F); non-ASCII white space such as U+0085, U+00A0 or U+3000, which `str.strip()` also removes, is not.
- IEEE floating point: coordinates are exact reals. A NaN coordinate slips through `_range_check` in the source (both comparisons are false). `int()` of an infinite value raises. Neither is modelled.
- Text formatting with fixed precision (`:.3f`, `:.1f`) and the joining of script lines. Scripts are lists of `Cmd` values.
- `float()` conversion of the limits: the bounds are reals already. A non-numeric bound is not modelled. In the chamber readings, a field that does not convert is `Garbled`.
- Exceptions other than `PrinterError` appear as error variants: KeyError/IndexError/TypeError in `refresh_limits` become `StatusMalformed`, and the TypeError of `home` with an empty cache becomes `NotInitialized`.
- `auto_init=True`: the constructor models `auto_init=False`. The default is the constructor followed by `Initialize`.
- The discovery hint of `get_chamber_temperature` (`/printer/objects/list`) only builds message text, and the error kind is the same either way.
- `get_bed_temperature`, `printer_info` and `_as_float` are not part of this model. They only read status.
- Relative moves, multi-point line moves, a max-delta-Z clamp and a minimum-safe-Z floor are not present in either source file, so they are not modelled.
- The `__main__` blocks and tests/test_static_movements.py, which drives real hardware.
