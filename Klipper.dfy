/**
 The vocabulary shared by both Moonraker/Klipper clients: failure-carrying
 wrappers, the single error kind (with its variants), the slice of the remote
 printer's status that the clients read, the G-code commands they send, and
 the small text and number conversions they use.
 */
module Klipper {

  datatype Option<+T> = None | Some(value: T)

  datatype Result<+T, +E> = Success(value: T) | Failure(error: E)

  /** The outcome of a call that returns nothing on success and raises on failure. */
  datatype Outcome<+E> = Pass | Fail(error: E)

  datatype Axis = X | Y | Z

  /** Which face of the attachment bounding box: `attach_min_*` or `attach_max_*`. */
  datatype Side = Low | High

  /** The name a failed range check reports. */
  datatype Label =
    | Extreme(axis: Axis, side: Side)  // "X+attach_min_x", ..., "Z+attach_max_z"
    | Coord(axis: Axis)                 // "X", "Y", "Z"

  /** Every failure the clients raise. In the source they are all `PrinterError`
      (or a Python exception that escapes in the same place); the variants keep
      apart what the messages tell apart. */
  datatype Error =
    | NotReady(state: string)
    | NotHomed(letter: char)                             // lower-case letter as iterated
    | OutOfRange(name: Label, v: real, lo: real, hi: real)
    | NotInitialized
    | StatusMalformed                                    // KeyError / IndexError / TypeError reading limits
    | AttachBoxInverted(axis: Axis)
    | NonPositiveSpeed
    | NonPositiveMotionLimits
    | BedTemperatureOutOfRange(temp: real)
    | ChamberTemperatureOutOfRange(temp: real)
    | ChamberNotFound
    | ChamberControlNotFound
    | HomingCancelled
    | MovesTimeout
    | ChamberTimeout(target: real)

  /** A field of a Klipper object as the client sees it after `dict.get`. */
  datatype Field = Absent | Num(v: real) | Garbled

  /** What a status query returns for one named object. */
  datatype ObjectStatus = NotDict | Dict(temperature: Field, target: Field)

  /** The `toolhead` object. `homedAxes == None` stands for a missing or null
      `homed_axes`; a missing `axis_minimum`/`axis_maximum` is the empty list. */
  datatype Toolhead = Toolhead(homedAxes: Option<string>, axisMinimum: seq<real>, axisMaximum: seq<real>)

  /** One observation of the remote printer: the `state` from `/printer/info`,
      the `toolhead` object (None when absent or null), the queried objects by
      name (a name that is not a key was not returned), and the samples the
      polling loops will read before their deadline passes: the toolhead's
      `moving` flag and the chamber temperature. */
  datatype Remote = Remote(
    state: string,
    toolhead: Option<Toolhead>,
    objects: map<string, ObjectStatus>,
    moving: seq<bool>,
    chamber: seq<real>)

  /** One line of a G-code script; `None` coordinates are omitted words. */
  datatype Cmd =
    | G90
    | G1(x: Option<real>, y: Option<real>, z: Option<real>, feed: int)
    | G28(axes: string)
    | M400
    | M140(temp: real)
    | M190(temp: real)
    | SetHeaterTemperature(target: real)       // SET_HEATER_TEMPERATURE HEATER=chamber
    | SetTemperatureFanTarget(target: real)    // SET_TEMPERATURE_FAN_TARGET TEMPERATURE_FAN=chamber
    | SetVelocityLimit(velocity: real, accel: real)

  /** The text of one `send_gcode` call, one command per line. */
  type Script = seq<Cmd>

  /** Python's `int(r)`: truncation toward zero. */
  function Trunc(r: real): (n: int)
    ensures 0.0 <= r ==> 0 <= n && n as real <= r < n as real + 1.0
    ensures r < 0.0 ==> n <= 0 && n as real - 1.0 < r <= n as real
  {
    if 0.0 <= r then r.Floor else -((-r).Floor)
  }

  /** The feed rate word of a move at `speed` mm/s: `int(speed * 60.0)` mm/min. */
  function Feed(speed: real): (f: int)
    ensures 0.0 < speed ==> 0 <= f && f as real <= speed * 60.0 < f as real + 1.0
  {
    Trunc(speed * 60.0)
  }

  /** ASCII lower-casing of one character: only 'A'..'Z' change. */
  function LowerChar(c: char): (r: char)
    ensures !('A' <= r <= 'Z')
    ensures !('A' <= c <= 'Z') ==> r == c
  {
    if 'A' <= c <= 'Z' then (c as int - 'A' as int + 'a' as int) as char else c
  }

  /** ASCII upper-casing of one character: only 'a'..'z' change. */
  function UpperChar(c: char): (r: char)
    ensures !('a' <= r <= 'z')
    ensures !('a' <= c <= 'z') ==> r == c
  {
    if 'a' <= c <= 'z' then (c as int - 'a' as int + 'A' as int) as char else c
  }

  /** Changing the case of a letter keeps what it maps to in the other
      direction. */
  lemma CharCaseFolds(c: char)
    ensures UpperChar(LowerChar(c)) == UpperChar(c) && LowerChar(UpperChar(c)) == LowerChar(c)
  {
  }

  /** `s.lower()`, character by character. */
  function Lower(s: string): (r: string)
    ensures |r| == |s| && forall i :: 0 <= i < |s| ==> r[i] == LowerChar(s[i])
  {
    seq(|s|, i requires 0 <= i < |s| => LowerChar(s[i]))
  }

  /** `s.upper()`, character by character. */
  function Upper(s: string): (r: string)
    ensures |r| == |s| && forall i :: 0 <= i < |s| ==> r[i] == UpperChar(s[i])
  {
    seq(|s|, i requires 0 <= i < |s| => UpperChar(s[i]))
  }

  /** Lower-casing leaves no upper-case letter and keeps what every
      character upper-cases to. */
  lemma LowerForgetsCase(s: string)
    ensures forall i :: 0 <= i < |s| ==>
      !('A' <= Lower(s)[i] <= 'Z') && UpperChar(Lower(s)[i]) == UpperChar(s[i])
  {
    forall i | 0 <= i < |s| {
      CharCaseFolds(s[i]);
    }
  }

  /** Upper-casing leaves no lower-case letter and keeps what every
      character lower-cases to. */
  lemma UpperForgetsCase(s: string)
    ensures forall i :: 0 <= i < |s| ==>
      !('a' <= Upper(s)[i] <= 'z') && LowerChar(Upper(s)[i]) == LowerChar(s[i])
  {
    forall i | 0 <= i < |s| {
      CharCaseFolds(s[i]);
    }
  }

  /** Case is forgotten by either mapping: going through the other case
      first changes nothing. */
  lemma CaseFolds(s: string)
    ensures Lower(Upper(s)) == Lower(s) && Upper(Lower(s)) == Upper(s)
  {
    LowerForgetsCase(s);
    UpperForgetsCase(s);
    forall i | 0 <= i < |s| {
      CharCaseFolds(s[i]);
    }
  }

  /** The ASCII characters Python's `str.isspace()` accepts, and so
      `str.strip()` removes: space, tab to carriage return, and the four
      separators U+001C to U+001F. */
  predicate IsSpace(c: char) {
    c == ' ' || '\t' <= c <= '\r' || '\U{1C}' <= c <= '\U{1F}'
  }

  /** `s.lstrip()`: drops the leading white space and nothing else. */
  function TrimStart(s: string): (r: string)
    ensures |r| <= |s| && r == s[|s| - |r|..]
    ensures forall i :: 0 <= i < |s| - |r| ==> IsSpace(s[i])
    ensures r == [] || !IsSpace(r[0])
  {
    if s != [] && IsSpace(s[0]) then TrimStart(s[1..]) else s
  }

  /** `s.rstrip()`: drops the trailing white space and nothing else. */
  function TrimEnd(s: string): (r: string)
    ensures |r| <= |s| && r == s[..|r|]
    ensures forall i :: |r| <= i < |s| ==> IsSpace(s[i])
    ensures r == [] || !IsSpace(r[|r| - 1])
  {
    if s != [] && IsSpace(s[|s| - 1]) then TrimEnd(s[..|s| - 1]) else s
  }

  /** `s.strip()`. */
  function Strip(s: string): string {
    TrimEnd(TrimStart(s))
  }
}
