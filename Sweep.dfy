/**
 The Y-only pass that both clients send as one script: lift, approach, lower
 to contact, travel strictly along Y, lift again. The script is composed here,
 and what it does to the toolhead position is traced so that properties of
 the path can be stated for every starting position.
 */
module Sweep {
  import opened Klipper
  import opened Safety

  /** The six lines of the `safe_y_pass` script. `zUp` is `z_safe` in the
      attachment client and `z_air` in the K2 Pro client. Absolute mode
      comes first; the three vertical lines run at the Z feed, the approach
      at its own feed and the Y travel at the travel feed. */
  function SweepScript(x: real, yStart: real, yEnd: real, zUp: real, zContact: real,
                       fz: int, fApproach: int, fTravel: int): (s: Script)
    ensures |s| == 6 && s[0] == G90
    ensures s[1].G1? && s[1].feed == fz && s[3].G1? && s[3].feed == fz && s[5].G1? && s[5].feed == fz
    ensures s[2].G1? && s[2].feed == fApproach && s[4].G1? && s[4].feed == fTravel
  {
    [ G90,
      G1(None, None, Some(zUp), fz),
      G1(Some(x), Some(yStart), None, fApproach),
      G1(None, None, Some(zContact), fz),
      G1(None, Some(yEnd), None, fTravel),
      G1(None, None, Some(zUp), fz) ]
  }

  function OrElse(o: Option<real>, d: real): real {
    if o.Some? then o.value else d
  }

  /** Where the toolhead ends up after one command in absolute mode: a G1
      sets the coordinates it names and keeps the others; G90 does not move. */
  function Step(pos: Point, c: Cmd): Point {
    match c
    case G1(x, y, z, _) => Point(OrElse(x, pos.x), OrElse(y, pos.y), OrElse(z, pos.z))
    case _ => pos
  }

  /** The position after each command of `script`, starting from `pos`. */
  function Trace(pos: Point, script: Script): (tr: seq<Point>)
    ensures |tr| == |script|
    decreases script
  {
    if script == [] then [] else
      var q := Step(pos, script[0]);
      [q] + Trace(q, script[1..])
  }

  /** From any starting position, the pass first lifts in place and then stops
      only at the four corners `{yStart, yEnd} x {zUp, zContact}` at the
      given `x`, in the order start-up, start-contact, end-contact, end-up. */
  lemma {:induction false} SweepStops(pos: Point, x: real, yStart: real, yEnd: real, zUp: real, zContact: real,
                                      fz: int, fApproach: int, fTravel: int)
    ensures var tr := Trace(pos, SweepScript(x, yStart, yEnd, zUp, zContact, fz, fApproach, fTravel));
      tr == [ pos,
              Point(pos.x, pos.y, zUp),
              Point(x, yStart, zUp),
              Point(x, yStart, zContact),
              Point(x, yEnd, zContact),
              Point(x, yEnd, zUp) ]
  {
    var s := SweepScript(x, yStart, yEnd, zUp, zContact, fz, fApproach, fTravel);
    var p1 := Point(pos.x, pos.y, zUp);
    var p2 := Point(x, yStart, zUp);
    var p3 := Point(x, yStart, zContact);
    var p4 := Point(x, yEnd, zContact);
    var p5 := Point(x, yEnd, zUp);
    calc {
      Trace(pos, s);
      [pos] + Trace(pos, s[1..]);
      [pos] + ([p1] + Trace(p1, s[2..]));
      [pos] + ([p1] + ([p2] + Trace(p2, s[3..])));
      [pos] + ([p1] + ([p2] + ([p3] + Trace(p3, s[4..]))));
      [pos] + ([p1] + ([p2] + ([p3] + ([p4] + Trace(p4, s[5..])))));
      [pos] + ([p1] + ([p2] + ([p3] + ([p4] + ([p5] + Trace(p5, s[6..]))))));
      [pos, p1, p2, p3, p4, p5];
    }
  }

  /** The travel step moves along Y only: X and Z are the same before and after it. */
  lemma TravelAlongYOnly(pos: Point, x: real, yStart: real, yEnd: real, zUp: real, zContact: real,
                         fz: int, fApproach: int, fTravel: int)
    ensures var s := SweepScript(x, yStart, yEnd, zUp, zContact, fz, fApproach, fTravel);
      var tr := Trace(pos, s);
      s[4].G1? && s[4].x.None? && s[4].z.None? && s[4].y == Some(yEnd) &&
      tr[4].x == tr[3].x && tr[4].z == tr[3].z && tr[4].y == yEnd
  {
    SweepStops(pos, x, yStart, yEnd, zUp, zContact, fz, fApproach, fTravel);
  }
}
