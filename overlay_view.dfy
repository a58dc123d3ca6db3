/**
  OverlayView: the 2D heading indicator. It stores the latest distance and
  turn delta; onDraw rotates the chevrons by the delta and writes a distance
  line and a turn line. Paint, chevron geometry and canvas calls are not part
  of this model: a `Frame` records what onDraw decides.
*/
module Overlay {
  import opened Numerics
  import opened Text

  const RightArrow: char := '→'
  const LeftArrow: char := '←'

  /** What one onDraw puts on screen: the chevron rotation and the two text lines. */
  datatype Frame = Frame(indicatorRotation: real, distanceLine: string, turnLine: string)

  /**
    The distance text: whole metres below 1000 m, otherwise kilometres as
    `formatKm` (the "%.2f" formatter) renders them.
  */
  function DistanceText(distanceM: real, formatKm: real -> string): (s: string)
    ensures |s| >= 2 && (s[|s| - 2..] == " m" <==> distanceM < 1000.0)
    ensures 1000.0 <= distanceM ==> s == formatKm(distanceM / 1000.0) + " km"
    ensures 0.0 <= distanceM < 1000.0 ==> s[..|s| - 2] == NatToString(Trunc(distanceM))
    ensures 0.0 <= distanceM < 1000.0 ==>
      |s| <= 5 && AllDigits(s[..|s| - 2]) && DigitsValue(s[..|s| - 2]) == Trunc(distanceM)
  {
    if distanceM < 1000.0 then
      var n := ToInt(distanceM);
      var s := IntToString(n) + " m";
      assert s[..|s| - 2] == IntToString(n);
      if n >= 0 then
        NatToStringRoundTrip(n);
        assert n < 1000 ==> |NatToString(n)| <= 3 by {
          if n >= 10 { assert |NatToString(n)| == |NatToString(n / 10)| + 1; }
          if n >= 100 { assert |NatToString(n / 10)| == |NatToString(n / 100)| + 1; }
        }
        s
      else
        s
    else
      var s := formatKm(distanceM / 1000.0) + " km";
      assert s[|s| - 2] == 'k';
      s
  }

  /** The turn arrow: right for a non-negative delta, left for a negative one. */
  function ArrowChar(deltaDeg: real): (c: char)
    ensures c == RightArrow <==> 0.0 <= deltaDeg
    ensures c == LeftArrow <==> deltaDeg < 0.0
  {
    if deltaDeg >= 0.0 then RightArrow else LeftArrow
  }

  function Abs(x: real): (y: real)
    ensures 0.0 <= y && (y == x || y == -x)
  {
    if x < 0.0 then -x else x
  }

  /** The shown turn size: whole degrees of the delta's magnitude. */
  function TurnMagnitude(deltaDeg: real): (n: int)
    ensures 0 <= n
    ensures Abs(deltaDeg) <= IntMax as real ==> n as real <= Abs(deltaDeg) < n as real + 1.0
    ensures -180.0 <= deltaDeg <= 180.0 ==> n <= 180
  {
    ToInt(Abs(deltaDeg))
  }

  /** The turn text: the arrow, a space, the whole degrees and a degree sign. */
  function TurnText(deltaDeg: real): (s: string)
    ensures |s| >= 4 && s[0] == ArrowChar(deltaDeg) && s[1] == ' ' && s[|s| - 1] == '°'
    ensures s[2..|s| - 1] == NatToString(TurnMagnitude(deltaDeg))
    ensures AllDigits(s[2..|s| - 1]) && DigitsValue(s[2..|s| - 1]) == TurnMagnitude(deltaDeg)
  {
    var n := TurnMagnitude(deltaDeg);
    var s := [ArrowChar(deltaDeg)] + " " + IntToString(n) + "°";
    assert s[2..|s| - 1] == NatToString(n);
    NatToStringRoundTrip(n);
    s
  }

  class OverlayView {
    var distanceM: real
    var turnDeltaDeg: real

    /** Both values start at zero. */
    constructor ()
      ensures distanceM == 0.0 && turnDeltaDeg == 0.0
    {
      distanceM := 0.0;
      turnDeltaDeg := 0.0;
    }

    /** setNavigation: store the distance and the delta as given. */
    method SetNavigation(distanceMeters: real, deltaDeg: real)
      modifies this`distanceM, this`turnDeltaDeg
      ensures distanceM == distanceMeters && turnDeltaDeg == deltaDeg
    {
      distanceM := distanceMeters;
      turnDeltaDeg := deltaDeg;
    }

    /**
      onDraw: the chevrons turn by the stored delta itself (not its negation),
      and the two lines show the distance text and the turn text.
    */
    method OnDraw(formatKm: real -> string) returns (frame: Frame)
      ensures frame.indicatorRotation == turnDeltaDeg
      ensures frame.distanceLine == "Distance: " + DistanceText(distanceM, formatKm)
      ensures frame.turnLine == "Turn: " + TurnText(turnDeltaDeg)
    {
      var distTxt := DistanceText(distanceM, formatKm);
      var turnTxt := TurnText(turnDeltaDeg);
      frame := Frame(turnDeltaDeg, "Distance: " + distTxt, "Turn: " + turnTxt);
    }
  }
}
