/**
  CompassHelper: keeps the latest accelerometer and magnetometer vectors in
  two 3-element buffers and, whenever the rotation matrix can be solved from
  them, delivers a whole-degree azimuth compensated for the display rotation
  to the registered callback.
  `SensorManager.getRotationMatrix` followed by `getOrientation` and
  `Math.toDegrees` is not modelled: it is the parameter `solve`, which gives
  the azimuth in degrees, or None when the matrix cannot be solved.
  Registering with the sensor manager is not modelled either.
*/
module Compass {
  import opened Wrappers
  import opened Numerics

  /** Android's `Sensor.TYPE_ACCELEROMETER` and `Sensor.TYPE_MAGNETIC_FIELD`. */
  const TypeAccelerometer: int := 1
  const TypeMagneticField: int := 2

  /** Android's `Surface.ROTATION_0` to `Surface.ROTATION_270`. */
  const Rotation0: int := 0
  const Rotation90: int := 1
  const Rotation180: int := 2
  const Rotation270: int := 3

  datatype SensorEvent = SensorEvent(sensorType: int, values: seq<real>)

  /** The solver: gravity and geomagnetic vectors to an azimuth in degrees, if solvable. */
  type Solver = (seq<real>, seq<real>) -> Option<real>

  /** getDisplayRotationCompensation: a quarter turn per display rotation step, 0 for any other value. */
  function DisplayRotationCompensation(rotation: int): (deg: real)
    ensures Rotation0 <= rotation <= Rotation270 ==> deg == 90.0 * rotation as real
    ensures !(Rotation0 <= rotation <= Rotation270) ==> deg == 0.0
    ensures deg == 0.0 || deg == 90.0 || deg == 180.0 || deg == 270.0
  {
    if rotation == Rotation90 then 90.0
    else if rotation == Rotation180 then 180.0
    else if rotation == Rotation270 then 270.0
    else 0.0
  }

  /**
    The azimuth before rounding: compensated, taken `.mod(360f)` and then, if
    still negative, lifted by 360. The lift never fires: the result is already
    in [0, 360) and denotes the same direction as the compensated azimuth.
  */
  function CompensatedAzimuth(azimuthDeg: real, rotation: int): (a: real)
    ensures 0.0 <= a < 360.0
    ensures a == Mod360(azimuthDeg + DisplayRotationCompensation(rotation))
    ensures WholeTurns(a - (azimuthDeg + DisplayRotationCompensation(rotation)))
  {
    var a := Mod360(azimuthDeg + DisplayRotationCompensation(rotation));
    WholeTurnsSum(azimuthDeg + DisplayRotationCompensation(rotation) - a, 0.0);
    if a < 0.0 then a + 360.0 else a
  }

  /**
    The value handed to the callback: the compensated azimuth rounded to the
    nearest whole degree. It lies in 0..360 — 360 included, since anything
    from 359.5 up rounds to it.
  */
  function EmittedAzimuth(azimuthDeg: real, rotation: int): (n: int)
    ensures 0 <= n <= 360
    ensures n as real - 0.5 <= CompensatedAzimuth(azimuthDeg, rotation) <= n as real + 0.5
    ensures var a := CompensatedAzimuth(azimuthDeg, rotation); a - a.Floor as real == 0.5 ==> n % 2 == 0
  {
    RoundHalfEven(CompensatedAzimuth(azimuthDeg, rotation))
  }

  /** A reading half a degree west of north on an upright display is delivered as 360, not 0. */
  lemma EmitsFullTurn()
    ensures CompensatedAzimuth(-0.5, Rotation0) == 359.5
    ensures EmittedAzimuth(-0.5, Rotation0) == 360
  {
    assert (-0.5 / 360.0).Floor == -1;
    assert (359.5).Floor == 359;
  }

  class CompassHelper {
    const gravity: array<real>
    const geomag: array<real>
    /** Whether a callback is registered (Kotlin's `callback != null`). */
    var listening: bool

    ghost predicate Valid()
      reads this
    {
      gravity.Length == 3 && geomag.Length == 3 && gravity != geomag
    }

    /** Both buffers start zeroed and no callback is registered. */
    constructor ()
      ensures Valid() && fresh(gravity) && fresh(geomag)
      ensures gravity[..] == [0.0, 0.0, 0.0] && geomag[..] == [0.0, 0.0, 0.0]
      ensures !listening
    {
      gravity := new real[3] [0.0, 0.0, 0.0];
      geomag := new real[3] [0.0, 0.0, 0.0];
      listening := false;
    }

    /** start: register the callback. */
    method Start()
      modifies this`listening
      ensures listening
    {
      listening := true;
    }

    /** stop: drop the callback; later events deliver nothing. */
    method Stop()
      modifies this`listening
      ensures !listening
    {
      listening := false;
    }

    /**
      onSensorChanged: an accelerometer event overwrites only `gravity`, a
      magnetic event only `geomag`, any other event neither. Then, if the
      solver succeeds on the (updated) buffers and a callback is registered,
      the rounded compensated azimuth is delivered; otherwise nothing is.
      A null event changes and delivers nothing.
    */
    method OnSensorChanged(event: Option<SensorEvent>, rotation: int, solve: Solver)
      returns (delivered: Option<int>)
      requires Valid()
      requires event.Some? && event.value.sensorType in {TypeAccelerometer, TypeMagneticField} ==>
                 |event.value.values| >= 3
      modifies gravity, geomag
      ensures Valid()
      ensures gravity[..] == if event.Some? && event.value.sensorType == TypeAccelerometer
                             then event.value.values[..3] else old(gravity[..])
      ensures geomag[..] == if event.Some? && event.value.sensorType == TypeMagneticField
                            then event.value.values[..3] else old(geomag[..])
      ensures event.None? || !listening ==> delivered == None
      ensures event.Some? && listening ==>
        delivered == match solve(gravity[..], geomag[..])
                     case None => None
                     case Some(azimuth) => Some(EmittedAzimuth(azimuth, rotation))
    {
      if event.None? {
        return None;
      }
      var e := event.value;
      if e.sensorType == TypeAccelerometer {
        gravity[0], gravity[1], gravity[2] := e.values[0], e.values[1], e.values[2];
      } else if e.sensorType == TypeMagneticField {
        geomag[0], geomag[1], geomag[2] := e.values[0], e.values[1], e.values[2];
      }
      delivered := None;
      var orientation := solve(gravity[..], geomag[..]);
      if orientation.Some? {
        var azimuth := orientation.value;
        azimuth := Mod360(azimuth + DisplayRotationCompensation(rotation));
        if azimuth < 0.0 {
          azimuth := azimuth + 360.0;
        }
        if listening {
          delivered := Some(RoundHalfEven(azimuth));
        }
      }
    }
  }
}
