/**
 * The continuous threshold actuator (IOTcode.c): every polling cycle takes one
 * distance reading and commands the servo to 90 degrees when an object is
 * within the threshold, and back to 0 degrees otherwise. The task keeps no
 * variables between cycles.
 *
 * The reading is an input: the busy-wait echo measurement that produces it is
 * not modelled, only its convention that an implausible reading is -1.
 */
module ThresholdActuator {
  import opened CInt

  /** `DISTANCE_THRESHOLD`, in centimetres. */
  const DistanceThreshold: real := 20.0

  /** The value the distance measurement returns for a reading above 400 cm or of 0 cm. */
  const InvalidReading: real := -1.0

  /** Angle commanded when an object is close. */
  const ActiveAngle: int := 90

  /** Angle commanded otherwise. */
  const RestAngle: int := 0

  /**
   * `move_servo`'s duty: `angle * (125 - 25) / 180 + 25` on a C `int`, the
   * division truncating toward zero. The 10-bit PWM channel runs at 50 Hz, so
   * 25..125 is the pulse width range for 0..180 degrees.
   */
  function Duty(angle: int): (duty: int)
    requires IsInt32(angle * 100)
    ensures 0 <= angle <= 180 ==> 25 <= duty <= 125
    ensures angle == 0 ==> duty == 25
    ensures angle == 90 ==> duty == 75
    ensures angle == 180 ==> duty == 125
  {
    Div(angle * (125 - 25), 180) + 25
  }

  /** The duty never decreases as the angle grows, over every angle the formula is defined for. */
  lemma DutyMonotone(a: int, b: int)
    requires IsInt32(a * 100) && IsInt32(b * 100)
    requires a <= b
    ensures Duty(a) <= Duty(b)
  {
  }

  /** Truncation makes neighbouring angles share a duty, so the mapping is not strictly increasing. */
  lemma DutyNotStrictlyMonotone()
    ensures Duty(0) == Duty(1) == 25
  {
  }

  /** The gate of `ultrasonic_task`: 90 degrees exactly when `0 < distance <= DISTANCE_THRESHOLD`. */
  function Gate(distance: real): (angle: int)
    ensures angle == ActiveAngle || angle == RestAngle
    ensures angle == ActiveAngle <==> 0.0 < distance <= DistanceThreshold
    ensures distance <= 0.0 ==> angle == RestAngle
  {
    if distance > 0.0 && distance <= DistanceThreshold then ActiveAngle else RestAngle
  }

  /** The one duty one polling cycle writes to the PWM channel for a reading. */
  function Command(distance: real): (duty: int)
    ensures duty == 75 <==> 0.0 < distance <= DistanceThreshold
    ensures duty == 25 <==> !(0.0 < distance <= DistanceThreshold)
  {
    Duty(Gate(distance))
  }

  /** The invalid-reading sentinel and a zero reading both send the servo to rest. */
  lemma InvalidReadingRests()
    ensures Command(InvalidReading) == Duty(RestAngle)
    ensures Command(0.0) == Duty(RestAngle)
    ensures Command(DistanceThreshold) == Duty(ActiveAngle)
  {
  }

  /**
   * The first `|readings|` iterations of `ultrasonic_task`: each iteration
   * takes the next reading and issues exactly one servo command, appended to
   * the returned log of duties written to the PWM channel.
   */
  method UltrasonicTask(readings: seq<real>) returns (duties: seq<int>)
    ensures |duties| == |readings|
    ensures forall i :: 0 <= i < |readings| ==> duties[i] == Command(readings[i])
    ensures forall i, j :: 0 <= i < |readings| && 0 <= j < |readings| && readings[i] == readings[j] ==>
      duties[i] == duties[j]
  {
    duties := [];
    var i := 0;
    while i < |readings|
      invariant 0 <= i <= |readings|
      invariant |duties| == i
      invariant forall k :: 0 <= k < i ==> duties[k] == Command(readings[k])
    {
      var distance := readings[i];
      if distance > 0.0 && distance <= DistanceThreshold {
        duties := duties + [Duty(ActiveAngle)];
      } else {
        duties := duties + [Duty(RestAngle)];
      }
      i := i + 1;
    }
  }
}
