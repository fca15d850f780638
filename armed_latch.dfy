/**
 * The touch-armed, one-shot actuator (main.c). Two polling tasks share the
 * flag `systemOn`: the touch task sets it when the touch pin reads 1; the
 * servo task, while the flag is set, takes a distance reading and, for an
 * object closer than 30 cm, swings the servo to 90 degrees and back to 0 and
 * clears the flag.
 *
 * Each loop body is one atomic step. The PWM channel is a log of the duties
 * written to it; the distance reading and the touch level are inputs.
 */
module ArmedLatch {
  import opened CInt

  /** The value the distance measurement returns for a reading above 400 cm or of 0 cm. */
  const InvalidReading: real := -1.0

  /** Largest duty a 10-bit PWM channel accepts. */
  const MaxDuty10Bit: int := 1023

  /**
   * `move_servo`'s duty: `angle * (1250 - 250) / 180 + 250` on a C `int`
   * (division truncating toward zero), stored in a `uint32_t`.
   */
  function Duty(angle: int): (duty: int)
    requires IsInt32(angle * 1000)
    ensures 0 <= duty < 0x1_0000_0000
    ensures 0 <= angle <= 180 ==> 250 <= duty <= 1250
    ensures angle == 0 ==> duty == 250
    ensures angle == 90 ==> duty == 750
    ensures angle == 180 ==> duty == 1250
  {
    ToUint32(Div(angle * (1250 - 250), 180) + 250)
  }

  /** Over 0..180 degrees every extra degree gives a larger duty. */
  lemma DutyStrictlyMonotone(a: int, b: int)
    requires 0 <= a < b <= 180
    ensures Duty(a) < Duty(b)
  {
  }

  /** The object-in-range test of `ultrasonic_servo_task`. */
  predicate InRange(distance: real) {
    distance > 0.0 && distance < 30.0
  }

  /** The duties one actuation writes: 90 degrees, then (after the hold) 0 degrees. */
  function Actuation(): (duties: seq<int>)
    ensures duties == [750, 250]
  {
    [Duty(90), Duty(0)]
  }

  /** The shared state: the latch `systemOn` and every duty written to the PWM channel so far. */
  datatype Latch = Latch(systemOn: bool, duties: seq<int>)

  /** The state at start-up: disarmed, nothing commanded. */
  function Initial(): (s: Latch)
    ensures !s.systemOn && s.duties == []
  {
    Latch(false, [])
  }

  /** One iteration of `touch_task` with the touch pin reading `level`. */
  function TouchStep(s: Latch, level: int): (r: Latch)
    ensures r.duties == s.duties
    ensures level == 1 ==> r.systemOn
    ensures level != 1 ==> r == s
    ensures s.systemOn ==> r.systemOn
  {
    if level == 1 then s.(systemOn := true) else s
  }

  /** One iteration of `ultrasonic_servo_task`, `distance` being the reading it would take. */
  function ServoStep(s: Latch, distance: real): (r: Latch)
    ensures !s.systemOn ==> r == s
    ensures s.systemOn && InRange(distance) ==> !r.systemOn && r.duties == s.duties + [750, 250]
    ensures s.systemOn && !InRange(distance) ==> r == s
    ensures distance <= 0.0 ==> r == s
  {
    if s.systemOn && InRange(distance) then Latch(false, s.duties + Actuation()) else s
  }

  /** An invalid reading never actuates: an armed latch stays armed and nothing is commanded. */
  lemma InvalidReadingKeepsArmed(s: Latch)
    ensures ServoStep(s, InvalidReading) == s
    ensures ServoStep(s, 0.0) == s
  {
  }

  /** An input one of the two tasks acts on. */
  datatype Event = Touch(level: int) | Sample(distance: real)

  function Step(s: Latch, e: Event): Latch {
    match e
    case Touch(level) => TouchStep(s, level)
    case Sample(distance) => ServoStep(s, distance)
  }

  /** The state after the loop bodies run, one at a time, on `events` in order. */
  function Run(s: Latch, events: seq<Event>): Latch
    decreases |events|
  {
    if events == [] then s else Run(Step(s, events[0]), events[1..])
  }

  /** Touches that find the latch clear and set it: the arming events of a run. */
  function Armings(s: Latch, events: seq<Event>): nat
    decreases |events|
  {
    if events == [] then 0
    else (if events[0] == Touch(1) && !s.systemOn then 1 else 0) + Armings(Step(s, events[0]), events[1..])
  }

  /** True when `log` is a whole number of actuations. */
  predicate ActuationLog(log: seq<int>) {
    |log| % 2 == 0 &&
    forall k :: 0 <= k < |log| ==> log[k] == (if k % 2 == 0 then 750 else 250)
  }

  /**
   * Every arming is matched by exactly one actuation or by the latch still
   * being set: the duties written grow by two per actuation, and
   * actuations + (armed at the end) == armings + (armed at the start).
   */
  lemma {:induction false} RunConservesArmings(s: Latch, events: seq<Event>)
    ensures |Run(s, events).duties| >= |s.duties|
    ensures (|Run(s, events).duties| - |s.duties|) % 2 == 0
    ensures (|Run(s, events).duties| - |s.duties|) / 2 + (if Run(s, events).systemOn then 1 else 0)
         == Armings(s, events) + (if s.systemOn then 1 else 0)
    decreases |events|
  {
    if events != [] {
      RunConservesArmings(Step(s, events[0]), events[1..]);
    }
  }

  /** At most one actuation per arming: the duties a run writes never exceed two per arming. */
  lemma AtMostOneActuationPerArming(s: Latch, events: seq<Event>)
    ensures |Run(s, events).duties| - |s.duties| <= 2 * (Armings(s, events) + (if s.systemOn then 1 else 0))
  {
    RunConservesArmings(s, events);
  }

  /** Once the latch is clear, nothing is commanded until the touch pin reads 1. */
  lemma {:induction false} NoActuationWithoutTouch(s: Latch, events: seq<Event>)
    requires !s.systemOn
    requires forall i :: 0 <= i < |events| ==> events[i] != Touch(1)
    ensures Run(s, events) == s
    decreases |events|
  {
    if events != [] {
      assert Step(s, events[0]) == s;
      NoActuationWithoutTouch(s, events[1..]);
    }
  }

  /** Every run from start-up writes whole actuations only, each duty within the 10-bit range. */
  lemma {:induction false} RunWritesActuations(s: Latch, events: seq<Event>)
    requires ActuationLog(s.duties)
    ensures ActuationLog(Run(s, events).duties)
    ensures forall k :: 0 <= k < |Run(s, events).duties| ==> Run(s, events).duties[k] <= MaxDuty10Bit
    decreases |events|
  {
    if events != [] {
      var t := Step(s, events[0]);
      if t.duties != s.duties {
        var n := |s.duties|;
        assert t.duties == s.duties + [750, 250];
        forall k | 0 <= k < |t.duties|
          ensures t.duties[k] == (if k % 2 == 0 then 750 else 250)
        {
          if k >= n {
            assert k == n || k == n + 1;
          }
        }
      }
      RunWritesActuations(t, events[1..]);
    }
  }

  /** The two tasks' shared state: the global `systemOn` and the PWM channel. */
  class ServoSystem {
    var systemOn: bool
    /** Duties passed to `ledc_set_duty`, oldest first. */
    var duties: seq<int>

    function State(): Latch
      reads this
    {
      Latch(systemOn, duties)
    }

    constructor ()
      ensures State() == Initial()
    {
      systemOn := false;
      duties := [];
    }

    /** `move_servo`: write the duty for `angle` to the PWM channel. */
    method MoveServo(angle: int)
      requires IsInt32(angle * 1000)
      modifies this`duties
      ensures duties == old(duties) + [Duty(angle)]
    {
      duties := duties + [Duty(angle)];
    }

    /** The body of `touch_task`'s loop. */
    method TouchTaskStep(level: int)
      modifies this`systemOn
      ensures State() == TouchStep(old(State()), level)
    {
      if level == 1 {
        systemOn := true;
      }
    }

    /** The body of `ultrasonic_servo_task`'s loop; `distance` is what the measurement returns. */
    method ServoTaskStep(distance: real)
      modifies this
      ensures State() == ServoStep(old(State()), distance)
    {
      if systemOn {
        if distance > 0.0 && distance < 30.0 {
          MoveServo(90);
          MoveServo(0);
          systemOn := false;
        }
      }
    }

    /** The tasks' loop bodies run one at a time on `events`. */
    method RunTasks(events: seq<Event>)
      modifies this
      ensures State() == Run(old(State()), events)
    {
      var i := 0;
      while i < |events|
        invariant 0 <= i <= |events|
        invariant Run(old(State()), events) == Run(State(), events[i..])
      {
        match events[i] {
          case Touch(level) => TouchTaskStep(level);
          case Sample(distance) => ServoTaskStep(distance);
        }
        i := i + 1;
      }
    }
  }
}
