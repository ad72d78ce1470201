/** The BeagleBone Blue board layer: configuration loading, servo and motor
    writes and the blocking sleep that every robot profile builds on. */
module Board {
  import opened Config
  import opened Events

  const ServoCount: int := 8
  const MotorCount: int := 4
  /** The settle delay before and after every servo write. */
  const Settle: real := 0.2
  /** Normalised servo position per degree. */
  const PositionPerDegree: real := 0.015

  /** `i` selects a servo of `bbb_servos[i - 1]`: Python also accepts the
      negative list indices, which count from the end. */
  predicate IsServoIndex(i: int)
  {
    -ServoCount <= i - 1 < ServoCount
  }

  predicate IsMotorIndex(i: int)
  {
    -MotorCount <= i - 1 < MotorCount
  }

  /** The servo channel `bbb_servos[i - 1]` drives: the one congruent to `i`. */
  function ServoSlot(i: int): (c: int)
    requires IsServoIndex(i)
    ensures 1 <= c <= ServoCount && (c - i) % ServoCount == 0
  {
    if i >= 1 then i else i + ServoCount
  }

  /** The motor channel `motors[i - 1]` drives. */
  function MotorSlot(i: int): (c: int)
    requires IsMotorIndex(i)
    ensures 1 <= c <= MotorCount && (c - i) % MotorCount == 0
  {
    if i >= 1 then i else i + MotorCount
  }

  /** The two clamping tests of `set_servo` (and `look_angle`), in order. */
  function ClampAngle(angle: real): (a: real)
    ensures -90.0 <= a <= 90.0
    ensures -90.0 <= angle <= 90.0 ==> a == angle
    ensures angle > 90.0 ==> a == 90.0
    ensures angle < -90.0 ==> a == -90.0
  {
    var a := if angle > 0.0 && angle > 90.0 then 90.0 else angle;
    if a < 0.0 && a < -90.0 then -90.0 else a
  }

  /** The position `set_servo` writes for an angle in degrees. */
  function ServoPosition(angle: real): (p: real)
    ensures -1.35 <= p <= 1.35
    ensures -90.0 <= angle <= 90.0 ==> p == angle * PositionPerDegree
    ensures angle > 90.0 ==> p == 1.35
    ensures angle < -90.0 ==> p == -1.35
  {
    ClampAngle(angle) * PositionPerDegree
  }

  /** Mirrored angles give mirrored positions: the shoulders of the balancing
      robot rely on this. */
  lemma ServoPositionOdd(angle: real)
    ensures ServoPosition(-angle) == -ServoPosition(angle)
  {
  }

  lemma ServoPositionMonotone(a: real, b: real)
    requires a <= b
    ensures ServoPosition(a) <= ServoPosition(b)
  {
  }

  /** The events of one `set_servo` that drives channel `ch` to `angle`. */
  function ServoWrite(ch: int, angle: real): seq<Event>
  {
    [Sleep(Settle), ServoSet(ch, ServoPosition(angle)), Sleep(Settle)]
  }

  /** A servo write blocks for 0.4 seconds, leaves its own channel at the
      clamped, scaled angle, and touches nothing else. */
  lemma ServoWriteFacts(ch: int, angle: real, act: Actuator)
    ensures Duration(ServoWrite(ch, angle)) == 0.4
    ensures Files(ServoWrite(ch, angle)) == []
    ensures LastSet(ServoWrite(ch, angle), act)
         == if act == Servo(ch) then Some(ServoPosition(angle)) else None
  {
    var w := ServoWrite(ch, angle);
    assert w == [w[0]] + [w[1]] + [w[2]];
    DurationAppend([w[0]] + [w[1]], [w[2]]);
    DurationAppend([w[0]], [w[1]]);
    SingleFacts(w[0]);
    SingleFacts(w[1]);
    SingleFacts(w[2]);
    FilesAppend([w[0]] + [w[1]], [w[2]]);
    FilesAppend([w[0]], [w[1]]);
    if act == Servo(ch) {
      LastWriteAt(w, act, 1);
    } else {
      NoWrites(w, act);
    }
  }

  /** `BeagleBoneBlue`: owns the configuration document and the board's outputs. */
  class BeagleBoneBlue {
    /** Every hardware effect so far, oldest first. */
    var trace: seq<Event>
    var config: Doc
    var name: Json
    var running: bool

    constructor (userConfig: Doc, defaults: Doc)
      ensures config == Merged(userConfig, defaults)
      ensures name == if "name" in config then config["name"] else JStr("BeagleBoneBlue")
      ensures trace == [] && running
    {
      config := userConfig;
      name := JStr("BeagleBoneBlue");
      trace := [];
      running := false;
      new;
      LoadConfig(defaults);
      running := true;
    }

    /** `_load_config`: fills every missing top-level key from `defaults`, then
        takes the robot's name from the document if it has one. */
    method LoadConfig(defaults: Doc)
      modifies this`config, this`name
      ensures config == Merged(old(config), defaults)
      ensures name == if "name" in config then config["name"] else old(name)
    {
      var pending := defaults.Keys;
      while pending != {}
        invariant pending <= defaults.Keys
        invariant config == Merged(old(config), defaults - pending)
        invariant name == old(name)
        decreases pending
      {
        var key :| key in pending;
        if key !in config {
          config := config[key := defaults[key]];
        }
        pending := pending - {key};
      }
      assert defaults - {} == defaults;
      if "name" in config {
        name := config["name"];
      }
    }

    /** `shutdown`: the board stops; the rcpy and GPIO teardown is not modelled. */
    method Shutdown()
      modifies this`running
      ensures !running
    {
      running := false;
    }

    /** `sleep`: `time.sleep` raises on a negative length, so nothing is recorded
        and `ok` is false. */
    method Sleep(seconds: real) returns (ok: bool)
      modifies this`trace
      ensures ok == (seconds >= 0.0)
      ensures trace == old(trace) + (if ok then [Events.Sleep(seconds)] else [])
    {
      ok := seconds >= 0.0;
      if ok {
        trace := trace + [Events.Sleep(seconds)];
      }
    }

    /** `set_servo(i, angle)`: settle, write the clamped and scaled angle, settle. */
    method SetServo(i: int, angle: real)
      requires IsServoIndex(i)
      modifies this`trace
      ensures trace == old(trace) + ServoWrite(ServoSlot(i), angle)
    {
      trace := trace + [Events.Sleep(Settle)];
      var a := angle;
      if a > 0.0 && a > 90.0 {
        a := 90.0;
      }
      if a < 0.0 && a < -90.0 {
        a := -90.0;
      }
      var position := a * PositionPerDegree;
      trace := trace + [ServoSet(ServoSlot(i), position)];
      trace := trace + [Events.Sleep(Settle)];
    }

    /** `set_motor(i, duty)`: the duty is written as given, without clamping or delay. */
    method SetMotor(i: int, duty: real)
      requires IsMotorIndex(i)
      modifies this`trace
      ensures trace == old(trace) + [MotorSet(MotorSlot(i), duty)]
    {
      trace := trace + [MotorSet(MotorSlot(i), duty)];
    }
  }
}
