/** `BluPants`: the four-wheel drivetrain, the claw servo and the ultrasonic
    range finder, built on the board layer. */
module Pants {
  import opened Config
  import opened Events
  import opened Board
  import opened Ranging

  const DutyRatioPath: seq<string> := ["blupants", "motor", "duty_ratio"]
  const TurnRightPath: seq<string> := ["blupants", "motor", "turn_right_period"]
  const TurnLeftPath: seq<string> := ["blupants", "motor", "turn_left_period"]
  const FrontLeftPath: seq<string> := ["blupants", "motor", "position", "front_left"]
  const FrontRightPath: seq<string> := ["blupants", "motor", "position", "front_right"]
  const BackLeftPath: seq<string> := ["blupants", "motor", "position", "back_left"]
  const BackRightPath: seq<string> := ["blupants", "motor", "position", "back_right"]
  const ClawServoPath: seq<string> := ["blupants", "claw", "servo"]
  const ClawOpenPath: seq<string> := ["blupants", "claw", "angle_open"]
  const ClawClosePath: seq<string> := ["blupants", "claw", "angle_close"]

  /** Every parameter `_load_config` reads holds a value the model's fields can
      take, or is absent. */
  predicate PantsConfigOk(doc: Doc)
  {
    RealListAt(doc, DutyRatioPath) && RealAt(doc, TurnRightPath) && RealAt(doc, TurnLeftPath) &&
    IndexAt(doc, FrontLeftPath) && IndexAt(doc, FrontRightPath) &&
    IndexAt(doc, BackLeftPath) && IndexAt(doc, BackRightPath) &&
    IndexAt(doc, ClawServoPath) && RealAt(doc, ClawOpenPath) && RealAt(doc, ClawClosePath)
  }

  /** `move` drives the motors in channel order 1 to 4. */
  const Wheels: seq<int> := [1, 2, 3, 4]
  const Stopped: seq<real> := [0.0, 0.0, 0.0, 0.0]
  /** The fixed duty cycle of a turn. */
  const TurnDuty: real := 0.3

  function WheelDuties(duty: real, ratio: seq<real>): seq<real>
    requires |ratio| >= 4
  {
    seq(4, k requires 0 <= k < 4 => duty * ratio[k])
  }

  /** `move(period, duty)`: drive, sleep, stop; a negative period makes the
      sleep raise, so the stop writes never happen. */
  function MoveEvents(period: real, duty: real, ratio: seq<real>): seq<Event>
    requires |ratio| >= 4
  {
    MotorWrites(Wheels, WheelDuties(duty, ratio))
    + (if period >= 0.0 then [Sleep(period)] + MotorWrites(Wheels, Stopped) else [])
  }

  /** A completed move blocks for `period` and leaves all four wheels stopped. */
  lemma MoveStopsWheels(history: seq<Event>, period: real, duty: real, ratio: seq<real>)
    requires |ratio| >= 4 && period >= 0.0
    ensures Duration(MoveEvents(period, duty, ratio)) == period
    ensures forall c :: 1 <= c <= 4 ==> LastSet(history + MoveEvents(period, duty, ratio), Motor(c)) == Some(0.0)
  {
    var drive := MotorWrites(Wheels, WheelDuties(duty, ratio));
    var stop := MotorWrites(Wheels, Stopped);
    var pre := drive + [Sleep(period)];
    assert MoveEvents(period, duty, ratio) == pre + stop;
    DurationAppend(pre, stop);
    DurationAppend(drive, [Sleep(period)]);
    assert Duration([Sleep(period)]) == period by {
      SingleFacts(Sleep(period));
    }
    MotorWritesInert(Wheels, WheelDuties(duty, ratio), 0);
    MotorWritesInert(Wheels, Stopped, 0);
    forall c | 1 <= c <= 4
      ensures LastSet(history + MoveEvents(period, duty, ratio), Motor(c)) == Some(0.0)
    {
      LastWriteAt(stop, Motor(c), c - 1);
      LastSetAppend(history + pre, stop, Motor(c));
      assert history + MoveEvents(period, duty, ratio) == (history + pre) + stop;
    }
  }

  /** A move with a negative period never stops: every wheel is left at its
      driving duty, and no time passes. */
  lemma NegativePeriodLeavesWheelsRunning(history: seq<Event>, period: real, duty: real, ratio: seq<real>)
    requires |ratio| >= 4 && period < 0.0
    ensures Duration(MoveEvents(period, duty, ratio)) == 0.0
    ensures forall c :: 1 <= c <= 4 ==>
              LastSet(history + MoveEvents(period, duty, ratio), Motor(c)) == Some(duty * ratio[c - 1])
  {
    var drive := MotorWrites(Wheels, WheelDuties(duty, ratio));
    assert MoveEvents(period, duty, ratio) == drive;
    MotorWritesInert(Wheels, WheelDuties(duty, ratio), 0);
    forall c | 1 <= c <= 4
      ensures LastSet(history + MoveEvents(period, duty, ratio), Motor(c)) == Some(duty * ratio[c - 1])
    {
      assert Wheels[c - 1] == c && WheelDuties(duty, ratio)[c - 1] == duty * ratio[c - 1];
      forall j | c - 1 < j < |drive| ensures Written(drive[j], Motor(c)) == None {
        assert Wheels[j] == j + 1;
      }
      LastWriteAt(drive, Motor(c), c - 1);
      LastSetAppend(history, drive, Motor(c));
    }
  }

  /** How long a turn by `angle` sleeps. */
  function TurnTime(angle: real, period: real): real
  {
    angle * period
  }

  /** The zero writes that end a turn, if its sleep succeeds. */
  function TurnStop(seconds: real, fl: int, bl: int, fr: int, br: int): seq<Event>
  {
    if seconds >= 0.0
    then [Sleep(seconds), MotorSet(fl, 0.0), MotorSet(bl, 0.0), MotorSet(fr, 0.0), MotorSet(br, 0.0)]
    else []
  }

  /** `turn_right`: left wheels forward, right wheels backward. */
  function TurnRightEvents(seconds: real, fl: int, bl: int, fr: int, br: int): seq<Event>
  {
    [MotorSet(fl, TurnDuty), MotorSet(bl, TurnDuty), MotorSet(fr, -TurnDuty), MotorSet(br, -TurnDuty)]
    + TurnStop(seconds, fl, bl, fr, br)
  }

  /** `turn_left`: left wheels backward, right wheels forward. */
  function TurnLeftEvents(seconds: real, fl: int, bl: int, fr: int, br: int): seq<Event>
  {
    [MotorSet(fl, -TurnDuty), MotorSet(bl, -TurnDuty), MotorSet(fr, TurnDuty), MotorSet(br, TurnDuty)]
    + TurnStop(seconds, fl, bl, fr, br)
  }

  /** Turning left is turning right with every duty negated: same channels in
      the same order, same sleep, same stop. */
  lemma TurnsMirror(seconds: real, fl: int, bl: int, fr: int, br: int)
    ensures Mirrored(TurnLeftEvents(seconds, fl, bl, fr, br), TurnRightEvents(seconds, fl, bl, fr, br))
    ensures Mirrored(TurnRightEvents(seconds, fl, bl, fr, br), TurnLeftEvents(seconds, fl, bl, fr, br))
  {
  }

  /** A completed turn blocks for `seconds` and leaves its four motors stopped,
      whichever way it turns. */
  lemma TurnStopsMotors(history: seq<Event>, seconds: real, fl: int, bl: int, fr: int, br: int, left: bool)
    requires seconds >= 0.0
    ensures var t := if left then TurnLeftEvents(seconds, fl, bl, fr, br)
                     else TurnRightEvents(seconds, fl, bl, fr, br);
            Duration(t) == seconds &&
            forall c :: c in [fl, bl, fr, br] ==> LastSet(history + t, Motor(c)) == Some(0.0)
  {
    var start := if left then [MotorSet(fl, -TurnDuty), MotorSet(bl, -TurnDuty), MotorSet(fr, TurnDuty), MotorSet(br, TurnDuty)]
                 else [MotorSet(fl, TurnDuty), MotorSet(bl, TurnDuty), MotorSet(fr, -TurnDuty), MotorSet(br, -TurnDuty)];
    var stop := TurnStop(seconds, fl, bl, fr, br);
    var t := if left then TurnLeftEvents(seconds, fl, bl, fr, br) else TurnRightEvents(seconds, fl, bl, fr, br);
    assert t == start + stop;
    var duties := [start[0].duty, start[1].duty, start[2].duty, start[3].duty];
    assert start == MotorWrites([fl, bl, fr, br], duties);
    assert stop == [Sleep(seconds)] + MotorWrites([fl, bl, fr, br], Stopped);
    MotorWritesInert([fl, bl, fr, br], duties, 0);
    MotorWritesInert([fl, bl, fr, br], Stopped, 0);
    DurationAppend(start, stop);
    DurationAppend([Sleep(seconds)], MotorWrites([fl, bl, fr, br], Stopped));
    SingleFacts(Sleep(seconds));
    forall c | c in [fl, bl, fr, br] ensures LastSet(history + t, Motor(c)) == Some(0.0) {
      var k := if c == fl then 1 else if c == bl then 2 else if c == fr then 3 else 4;
      UniformWrites(stop, Motor(c), 0.0, k);
      LastSetAppend(history + start, stop, Motor(c));
      assert history + t == (history + start) + stop;
    }
  }

  /** `BluPants`. The board it runs on is `board`; the echo line and the clock
      are the inputs the range finder consumes. */
  class BluPants {
    const board: BeagleBoneBlue
    var duty: real
    var dutyRatio: seq<real>
    var turnRightPeriod: real
    var turnLeftPeriod: real
    var motorFrontLeft: int
    var motorFrontRight: int
    var motorBackLeft: int
    var motorBackRight: int
    /** Whether the claw is open. */
    var grab: bool
    var servoClaw: int
    var clawAngleOpen: real
    var clawAngleClose: real
    /** The echo line's coming reads, one per `GPIO.input`. */
    var echo: seq<bool>
    /** The clock's coming readings, one per `time.time()`. */
    var clock: seq<real>

    /** The fields `__init__` and `_load_config` set from `doc`, except the
        claw angles: each hardcoded default, replaced by the configured value
        when its whole nested path exists; the claw open; the range finder
        holding the given inputs. */
    predicate Loaded(doc: Doc, echoReads: seq<bool>, clockReads: seq<real>)
      reads this
    {
      PantsConfigOk(doc) &&
      duty == 0.5 && grab &&
      dutyRatio == RealListParam(doc, DutyRatioPath, [1.0, 1.0, 1.0, 1.0]) &&
      turnRightPeriod == RealParam(doc, TurnRightPath, 0.005) &&
      turnLeftPeriod == RealParam(doc, TurnLeftPath, 0.005) &&
      motorFrontLeft == IndexParam(doc, FrontLeftPath, 1) &&
      motorFrontRight == IndexParam(doc, FrontRightPath, 2) &&
      motorBackLeft == IndexParam(doc, BackLeftPath, 3) &&
      motorBackRight == IndexParam(doc, BackRightPath, 4) &&
      servoClaw == IndexParam(doc, ClawServoPath, 8) &&
      echo == echoReads && clock == clockReads
    }

    /** The claw angles as `BluPants._load_config` sets them. */
    predicate ClawConfigured(doc: Doc)
      reads this
    {
      PantsConfigOk(doc) &&
      clawAngleOpen == RealParam(doc, ClawOpenPath, -45.0) &&
      clawAngleClose == RealParam(doc, ClawClosePath, 45.0)
    }

    /** `__init__` with `_load_config`. */
    constructor (userConfig: Doc, defaults: Doc, echoReads: seq<bool>, clockReads: seq<real>)
      requires PantsConfigOk(Merged(userConfig, defaults))
      ensures fresh(board) && board.config == Merged(userConfig, defaults)
      ensures board.name == if "name" in board.config then board.config["name"] else JStr("BeagleBoneBlue")
      ensures board.trace == [] && board.running
      ensures Loaded(board.config, echoReads, clockReads)
      ensures ClawConfigured(board.config)
    {
      var b := new BeagleBoneBlue(userConfig, defaults);
      board := b;
      var doc := b.config;
      duty := 0.5;
      grab := true;
      dutyRatio := RealListParam(doc, DutyRatioPath, [1.0, 1.0, 1.0, 1.0]);
      turnRightPeriod := RealParam(doc, TurnRightPath, 0.005);
      turnLeftPeriod := RealParam(doc, TurnLeftPath, 0.005);
      motorFrontLeft := IndexParam(doc, FrontLeftPath, 1);
      motorFrontRight := IndexParam(doc, FrontRightPath, 2);
      motorBackLeft := IndexParam(doc, BackLeftPath, 3);
      motorBackRight := IndexParam(doc, BackRightPath, 4);
      servoClaw := IndexParam(doc, ClawServoPath, 8);
      clawAngleOpen := RealParam(doc, ClawOpenPath, -45.0);
      clawAngleClose := RealParam(doc, ClawClosePath, 45.0);
      echo := echoReads;
      clock := clockReads;
    }

    /** The configured turning motors index the board's motor list. */
    predicate TurnMotorsOk()
      reads this
    {
      IsMotorIndex(motorFrontLeft) && IsMotorIndex(motorBackLeft) &&
      IsMotorIndex(motorFrontRight) && IsMotorIndex(motorBackRight)
    }

    /** `move(period, duty)`. */
    method Move(period: real, d: real) returns (ok: bool)
      requires |dutyRatio| >= 4
      modifies this`duty, board`trace
      ensures duty == d
      ensures ok == (period >= 0.0)
      ensures board.trace == old(board.trace) + MoveEvents(period, d, dutyRatio)
    {
      duty := d;
      var drive := MotorWrites(Wheels, WheelDuties(d, dutyRatio));
      for i := 1 to 5
        invariant duty == d
        invariant board.trace == old(board.trace) + drive[..i - 1]
      {
        assert Wheels[i - 1] == i;
        assert drive[i - 1] == MotorSet(i, d * dutyRatio[i - 1]);
        board.SetMotor(i, d * dutyRatio[i - 1]);
        assert drive[..i] == drive[..i - 1] + [drive[i - 1]];
      }
      assert drive[..4] == drive;
      ok := board.Sleep(period);
      if !ok {
        return;
      }
      var stop := MotorWrites(Wheels, Stopped);
      for i := 1 to 5
        invariant duty == d
        invariant board.trace == old(board.trace) + drive + [Events.Sleep(period)] + stop[..i - 1]
      {
        assert Wheels[i - 1] == i;
        board.SetMotor(i, 0.0);
        assert stop[..i] == stop[..i - 1] + [stop[i - 1]];
      }
      assert stop[..4] == stop;
    }

    /** `move_forward(blocks, speed)`: `move(blocks / speed, speed)`. */
    method MoveForward(blocks: real, speed: real) returns (ok: bool)
      requires speed != 0.0 && |dutyRatio| >= 4
      modifies this`duty, board`trace
      ensures duty == speed
      ensures ok == (blocks / speed >= 0.0)
      ensures board.trace == old(board.trace) + MoveEvents(blocks / speed, speed, dutyRatio)
    {
      var period := blocks / speed;
      ok := Move(period, speed);
    }

    /** `move_backwards(blocks, speed)`: `move(blocks / speed, -speed)`. */
    method MoveBackwards(blocks: real, speed: real) returns (ok: bool)
      requires speed != 0.0 && |dutyRatio| >= 4
      modifies this`duty, board`trace
      ensures duty == -speed
      ensures ok == (blocks / speed >= 0.0)
      ensures board.trace == old(board.trace) + MoveEvents(blocks / speed, -speed, dutyRatio)
    {
      var period := blocks / speed;
      ok := Move(period, speed * -1.0);
    }

    /** `turn_right(angle)`: sleeps `angle * turn_right_period`. */
    method TurnRight(angle: real) returns (ok: bool)
      requires TurnMotorsOk()
      modifies board`trace
      ensures ok == (TurnTime(angle, turnRightPeriod) >= 0.0)
      ensures board.trace == old(board.trace)
        + TurnRightEvents(TurnTime(angle, turnRightPeriod), MotorSlot(motorFrontLeft), MotorSlot(motorBackLeft), MotorSlot(motorFrontRight), MotorSlot(motorBackRight))
    {
      var d := TurnDuty;
      board.SetMotor(motorFrontLeft, d);
      board.SetMotor(motorBackLeft, d);
      board.SetMotor(motorFrontRight, d * -1.0);
      board.SetMotor(motorBackRight, d * -1.0);
      ghost var started := board.trace;
      assert started == old(board.trace) + [MotorSet(MotorSlot(motorFrontLeft), d), MotorSet(MotorSlot(motorBackLeft), d),
                                            MotorSet(MotorSlot(motorFrontRight), d * -1.0), MotorSet(MotorSlot(motorBackRight), d * -1.0)];
      ok := board.Sleep(TurnTime(angle, turnRightPeriod));
      if ok {
        board.SetMotor(motorFrontLeft, 0.0);
        board.SetMotor(motorBackLeft, 0.0);
        board.SetMotor(motorFrontRight, 0.0);
        board.SetMotor(motorBackRight, 0.0);
      }
      assert board.trace == started + TurnStop(TurnTime(angle, turnRightPeriod), MotorSlot(motorFrontLeft), MotorSlot(motorBackLeft), MotorSlot(motorFrontRight), MotorSlot(motorBackRight));
    }

    /** `turn_left(angle)`: sleeps `angle * turn_right_period` as well;
        `turn_left_period` is read from the configuration but never used. */
    method TurnLeft(angle: real) returns (ok: bool)
      requires TurnMotorsOk()
      modifies board`trace
      ensures ok == (TurnTime(angle, turnRightPeriod) >= 0.0)
      ensures board.trace == old(board.trace)
        + TurnLeftEvents(TurnTime(angle, turnRightPeriod), MotorSlot(motorFrontLeft), MotorSlot(motorBackLeft), MotorSlot(motorFrontRight), MotorSlot(motorBackRight))
    {
      var d := TurnDuty;
      board.SetMotor(motorFrontLeft, d * -1.0);
      board.SetMotor(motorBackLeft, d * -1.0);
      board.SetMotor(motorFrontRight, d);
      board.SetMotor(motorBackRight, d);
      ghost var started := board.trace;
      assert started == old(board.trace) + [MotorSet(MotorSlot(motorFrontLeft), d * -1.0), MotorSet(MotorSlot(motorBackLeft), d * -1.0),
                                            MotorSet(MotorSlot(motorFrontRight), d), MotorSet(MotorSlot(motorBackRight), d)];
      ok := board.Sleep(TurnTime(angle, turnRightPeriod));
      if ok {
        board.SetMotor(motorFrontLeft, 0.0);
        board.SetMotor(motorBackLeft, 0.0);
        board.SetMotor(motorFrontRight, 0.0);
        board.SetMotor(motorBackRight, 0.0);
      }
      assert board.trace == started + TurnStop(TurnTime(angle, turnRightPeriod), MotorSlot(motorFrontLeft), MotorSlot(motorBackLeft), MotorSlot(motorFrontRight), MotorSlot(motorBackRight));
    }

    /** `claw_open`. */
    method ClawOpen()
      requires IsServoIndex(servoClaw)
      modifies this`grab, board`trace
      ensures grab
      ensures board.trace == old(board.trace) + ServoWrite(ServoSlot(servoClaw), clawAngleOpen)
    {
      grab := true;
      board.SetServo(servoClaw, clawAngleOpen);
    }

    /** `claw_close`. */
    method ClawClose()
      requires IsServoIndex(servoClaw)
      modifies this`grab, board`trace
      ensures !grab
      ensures board.trace == old(board.trace) + ServoWrite(ServoSlot(servoClaw), clawAngleClose)
    {
      grab := false;
      board.SetServo(servoClaw, clawAngleClose);
    }

    /** `claw_toggle`: closes an open claw and opens a closed one, so two
        toggles restore `grab`. */
    method ClawToggle()
      requires IsServoIndex(servoClaw)
      modifies this`grab, board`trace
      ensures grab == !old(grab)
      ensures board.trace == old(board.trace)
        + ServoWrite(ServoSlot(servoClaw), if old(grab) then clawAngleClose else clawAngleOpen)
    {
      if grab {
        ClawClose();
      } else {
        ClawOpen();
      }
    }

    /** `_distance_measurement`: trigger, then time the echo pulse with two
        polling loops of at most PollLimit + 1 reads each. */
    method DistanceMeasurement() returns (distance: real)
      requires |echo| >= EchoBudget && |clock| >= ClockBudget
      modifies this`echo, this`clock, board`trace
      ensures distance == Reported(Measure(old(echo), old(clock)))
      ensures echo == old(echo)[EchoReads(old(echo))..]
      ensures clock == old(clock)[ClockReads(old(echo))..]
      ensures board.trace == old(board.trace) + [TriggerPulse]
    {
      var e, c := echo, clock;
      board.trace := board.trace + [TriggerPulse];
      var pulseStart := c[0];
      var pulseEnd := c[1];
      // `r` echo reads and `t` clock readings taken so far
      var r, t := 1, 2;
      var counter := 0;
      var high := e[0];
      while !high
        invariant echo == e && clock == c
        invariant counter <= PollLimit && r == counter + 1 && t == counter + 2
        invariant forall j :: 0 <= j < counter ==> !e[j]
        invariant high == e[counter]
        invariant pulseStart == if counter == 0 then c[0] else c[1 + counter]
        invariant board.trace == old(board.trace) + [TriggerPulse]
        decreases PollLimit - counter
      {
        pulseStart := c[t];
        t := t + 1;
        counter := counter + 1;
        if counter > PollLimit {
          FirstLoopGivesUp(e, c);
          assert r == EchoReads(e) && t == ClockReads(e);
          echo, clock := e[r..], c[t..];
          return TimeoutSentinel;
        }
        high := e[r];
        r := r + 1;
      }
      ghost var low := counter;
      counter := 0;
      high := e[r];
      r := r + 1;
      while high
        invariant echo == e && clock == c
        invariant counter <= PollLimit && r == low + counter + 2 && t == low + counter + 2
        invariant forall j :: low < j <= low + counter ==> e[j]
        invariant high == e[low + 1 + counter]
        invariant pulseEnd == if counter == 0 then c[1] else c[1 + low + counter]
        invariant board.trace == old(board.trace) + [TriggerPulse]
        decreases PollLimit - counter
      {
        pulseEnd := c[t];
        t := t + 1;
        counter := counter + 1;
        if counter > PollLimit {
          SecondLoopGivesUp(e, c, low);
          assert r == EchoReads(e) && t == ClockReads(e);
          echo, clock := e[r..], c[t..];
          return TimeoutSentinel;
        }
        high := e[r];
        r := r + 1;
      }
      PulseTimed(e, c, low, counter);
      assert Measure(e, c) == Pulse(pulseStart, pulseEnd);
      assert r == EchoReads(e) && t == ClockReads(e);
      echo, clock := e[r..], c[t..];
      var pulseDuration := pulseEnd - pulseStart;
      distance := Round2(pulseDuration * HalfSoundSpeed);
    }

    /** `read_distance`: the measurement, in inches when the configured
        measurement system is "r", "i" or "b" (in any case), else as measured. */
    method ReadDistance() returns (distance: real)
      requires |echo| >= EchoBudget && |clock| >= ClockBudget
      modifies this`echo, this`clock, board`trace
      ensures distance == InConfiguredUnit(board.config, Reported(Measure(old(echo), old(clock))))
      ensures echo == old(echo)[EchoReads(old(echo))..]
      ensures clock == old(clock)[ClockReads(old(echo))..]
      ensures board.trace == old(board.trace) + [TriggerPulse]
    {
      distance := DistanceMeasurement();
      var system := MeasurementSystem(board.config);
      if system == "r" || system == "i" || system == "b" {
        distance := distance * InchesPerCentimetre;
      }
    }
  }
}
