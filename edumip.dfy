/** `EduMIP`: the self-balancing robot. It does not drive its motors itself:
    it leaves empty command files for the balancing daemon, which reads them
    as up, down, left, right and brake. Its two shoulder servos act as the claw. */
module EduMip {
  import opened Config
  import opened Events
  import opened Board
  import opened Pants

  const BlockLengthPath: seq<string> := ["EduMIP", "block_length"]
  const TurnCoefficientPath: seq<string> := ["EduMIP", "turn_coefficient"]
  const MeterCoefficientPath: seq<string> := ["EduMIP", "meter_coefficient"]
  const ShoulderLeftPath: seq<string> := ["EduMIP", "servo_shoulder_left"]
  const ShoulderRightPath: seq<string> := ["EduMIP", "servo_shoulder_right"]
  const EduClawOpenPath: seq<string> := ["EduMIP", "claw", "angle_open"]
  const EduClawClosePath: seq<string> := ["EduMIP", "claw", "angle_close"]

  /** The directory of the command files: joining "/", "tmp", "/" and
      "blupants" restarts at the second "/". */
  const VarDir: string := "/blupants"
  const Up: string := "up.txt."
  const Down: string := "down.txt."
  const Left: string := "left.txt."
  const Right: string := "right.txt."
  const Brake: string := "break.txt."
  /** How long every motion waits after its brake file. */
  const BrakeWait: real := 2.0

  /** Every setting the EduMIP layer reads is absent or of a usable kind. */
  predicate EduConfigOk(doc: Doc)
  {
    PantsConfigOk(doc) &&
    RealAt(doc, BlockLengthPath) && RealAt(doc, TurnCoefficientPath) && RealAt(doc, MeterCoefficientPath) &&
    IndexAt(doc, ShoulderLeftPath) && IndexAt(doc, ShoulderRightPath) &&
    RealAt(doc, EduClawOpenPath) && RealAt(doc, EduClawClosePath)
  }

  /** The path of a command file. */
  function CommandPath(cmd: string): string
  {
    VarDir + "/" + cmd
  }

  /** A configured coefficient applied to a command's argument. */
  function Scaled(coefficient: real, x: real): real
  {
    coefficient * x
  }

  /** The command file `move` chooses: up for a positive distance, down
      otherwise (zero included). */
  function Direction(distance: real): string
  {
    if distance > 0.0 then Up else Down
  }

  /** One motion: the command file, the sleep, the brake file and the wait.
      A negative sleep raises, so the brake file is never written. */
  function CommandEvents(cmd: string, seconds: real): seq<Event>
  {
    [CreateFile(CommandPath(cmd))]
    + (if seconds >= 0.0 then [Sleep(seconds), CreateFile(CommandPath(Brake)), Sleep(BrakeWait)] else [])
  }

  /** A motion writes its command file and, when its sleep succeeds, the brake
      file after it and blocks for two seconds more than it sleeps; it drives
      no servo and no motor. */
  lemma CommandFacts(cmd: string, seconds: real, act: Actuator)
    ensures Files(CommandEvents(cmd, seconds))
         == if seconds >= 0.0 then [CommandPath(cmd), CommandPath(Brake)] else [CommandPath(cmd)]
    ensures Duration(CommandEvents(cmd, seconds)) == if seconds >= 0.0 then seconds + BrakeWait else 0.0
    ensures LastSet(CommandEvents(cmd, seconds), act) == None
  {
    var c := [CreateFile(CommandPath(cmd))];
    SingleFacts(CreateFile(CommandPath(cmd)));
    if seconds >= 0.0 {
      var a, b, w := [Sleep(seconds)], [CreateFile(CommandPath(Brake))], [Sleep(BrakeWait)];
      SingleFacts(Sleep(seconds));
      SingleFacts(CreateFile(CommandPath(Brake)));
      SingleFacts(Sleep(BrakeWait));
      AppendFacts(a, b, act);
      AppendFacts(a + b, w, act);
      assert CommandEvents(cmd, seconds) == c + (a + b + w);
      AppendFacts(c, a + b + w, act);
    } else {
      assert CommandEvents(cmd, seconds) == c;
    }
  }

  /** With positive coefficients a backward move sleeps a negative time: only
      the down file is written, the brake file never is, and nothing blocks. */
  lemma BackwardsNeverBrakes(blockLength: real, meterCoefficient: real, blocks: real)
    requires blockLength > 0.0 && meterCoefficient > 0.0 && blocks > 0.0
    ensures var d := Scaled(blockLength, blocks) * -1.0;
            Direction(d) == Down &&
            CommandEvents(Direction(d), Scaled(meterCoefficient, d)) == [CreateFile(CommandPath(Down))]
  {
    assert blockLength * blocks > 0.0;
    var d := Scaled(blockLength, blocks) * -1.0;
    assert meterCoefficient * d < 0.0;
  }

  /** With positive coefficients a forward move goes up and is braked. */
  lemma ForwardBrakes(blockLength: real, meterCoefficient: real, blocks: real)
    requires blockLength > 0.0 && meterCoefficient > 0.0 && blocks > 0.0
    ensures var d := Scaled(blockLength, blocks);
            Direction(d) == Up &&
            Files(CommandEvents(Direction(d), Scaled(meterCoefficient, d))) == [CommandPath(Up), CommandPath(Brake)]
  {
    assert blockLength * blocks > 0.0;
    var d := Scaled(blockLength, blocks);
    assert meterCoefficient * d > 0.0;
    CommandFacts(Up, Scaled(meterCoefficient, d), Servo(0));
  }

  /** `claw_open` (opening) or `claw_close`: the left shoulder, then the right. */
  function ShoulderEvents(l: int, r: int, angle: real, opening: bool): seq<Event>
  {
    if opening then ServoWrite(l, angle * -1.0) + ServoWrite(r, angle)
    else ServoWrite(l, angle) + ServoWrite(r, angle * -1.0)
  }

  /** The shoulders always end at mirrored positions: opening puts the left one
      at minus the angle, closing puts the right one there. */
  lemma ShouldersMirrored(l: int, r: int, angle: real, opening: bool)
    requires l != r
    ensures Duration(ShoulderEvents(l, r, angle, opening)) == 0.8
    ensures LastSet(ShoulderEvents(l, r, angle, opening), Servo(r))
         == Some(ServoPosition(if opening then angle else -angle))
    ensures LastSet(ShoulderEvents(l, r, angle, opening), Servo(l))
         == Some(-ServoPosition(if opening then angle else -angle))
  {
    var a, b := if opening then angle * -1.0 else angle, if opening then angle else angle * -1.0;
    assert ShoulderEvents(l, r, angle, opening) == ServoWrite(l, a) + ServoWrite(r, b);
    ServoPositionOdd(angle);
    ServoWriteFacts(l, a, Servo(l));
    ServoWriteFacts(r, b, Servo(l));
    AppendFacts(ServoWrite(l, a), ServoWrite(r, b), Servo(l));
    ServoWriteFacts(l, a, Servo(r));
    ServoWriteFacts(r, b, Servo(r));
    AppendFacts(ServoWrite(l, a), ServoWrite(r, b), Servo(r));
  }

  /** The pause between the pairs of shoulder writes of a gesture. */
  const GesturePause: real := 0.2

  /** `say_no` and `say_yes`: both shoulders to 0, a pause, the right then the
      left to the first swing, a pause, the left then the right to the second
      swing, the last pause, and the right then the left back to 0. In `say_no`
      both shoulders swing the same way; in `say_yes` they swing in opposite
      directions. */
  function ShoulderGesture(l: int, r: int, swing: real, opposite: bool, lastPause: real): seq<Event>
  {
    GestureOut(l, r, swing, opposite) + GestureBack(l, r, swing, opposite, lastPause)
  }

  /** The first half of a gesture: centre, pause, first swing, pause. */
  function GestureOut(l: int, r: int, swing: real, opposite: bool): seq<Event>
  {
    ServoWrite(l, 0.0) + ServoWrite(r, 0.0) + [Sleep(GesturePause)]
    + ServoWrite(r, if opposite then swing else -swing) + ServoWrite(l, -swing) + [Sleep(GesturePause)]
  }

  /** The second half: second swing, the last pause, centre. */
  function GestureBack(l: int, r: int, swing: real, opposite: bool, lastPause: real): seq<Event>
  {
    ServoWrite(l, swing) + ServoWrite(r, if opposite then -swing else swing) + [Sleep(lastPause)]
    + ServoWrite(r, 0.0) + ServoWrite(l, 0.0)
  }

  /** `say_no` shakes by 45 degrees; `say_yes` by 80, and its last pause is 0. */
  function SayNoEvents(l: int, r: int): seq<Event>
  {
    ShoulderGesture(l, r, 45.0, false, GesturePause)
  }

  function SayYesEvents(l: int, r: int): seq<Event>
  {
    ShoulderGesture(l, r, 80.0, true, 0.0)
  }

  lemma GestureOutFacts(l: int, r: int, swing: real, opposite: bool, act: Actuator)
    ensures Duration(GestureOut(l, r, swing, opposite)) == 1.6 + 2.0 * GesturePause
    ensures Files(GestureOut(l, r, swing, opposite)) == []
    ensures act != Servo(l) && act != Servo(r) ==> LastSet(GestureOut(l, r, swing, opposite), act) == None
  {
    var a, b := ServoWrite(l, 0.0), ServoWrite(r, 0.0);
    var c, d := ServoWrite(r, if opposite then swing else -swing), ServoWrite(l, -swing);
    var p := [Sleep(GesturePause)];
    ServoWriteFacts(l, 0.0, act);
    ServoWriteFacts(r, 0.0, act);
    ServoWriteFacts(r, if opposite then swing else -swing, act);
    ServoWriteFacts(l, -swing, act);
    SingleFacts(Sleep(GesturePause));
    AppendFacts(a, b, act);
    AppendFacts(a + b, p, act);
    AppendFacts(a + b + p, c, act);
    AppendFacts(a + b + p + c, d, act);
    AppendFacts(a + b + p + c + d, p, act);
  }

  lemma GestureBackFacts(l: int, r: int, swing: real, opposite: bool, lastPause: real, act: Actuator)
    ensures Duration(GestureBack(l, r, swing, opposite, lastPause)) == 1.6 + lastPause
    ensures Files(GestureBack(l, r, swing, opposite, lastPause)) == []
    ensures LastSet(GestureBack(l, r, swing, opposite, lastPause), act)
         == if act == Servo(l) || act == Servo(r) then Some(0.0) else None
  {
    var e, f := ServoWrite(l, swing), ServoWrite(r, if opposite then -swing else swing);
    var a, b := ServoWrite(l, 0.0), ServoWrite(r, 0.0);
    var q := [Sleep(lastPause)];
    ServoWriteFacts(l, swing, act);
    ServoWriteFacts(r, if opposite then -swing else swing, act);
    ServoWriteFacts(l, 0.0, act);
    ServoWriteFacts(r, 0.0, act);
    SingleFacts(Sleep(lastPause));
    AppendFacts(e, f, act);
    AppendFacts(e + f, q, act);
    AppendFacts(e + f + q, b, act);
    AppendFacts(e + f + q + b, a, act);
  }

  /** A gesture blocks for its eight servo writes and its pauses, leaves both
      shoulders at 0 and touches nothing else. */
  lemma ShoulderGestureFacts(l: int, r: int, swing: real, opposite: bool, lastPause: real, act: Actuator)
    ensures Duration(ShoulderGesture(l, r, swing, opposite, lastPause)) == 3.2 + 2.0 * GesturePause + lastPause
    ensures Files(ShoulderGesture(l, r, swing, opposite, lastPause)) == []
    ensures LastSet(ShoulderGesture(l, r, swing, opposite, lastPause), act)
         == if act == Servo(l) || act == Servo(r) then Some(0.0) else None
  {
    GestureOutFacts(l, r, swing, opposite, act);
    GestureBackFacts(l, r, swing, opposite, lastPause, act);
    AppendFacts(GestureOut(l, r, swing, opposite), GestureBack(l, r, swing, opposite, lastPause), act);
  }

  /** `say_no` takes 3.8 seconds and `say_yes` 3.6. */
  lemma GestureDurations(l: int, r: int)
    ensures Duration(SayNoEvents(l, r)) == 3.8
    ensures Duration(SayYesEvents(l, r)) == 3.6
  {
    ShoulderGestureFacts(l, r, 45.0, false, GesturePause, Servo(l));
    ShoulderGestureFacts(l, r, 80.0, true, 0.0, Servo(l));
  }

  /** A zero-length move still chooses the down file, and is braked. */
  lemma StandingStillGoesDown(meterCoefficient: real)
    ensures Direction(0.0) == Down
    ensures Files(CommandEvents(Direction(0.0), Scaled(meterCoefficient, 0.0))) == [CommandPath(Down), CommandPath(Brake)]
    ensures Duration(CommandEvents(Direction(0.0), Scaled(meterCoefficient, 0.0))) == BrakeWait
  {
    CommandFacts(Down, Scaled(meterCoefficient, 0.0), Servo(0));
  }

  /** `EduMIP`, on top of the `BluPants` layer `base`. */
  class EduMIP {
    const base: BluPants
    var blockLength: real
    var turnCoefficient: real
    var meterCoefficient: real
    var servoShoulderLeft: int
    var servoShoulderRight: int

    /** `__init__`: the `BluPants` layer, then this layer's defaults, each
        replaced by its configured value. The claw angles are reset to 45 and
        30 first, so the `BluPants` claw settings never reach this robot. */
    constructor (userConfig: Doc, defaults: Doc, echoReads: seq<bool>, clockReads: seq<real>)
      requires EduConfigOk(Merged(userConfig, defaults))
      ensures fresh(base) && fresh(base.board)
      ensures base.board.config == Merged(userConfig, defaults) && base.board.trace == []
      ensures base.board.name == if "name" in base.board.config then base.board.config["name"] else JStr("BeagleBoneBlue")
      ensures base.board.running
      ensures base.Loaded(base.board.config, echoReads, clockReads)
      ensures blockLength == RealParam(base.board.config, BlockLengthPath, 0.28)
      ensures turnCoefficient == RealParam(base.board.config, TurnCoefficientPath, 0.0175)
      ensures meterCoefficient == RealParam(base.board.config, MeterCoefficientPath, 14.0)
      ensures servoShoulderLeft == IndexParam(base.board.config, ShoulderLeftPath, 7)
      ensures servoShoulderRight == IndexParam(base.board.config, ShoulderRightPath, 6)
      ensures base.clawAngleOpen == RealParam(base.board.config, EduClawOpenPath, 45.0)
      ensures base.clawAngleClose == RealParam(base.board.config, EduClawClosePath, 30.0)
    {
      var b := new BluPants(userConfig, defaults, echoReads, clockReads);
      base := b;
      var doc := b.board.config;
      blockLength := RealParam(doc, BlockLengthPath, 0.28);
      turnCoefficient := RealParam(doc, TurnCoefficientPath, 0.0175);
      meterCoefficient := RealParam(doc, MeterCoefficientPath, 14.0);
      servoShoulderLeft := IndexParam(doc, ShoulderLeftPath, 7);
      servoShoulderRight := IndexParam(doc, ShoulderRightPath, 6);
      b.clawAngleOpen := RealParam(doc, EduClawOpenPath, 45.0);
      b.clawAngleClose := RealParam(doc, EduClawClosePath, 30.0);
    }

    /** Both shoulders index the board's servo list. */
    predicate ShouldersOk()
      reads this
    {
      IsServoIndex(servoShoulderLeft) && IsServoIndex(servoShoulderRight)
    }

    function LeftSlot(): int
      requires ShouldersOk()
      reads this
    {
      ServoSlot(servoShoulderLeft)
    }

    function RightSlot(): int
      requires ShouldersOk()
      reads this
    {
      ServoSlot(servoShoulderRight)
    }

    /** `_create_cmd_file(cmd)`: an empty file under the command directory. */
    method CreateCommandFile(cmd: string)
      modifies base.board`trace
      ensures base.board.trace == old(base.board.trace) + [CreateFile(CommandPath(cmd))]
    {
      base.board.trace := base.board.trace + [CreateFile(CommandPath(cmd))];
    }

    /** The command file, the sleep, the brake file and the wait of one motion. */
    method Command(cmd: string, seconds: real) returns (ok: bool)
      modifies base.board`trace
      ensures ok == (seconds >= 0.0)
      ensures base.board.trace == old(base.board.trace) + CommandEvents(cmd, seconds)
    {
      CreateCommandFile(cmd);
      ok := base.board.Sleep(seconds);
      if !ok {
        return;
      }
      CreateCommandFile(Brake);
      var waited := base.board.Sleep(BrakeWait);
    }

    /** `move(distance_meter)`. */
    method Move(distance: real) returns (ok: bool)
      modifies base.board`trace
      ensures ok == (Scaled(meterCoefficient, distance) >= 0.0)
      ensures base.board.trace
           == old(base.board.trace) + CommandEvents(Direction(distance), Scaled(meterCoefficient, distance))
    {
      var cmd := if distance > 0.0 then Up else Down;
      ok := Command(cmd, Scaled(meterCoefficient, distance));
    }

    /** `move_forward(blocks)`: `move(block_length * blocks)`. */
    method MoveForward(blocks: real) returns (ok: bool)
      modifies base.board`trace
      ensures var d := Scaled(blockLength, blocks);
              ok == (Scaled(meterCoefficient, d) >= 0.0) &&
              base.board.trace == old(base.board.trace) + CommandEvents(Direction(d), Scaled(meterCoefficient, d))
    {
      ok := Move(Scaled(blockLength, blocks));
    }

    /** `move_backwards(blocks)`: `move(block_length * blocks * -1)`. */
    method MoveBackwards(blocks: real) returns (ok: bool)
      modifies base.board`trace
      ensures var d := Scaled(blockLength, blocks) * -1.0;
              ok == (Scaled(meterCoefficient, d) >= 0.0) &&
              base.board.trace == old(base.board.trace) + CommandEvents(Direction(d), Scaled(meterCoefficient, d))
    {
      ok := Move(Scaled(blockLength, blocks) * -1.0);
    }

    /** `turn_left(angle)`. */
    method TurnLeft(angle: real) returns (ok: bool)
      modifies base.board`trace
      ensures ok == (Scaled(turnCoefficient, angle) >= 0.0)
      ensures base.board.trace == old(base.board.trace) + CommandEvents(Left, Scaled(turnCoefficient, angle))
    {
      ok := Command(Left, Scaled(turnCoefficient, angle));
    }

    /** `turn_right(angle)`. */
    method TurnRight(angle: real) returns (ok: bool)
      modifies base.board`trace
      ensures ok == (Scaled(turnCoefficient, angle) >= 0.0)
      ensures base.board.trace == old(base.board.trace) + CommandEvents(Right, Scaled(turnCoefficient, angle))
    {
      ok := Command(Right, Scaled(turnCoefficient, angle));
    }

    /** `claw_open`: the left shoulder to minus the open angle, the right to it. */
    method ClawOpen()
      requires ShouldersOk()
      modifies base`grab, base.board`trace
      ensures base.grab
      ensures base.board.trace
           == old(base.board.trace) + ShoulderEvents(LeftSlot(), RightSlot(), base.clawAngleOpen, true)
    {
      base.grab := true;
      base.board.SetServo(servoShoulderLeft, base.clawAngleOpen * -1.0);
      base.board.SetServo(servoShoulderRight, base.clawAngleOpen);
    }

    /** `claw_close`: the left shoulder to the close angle, the right to minus it. */
    method ClawClose()
      requires ShouldersOk()
      modifies base`grab, base.board`trace
      ensures !base.grab
      ensures base.board.trace
           == old(base.board.trace) + ShoulderEvents(LeftSlot(), RightSlot(), base.clawAngleClose, false)
    {
      base.grab := false;
      base.board.SetServo(servoShoulderLeft, base.clawAngleClose);
      base.board.SetServo(servoShoulderRight, base.clawAngleClose * -1.0);
    }

    /** The inherited `claw_toggle`, dispatching to this robot's own
        `claw_open` and `claw_close`. */
    method ClawToggle()
      requires ShouldersOk()
      modifies base`grab, base.board`trace
      ensures base.grab == !old(base.grab)
      ensures base.board.trace == old(base.board.trace)
        + ShoulderEvents(LeftSlot(), RightSlot(),
                         if old(base.grab) then base.clawAngleClose else base.clawAngleOpen, !old(base.grab))
    {
      if base.grab {
        ClawClose();
      } else {
        ClawOpen();
      }
    }

    /** `say_no`. */
    method SayNo()
      requires ShouldersOk()
      modifies base.board`trace
      ensures base.board.trace == old(base.board.trace) + SayNoEvents(LeftSlot(), RightSlot())
    {
      var l, r := servoShoulderLeft, servoShoulderRight;
      base.board.SetServo(l, 0.0);
      base.board.SetServo(r, 0.0);
      var ok := base.board.Sleep(GesturePause);
      base.board.SetServo(r, -45.0);
      base.board.SetServo(l, -45.0);
      ok := base.board.Sleep(GesturePause);
      base.board.SetServo(l, 45.0);
      base.board.SetServo(r, 45.0);
      ok := base.board.Sleep(GesturePause);
      base.board.SetServo(r, 0.0);
      base.board.SetServo(l, 0.0);
    }

    /** `say_yes`. */
    method SayYes()
      requires ShouldersOk()
      modifies base.board`trace
      ensures base.board.trace == old(base.board.trace) + SayYesEvents(LeftSlot(), RightSlot())
    {
      var l, r := servoShoulderLeft, servoShoulderRight;
      base.board.SetServo(l, 0.0);
      base.board.SetServo(r, 0.0);
      var ok := base.board.Sleep(GesturePause);
      base.board.SetServo(r, 80.0);
      base.board.SetServo(l, -80.0);
      ok := base.board.Sleep(GesturePause);
      base.board.SetServo(l, 80.0);
      base.board.SetServo(r, -80.0);
      ok := base.board.Sleep(0.0);
      base.board.SetServo(r, 0.0);
      base.board.SetServo(l, 0.0);
    }
  }
}
