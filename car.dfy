/** `BluPantsCar`: the drivetrain robot with a two-servo camera mount that
    steps through fixed presets, looks to an angle and nods or shakes. */
module Car {
  import opened Config
  import opened Events
  import opened Board
  import opened Pants

  const CameraHorizontalPath: seq<string> := ["blupants", "camera", "servo_horizontal"]
  const CameraVerticalPath: seq<string> := ["blupants", "camera", "servo_vertical"]

  /** The delay the camera commands insert between their servo writes. */
  const CameraPause: real := 0.2

  /** The camera presets, (horizontal, vertical) in degrees, in toggle order. */
  const CameraPresets: seq<(real, real)> :=
    [(-89.0, 0.0), (89.0, 0.0), (89.0, 30.0), (0.0, 30.0), (-89.0, 30.0), (-89.0, 0.0),
     (-89.0, -30.0), (0.0, -30.0), (89.0, -30.0), (89.0, 0.0), (0.0, 0.0)]

  /** Every car setting is absent or of a kind the model's fields can take. */
  predicate CarConfigOk(doc: Doc)
  {
    PantsConfigOk(doc) && IndexAt(doc, CameraHorizontalPath) && IndexAt(doc, CameraVerticalPath)
  }

  /** The preset a toggle aims at: a position past the end wraps to the first. */
  function PresetIndex(pos: nat): (k: nat)
    ensures k < |CameraPresets|
    ensures pos < |CameraPresets| ==> k == pos
    ensures pos >= |CameraPresets| ==> k == 0
  {
    if pos >= |CameraPresets| then 0 else pos
  }

  /** `camera_pos` after `n` toggles from `pos`. */
  function Toggled(pos: nat, n: nat): nat
  {
    if n == 0 then pos else PresetIndex(Toggled(pos, n - 1)) + 1
  }

  /** Successive toggles visit the presets cyclically: the `n`-th toggle from
      `pos` aims at preset (PresetIndex(pos) + n) mod 11. */
  lemma {:induction false} TogglesCycle(pos: nat, n: nat)
    ensures PresetIndex(Toggled(pos, n)) == (PresetIndex(pos) + n) % |CameraPresets|
    ensures n > 0 ==> Toggled(pos, n) <= |CameraPresets|
  {
    if n > 0 {
      TogglesCycle(pos, n - 1);
    }
  }

  /** Eleven toggles bring the camera back to the preset it started from. */
  lemma TogglesPeriod(pos: nat)
    ensures PresetIndex(Toggled(pos, |CameraPresets|)) == PresetIndex(pos)
  {
    TogglesCycle(pos, |CameraPresets|);
  }

  /** The events of `camera_toggle` from position `pos`. */
  function CameraToggleEvents(h: int, v: int, pos: nat): seq<Event>
  {
    var p := CameraPresets[PresetIndex(pos)];
    [Sleep(CameraPause)] + ServoWrite(h, p.0) + [Sleep(CameraPause)] + ServoWrite(v, p.1) + [Sleep(CameraPause)]
  }

  /** A toggle blocks for 1.4 seconds and leaves the two camera servos at the
      preset's angles (the vertical one wins when both are the same channel). */
  lemma CameraToggleFacts(h: int, v: int, pos: nat, act: Actuator)
    ensures Duration(CameraToggleEvents(h, v, pos)) == 1.4
    ensures Files(CameraToggleEvents(h, v, pos)) == []
    ensures LastSet(CameraToggleEvents(h, v, pos), act)
         == if act == Servo(v) then Some(ServoPosition(CameraPresets[PresetIndex(pos)].1))
            else if act == Servo(h) then Some(ServoPosition(CameraPresets[PresetIndex(pos)].0))
            else None
  {
    var p := CameraPresets[PresetIndex(pos)];
    var s := [Sleep(CameraPause)];
    SingleFacts(Sleep(CameraPause));
    ServoWriteFacts(h, p.0, act);
    ServoWriteFacts(v, p.1, act);
    AppendFacts(s, ServoWrite(h, p.0), act);
    AppendFacts(s + ServoWrite(h, p.0), s, act);
    AppendFacts(s + ServoWrite(h, p.0) + s, ServoWrite(v, p.1), act);
    AppendFacts(s + ServoWrite(h, p.0) + s + ServoWrite(v, p.1), s, act);
  }

  /** The events of `look_angle(angle)`. The clamped angle is converted to a
      position here and then passed to `set_servo`, which converts it again. */
  function LookAngleEvents(h: int, v: int, angle: real): seq<Event>
  {
    [Sleep(CameraPause)] + ServoWrite(h, ClampAngle(angle) * PositionPerDegree)
    + ServoWrite(v, 0.0) + [Sleep(CameraPause)]
  }

  /** `look_angle` blocks for 1.2 seconds, centres the vertical servo and
      leaves the horizontal one at the doubly scaled angle. */
  lemma LookAngleFacts(h: int, v: int, angle: real, act: Actuator)
    ensures Duration(LookAngleEvents(h, v, angle)) == 1.2
    ensures Files(LookAngleEvents(h, v, angle)) == []
    ensures LastSet(LookAngleEvents(h, v, angle), act)
         == if act == Servo(v) then Some(0.0)
            else if act == Servo(h) then Some(ServoPosition(ClampAngle(angle) * PositionPerDegree))
            else None
  {
    var s := [Sleep(CameraPause)];
    var x := ClampAngle(angle) * PositionPerDegree;
    SingleFacts(Sleep(CameraPause));
    ServoWriteFacts(h, x, act);
    ServoWriteFacts(v, 0.0, act);
    AppendFacts(s, ServoWrite(h, x), act);
    AppendFacts(s + ServoWrite(h, x), ServoWrite(v, 0.0), act);
    AppendFacts(s + ServoWrite(h, x) + ServoWrite(v, 0.0), s, act);
  }

  /** Because of the double conversion, `look_angle` turns the horizontal
      servo by at most 0.02025 of its range, whatever the angle. */
  lemma LookAngleScaledTwice(angle: real)
    ensures ServoPosition(ClampAngle(angle) * PositionPerDegree)
         == ClampAngle(angle) * PositionPerDegree * PositionPerDegree
    ensures -0.02025 <= ServoPosition(ClampAngle(angle) * PositionPerDegree) <= 0.02025
  {
  }

  /** The events of `say_yes` (nodding the vertical servo) and `say_no`
      (shaking the horizontal one): centre, 60, -60, 60, centre. */
  function GestureEvents(h: int, v: int, yes: bool): seq<Event>
  {
    var n := if yes then v else h;
    LookAngleEvents(h, v, 0.0) + ServoWrite(n, 60.0) + ServoWrite(n, -60.0) + ServoWrite(n, 60.0)
    + LookAngleEvents(h, v, 0.0)
  }

  /** Either gesture blocks for 3.6 seconds and leaves both camera servos
      centred, touching no other output. */
  lemma GestureFacts(h: int, v: int, yes: bool, act: Actuator)
    ensures Duration(GestureEvents(h, v, yes)) == 3.6
    ensures Files(GestureEvents(h, v, yes)) == []
    ensures LastSet(GestureEvents(h, v, yes), act)
         == if act == Servo(h) || act == Servo(v) then Some(0.0) else None
  {
    var n := if yes then v else h;
    var look := LookAngleEvents(h, v, 0.0);
    LookAngleFacts(h, v, 0.0, act);
    ServoWriteFacts(n, 60.0, act);
    ServoWriteFacts(n, -60.0, act);
    AppendFacts(look, ServoWrite(n, 60.0), act);
    AppendFacts(look + ServoWrite(n, 60.0), ServoWrite(n, -60.0), act);
    AppendFacts(look + ServoWrite(n, 60.0) + ServoWrite(n, -60.0), ServoWrite(n, 60.0), act);
    AppendFacts(look + ServoWrite(n, 60.0) + ServoWrite(n, -60.0) + ServoWrite(n, 60.0), look, act);
  }

  /** `BluPantsCar`, on top of the `BluPants` layer `base`. */
  class BluPantsCar {
    const base: BluPants
    var servoHorizontal: int
    var servoVertical: int
    /** The index of the next preset `camera_toggle` aims at. */
    var cameraPos: nat

    constructor (userConfig: Doc, defaults: Doc, echoReads: seq<bool>, clockReads: seq<real>)
      requires CarConfigOk(Merged(userConfig, defaults))
      ensures fresh(base) && fresh(base.board)
      ensures base.board.config == Merged(userConfig, defaults) && base.board.trace == []
      ensures base.board.name == if "name" in base.board.config then base.board.config["name"] else JStr("BeagleBoneBlue")
      ensures base.board.running
      ensures base.Loaded(base.board.config, echoReads, clockReads)
      ensures base.ClawConfigured(base.board.config)
      ensures servoHorizontal == IndexParam(base.board.config, CameraHorizontalPath, 1)
      ensures servoVertical == IndexParam(base.board.config, CameraVerticalPath, 2)
      ensures cameraPos == 0
    {
      var b := new BluPants(userConfig, defaults, echoReads, clockReads);
      base := b;
      var doc := b.board.config;
      servoHorizontal := IndexParam(doc, CameraHorizontalPath, 1);
      servoVertical := IndexParam(doc, CameraVerticalPath, 2);
      cameraPos := 0;
    }

    /** Both camera servos index the board's servo list. */
    predicate CameraServosOk()
      reads this
    {
      IsServoIndex(servoHorizontal) && IsServoIndex(servoVertical)
    }

    function HorizontalSlot(): int
      requires CameraServosOk()
      reads this
    {
      ServoSlot(servoHorizontal)
    }

    function VerticalSlot(): int
      requires CameraServosOk()
      reads this
    {
      ServoSlot(servoVertical)
    }

    /** `camera_toggle`: aim at the current preset, then advance. */
    method CameraToggle()
      requires CameraServosOk()
      modifies this`cameraPos, base.board`trace
      ensures cameraPos == PresetIndex(old(cameraPos)) + 1
      ensures cameraPos <= |CameraPresets|
      ensures base.board.trace == old(base.board.trace) + CameraToggleEvents(HorizontalSlot(), VerticalSlot(), old(cameraPos))
    {
      var max := |CameraPresets|;
      if cameraPos >= max {
        cameraPos := 0;
      }
      var pos := CameraPresets[cameraPos];
      var ok := base.board.Sleep(CameraPause);
      base.board.SetServo(servoHorizontal, pos.0);
      ok := base.board.Sleep(CameraPause);
      base.board.SetServo(servoVertical, pos.1);
      ok := base.board.Sleep(CameraPause);
      cameraPos := cameraPos + 1;
    }

    /** `look_angle(angle)`. */
    method LookAngle(angle: real)
      requires CameraServosOk()
      modifies base.board`trace
      ensures base.board.trace == old(base.board.trace) + LookAngleEvents(HorizontalSlot(), VerticalSlot(), angle)
    {
      var ok := base.board.Sleep(CameraPause);
      var a := angle;
      if a > 0.0 && a > 90.0 {
        a := 90.0;
      }
      if a < 0.0 && a < -90.0 {
        a := -90.0;
      }
      var position := a * PositionPerDegree;
      base.board.SetServo(servoHorizontal, position);
      base.board.SetServo(servoVertical, 0.0);
      ok := base.board.Sleep(CameraPause);
    }

    /** `say_yes`: nod. */
    method SayYes()
      requires CameraServosOk()
      modifies base.board`trace
      ensures base.board.trace == old(base.board.trace) + GestureEvents(HorizontalSlot(), VerticalSlot(), true)
    {
      LookAngle(0.0);
      base.board.SetServo(servoVertical, 60.0);
      base.board.SetServo(servoVertical, -60.0);
      base.board.SetServo(servoVertical, 60.0);
      LookAngle(0.0);
    }

    /** `say_no`: shake. */
    method SayNo()
      requires CameraServosOk()
      modifies base.board`trace
      ensures base.board.trace == old(base.board.trace) + GestureEvents(HorizontalSlot(), VerticalSlot(), false)
    {
      LookAngle(0.0);
      base.board.SetServo(servoHorizontal, 60.0);
      base.board.SetServo(servoHorizontal, -60.0);
      base.board.SetServo(servoHorizontal, 60.0);
      LookAngle(0.0);
    }
  }
}
