/** The observable effects of the robot's commands, recorded in order. The
    hardware libraries (rcpy servos and motors, Adafruit GPIO, the clock and the
    file system) appear only through these events. */
module Events {

  datatype Option<T> = None | Some(value: T)

  datatype Event =
    | ServoSet(channel: int, position: real)  // a servo's normalised position
    | MotorSet(channel: int, duty: real)      // a motor's signed duty cycle
    | Sleep(seconds: real)                    // a blocking delay
    | CreateFile(name: string)                // an empty command file for the balancing daemon
    | TriggerPulse                            // the ranging trigger: high, 10 microseconds, low

  /** An output channel that a write can address. */
  datatype Actuator = Servo(channel: int) | Motor(channel: int)

  /** The value `e` writes to `act`, if it writes to it. */
  function Written(e: Event, act: Actuator): Option<real>
  {
    match e
    case ServoSet(c, p) => if act == Servo(c) then Some(p) else None
    case MotorSet(c, d) => if act == Motor(c) then Some(d) else None
    case _ => None
  }

  /** The last value written to `act` in `t`: where the actuator is left. */
  function LastSet(t: seq<Event>, act: Actuator): Option<real>
  {
    if t == [] then None
    else
      match Written(t[|t| - 1], act)
      case Some(x) => Some(x)
      case None => LastSet(t[..|t| - 1], act)
  }

  /** The total time `t` blocks the caller: the modelled duration of a command. */
  function Duration(t: seq<Event>): real
  {
    if t == [] then 0.0
    else Duration(t[..|t| - 1]) + (if t[|t| - 1].Sleep? then t[|t| - 1].seconds else 0.0)
  }

  /** The command files `t` creates, in order. */
  function Files(t: seq<Event>): seq<string>
  {
    if t == [] then []
    else Files(t[..|t| - 1]) + (if t[|t| - 1].CreateFile? then [t[|t| - 1].name] else [])
  }

  lemma {:induction false} LastSetAppend(a: seq<Event>, b: seq<Event>, act: Actuator)
    ensures LastSet(a + b, act) == if LastSet(b, act).Some? then LastSet(b, act) else LastSet(a, act)
    decreases |b|
  {
    if b == [] {
      assert a + b == a;
    } else {
      assert (a + b)[..|a + b| - 1] == a + b[..|b| - 1];
      LastSetAppend(a, b[..|b| - 1], act);
    }
  }

  lemma {:induction false} DurationAppend(a: seq<Event>, b: seq<Event>)
    ensures Duration(a + b) == Duration(a) + Duration(b)
    decreases |b|
  {
    if b == [] {
      assert a + b == a;
    } else {
      assert (a + b)[..|a + b| - 1] == a + b[..|b| - 1];
      DurationAppend(a, b[..|b| - 1]);
    }
  }

  lemma {:induction false} FilesAppend(a: seq<Event>, b: seq<Event>)
    ensures Files(a + b) == Files(a) + Files(b)
    decreases |b|
  {
    if b == [] {
      assert a + b == a;
    } else {
      assert (a + b)[..|a + b| - 1] == a + b[..|b| - 1];
      FilesAppend(a, b[..|b| - 1]);
    }
  }

  /** A trace's three summaries compose over concatenation. */
  lemma AppendFacts(a: seq<Event>, b: seq<Event>, act: Actuator)
    ensures Duration(a + b) == Duration(a) + Duration(b)
    ensures Files(a + b) == Files(a) + Files(b)
    ensures LastSet(a + b, act) == if LastSet(b, act).Some? then LastSet(b, act) else LastSet(a, act)
  {
    DurationAppend(a, b);
    FilesAppend(a, b);
    LastSetAppend(a, b, act);
  }

  /** The three summaries of a single event. */
  lemma SingleFacts(e: Event)
    ensures Duration([e]) == if e.Sleep? then e.seconds else 0.0
    ensures Files([e]) == if e.CreateFile? then [e.name] else []
    ensures forall act :: LastSet([e], act) == Written(e, act)
  {
    assert [e][..0] == [];
  }

  /** The write at index `k` is the last one to `act`: it decides where `act` is left. */
  lemma {:induction false} LastWriteAt(t: seq<Event>, act: Actuator, k: nat)
    requires k < |t| && Written(t[k], act).Some?
    requires forall j :: k < j < |t| ==> Written(t[j], act) == None
    ensures LastSet(t, act) == Written(t[k], act)
    decreases |t|
  {
    if k < |t| - 1 {
      var p := t[..|t| - 1];
      assert forall j :: k < j < |p| ==> p[j] == t[j];
      LastWriteAt(p, act, k);
    }
  }

  /** An actuator that `t` never writes keeps no value from `t`. */
  lemma {:induction false} NoWrites(t: seq<Event>, act: Actuator)
    requires forall j :: 0 <= j < |t| ==> Written(t[j], act) == None
    ensures LastSet(t, act) == None
    decreases |t|
  {
    if t != [] {
      var p := t[..|t| - 1];
      assert forall j :: 0 <= j < |p| ==> p[j] == t[j];
      NoWrites(p, act);
    }
  }

  /** When every write to `act` in `t` writes `x`, and there is one, `act` is left at `x`. */
  lemma {:induction false} UniformWrites(t: seq<Event>, act: Actuator, x: real, k: nat)
    requires k < |t| && Written(t[k], act) == Some(x)
    requires forall j :: 0 <= j < |t| ==> Written(t[j], act) in {None, Some(x)}
    ensures LastSet(t, act) == Some(x)
    decreases |t|
  {
    if Written(t[|t| - 1], act) == None {
      var p := t[..|t| - 1];
      assert forall j :: 0 <= j < |p| ==> p[j] == t[j];
      UniformWrites(p, act, x, k);
    }
  }

  /** Motor writes in the order given, one per channel. */
  function MotorWrites(channels: seq<int>, duties: seq<real>): (w: seq<Event>)
    requires |channels| == |duties|
    ensures |w| == |channels|
    ensures forall k :: 0 <= k < |w| ==> w[k] == MotorSet(channels[k], duties[k])
  {
    seq(|channels|, k requires 0 <= k < |channels| => MotorSet(channels[k], duties[k]))
  }

  /** Motor writes neither block nor touch a servo or a file. */
  lemma {:induction false} MotorWritesInert(channels: seq<int>, duties: seq<real>, c: int)
    requires |channels| == |duties|
    ensures Duration(MotorWrites(channels, duties)) == 0.0
    ensures Files(MotorWrites(channels, duties)) == []
    ensures LastSet(MotorWrites(channels, duties), Servo(c)) == None
    decreases |channels|
  {
    var w := MotorWrites(channels, duties);
    if channels != [] {
      var n := |channels| - 1;
      assert w[..n] == MotorWrites(channels[..n], duties[..n]);
      MotorWritesInert(channels[..n], duties[..n], c);
    }
  }

  /** `a` is `b` with every motor duty negated and everything else identical. */
  predicate Mirrored(a: seq<Event>, b: seq<Event>)
  {
    |a| == |b| &&
    forall k :: 0 <= k < |a| ==>
      (if b[k].MotorSet? then a[k] == MotorSet(b[k].channel, -b[k].duty) else a[k] == b[k])
  }
}
