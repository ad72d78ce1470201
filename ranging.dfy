/** What the ultrasonic range finder reports: the two bounded polling loops of
    `_distance_measurement` and the unit selection of `read_distance`, stated
    over the echo line's successive reads and the clock's successive readings. */
module Ranging {
  import opened Config

  /** `max`: the iteration budget of each polling loop. */
  const PollLimit: nat := 10000
  /** Enough echo reads for both loops to run out. */
  const EchoBudget: nat := 2 * (PollLimit + 1)
  /** Enough clock readings for the two initial ones and both loops. */
  const ClockBudget: nat := 2 * (PollLimit + 1) + 2
  /** Half the speed of sound in air, in centimetres per second. */
  const HalfSoundSpeed: real := 17150.0
  const InchesPerCentimetre: real := 0.393701
  /** The reading that stands for a timed-out measurement. */
  const TimeoutSentinel: real := -1.0

  /** How many leading elements of `s` equal `level`, counting at most `cap`. */
  function LeadingRun(s: seq<bool>, level: bool, cap: nat): (n: nat)
    ensures n <= cap && n <= |s|
    ensures forall j :: 0 <= j < n ==> s[j] == level
    ensures n < cap && n < |s| ==> s[n] != level
    decreases cap
  {
    if cap == 0 || s == [] || s[0] != level then 0
    else 1 + LeadingRun(s[1..], level, cap - 1)
  }

  /** The three conditions above determine the run length. */
  lemma LeadingRunUnique(s: seq<bool>, level: bool, cap: nat, n: nat)
    requires n <= cap && n <= |s|
    requires forall j :: 0 <= j < n ==> s[j] == level
    requires n < cap && n < |s| ==> s[n] != level
    ensures LeadingRun(s, level, cap) == n
  {
  }

  /** The low reads the first loop consumes before the echo rises (PollLimit + 1: it gave up). */
  function LowRun(echo: seq<bool>): nat
  {
    LeadingRun(echo, false, PollLimit + 1)
  }

  /** The high reads the second loop consumes; its counter starts again at 0,
      and it starts at the read after the one that ended the first loop. */
  function HighRun(echo: seq<bool>): nat
    requires |echo| >= EchoBudget
    requires LowRun(echo) <= PollLimit
  {
    LeadingRun(echo[LowRun(echo) + 1..], true, PollLimit + 1)
  }

  /** The outcome of one measurement: a timeout, or the last clock readings
      taken in each loop (`pulse_start`, `pulse_end`). */
  datatype Echo = TimedOut | Pulse(start: real, end: real)

  /** Clock readings: [0] and [1] are taken before the loops; every pass of a
      loop body takes one more. */
  function Measure(echo: seq<bool>, clock: seq<real>): Echo
    requires |echo| >= EchoBudget && |clock| >= ClockBudget
  {
    var low := LowRun(echo);
    if low > PollLimit then TimedOut
    else
      var high := HighRun(echo);
      if high > PollLimit then TimedOut
      else Pulse(if low == 0 then clock[0] else clock[1 + low],
                 if high == 0 then clock[1] else clock[1 + low + high])
  }

  /** Echo reads the first loop performs. */
  function FirstLoopReads(echo: seq<bool>): (n: nat)
    ensures 1 <= n <= PollLimit + 1
  {
    var low := LowRun(echo);
    if low > PollLimit then low else low + 1
  }

  /** Echo reads the second loop performs (none if the first one timed out). */
  function SecondLoopReads(echo: seq<bool>): (n: nat)
    requires |echo| >= EchoBudget
    ensures n <= PollLimit + 1
  {
    if LowRun(echo) > PollLimit then 0
    else
      var high := HighRun(echo);
      if high > PollLimit then high else high + 1
  }

  function EchoReads(echo: seq<bool>): (n: nat)
    requires |echo| >= EchoBudget
    ensures n <= EchoBudget
  {
    FirstLoopReads(echo) + SecondLoopReads(echo)
  }

  function ClockReads(echo: seq<bool>): (n: nat)
    requires |echo| >= EchoBudget
    ensures n <= ClockBudget
  {
    var low := LowRun(echo);
    if low > PollLimit then 2 + low else 2 + low + HighRun(echo)
  }

  /** Python's `round(x, 2)` on an exact value: to the nearest hundredth, ties to even. */
  function Round2(x: real): (r: real)
    ensures -0.005 <= r - x <= 0.005
    ensures x >= 0.0 ==> r >= 0.0
    ensures x <= 0.0 ==> r <= 0.0
  {
    var y := x * 100.0;
    var f := y.Floor;
    var frac := y - f as real;
    var n := if frac > 0.5 then f + 1
             else if frac < 0.5 then f
             else if f % 2 == 0 then f else f + 1;
    n as real / 100.0
  }

  /** The value `_distance_measurement` returns. */
  function Reported(e: Echo): real
  {
    match e
    case TimedOut => TimeoutSentinel
    case Pulse(start, end) => Round2((end - start) * HalfSoundSpeed)
  }

  // ---------------------------------------------------------------------------
  // Timeouts

  /** The echo stays low for the first loop's whole budget. */
  predicate NeverRises(echo: seq<bool>)
    requires |echo| >= EchoBudget
  {
    forall j :: 0 <= j <= PollLimit ==> !echo[j]
  }

  /** The echo rises after `low` low reads, then stays high for the second
      loop's whole budget. */
  predicate StaysHighFrom(echo: seq<bool>, low: nat)
    requires |echo| >= EchoBudget && low <= PollLimit
  {
    (forall j :: 0 <= j < low ==> !echo[j]) && echo[low] &&
    (forall j :: low < j <= low + 1 + PollLimit ==> echo[j])
  }

  /** A measurement times out exactly when one of the loops exhausts its budget. */
  lemma TimeoutIff(echo: seq<bool>, clock: seq<real>)
    requires |echo| >= EchoBudget && |clock| >= ClockBudget
    ensures Measure(echo, clock) == TimedOut
        <==> NeverRises(echo) || exists low :: 0 <= low <= PollLimit && StaysHighFrom(echo, low)
  {
    var low := LowRun(echo);
    if low > PollLimit {
      assert NeverRises(echo);
    } else {
      assert echo[low] && !NeverRises(echo);
      var rest := echo[low + 1..];
      if Measure(echo, clock) == TimedOut {
        assert HighRun(echo) == PollLimit + 1;
        forall j | low < j <= low + 1 + PollLimit ensures echo[j] {
          assert echo[j] == rest[j - low - 1];
        }
        assert StaysHighFrom(echo, low);
      } else {
        // the second loop saw the echo fall at read low + 1 + h
        var h := HighRun(echo);
        assert !rest[h];
        assert !echo[low + 1 + h];
        forall other | 0 <= other <= PollLimit ensures !StaysHighFrom(echo, other) {
          if other < low {
            assert !echo[other];
          } else if other > low {
            assert echo[low];
          } else {
            assert low < low + 1 + h <= low + 1 + PollLimit;
          }
        }
      }
    }
  }

  /** An echo that never rises: the sentinel, after exactly PollLimit + 1 reads,
      none of them in a second loop. */
  lemma NeverRisingTimesOut(echo: seq<bool>, clock: seq<real>)
    requires |echo| >= EchoBudget && |clock| >= ClockBudget
    requires NeverRises(echo)
    ensures Measure(echo, clock) == TimedOut
    ensures Reported(Measure(echo, clock)) == TimeoutSentinel
    ensures EchoReads(echo) == PollLimit + 1 && SecondLoopReads(echo) == 0
  {
    LeadingRunUnique(echo, false, PollLimit + 1, PollLimit + 1);
  }

  /** An echo that rises on the last read of the first loop's budget does not
      time out early. */
  lemma LateRiseIsCaught(echo: seq<bool>)
    requires |echo| >= EchoBudget
    requires forall j :: 0 <= j < PollLimit ==> !echo[j]
    requires echo[PollLimit]
    ensures LowRun(echo) == PollLimit && FirstLoopReads(echo) == PollLimit + 1
  {
    LeadingRunUnique(echo, false, PollLimit + 1, PollLimit);
  }

  /** The second loop's counter restarts at 0: after `low` low reads (up to the
      whole first budget), the echo may stay high for another PollLimit reads
      without a timeout. */
  lemma CounterRestarts(echo: seq<bool>, clock: seq<real>, low: nat)
    requires |echo| >= EchoBudget && |clock| >= ClockBudget
    requires low <= PollLimit
    requires forall j :: 0 <= j < low ==> !echo[j]
    requires forall j :: low <= j <= low + PollLimit ==> echo[j]
    requires !echo[low + PollLimit + 1]
    ensures Measure(echo, clock)
         == Pulse(if low == 0 then clock[0] else clock[1 + low], clock[1 + low + PollLimit])
    ensures EchoReads(echo) == low + PollLimit + 2
  {
    LeadingRunUnique(echo, false, PollLimit + 1, low);
    var rest := echo[low + 1..];
    forall j | 0 <= j < PollLimit ensures rest[j] {
      assert rest[j] == echo[low + 1 + j];
    }
    assert !rest[PollLimit];
    LeadingRunUnique(rest, true, PollLimit + 1, PollLimit);
  }

  // ---------------------------------------------------------------------------
  // The three ways a measurement ends, in terms of the reads themselves

  /** The first loop gives up: the sentinel, after PollLimit + 1 echo reads and
      PollLimit + 3 clock readings. */
  lemma FirstLoopGivesUp(echo: seq<bool>, clock: seq<real>)
    requires |echo| >= EchoBudget && |clock| >= ClockBudget
    requires forall j :: 0 <= j <= PollLimit ==> !echo[j]
    ensures Measure(echo, clock) == TimedOut
    ensures EchoReads(echo) == PollLimit + 1 && ClockReads(echo) == PollLimit + 3
  {
    LeadingRunUnique(echo, false, PollLimit + 1, PollLimit + 1);
  }

  /** The echo rises after `low` low reads and then stays high through the
      second loop's whole budget: the sentinel again. */
  lemma SecondLoopGivesUp(echo: seq<bool>, clock: seq<real>, low: nat)
    requires |echo| >= EchoBudget && |clock| >= ClockBudget && low <= PollLimit
    requires StaysHighFrom(echo, low)
    ensures Measure(echo, clock) == TimedOut
    ensures EchoReads(echo) == low + PollLimit + 2 && ClockReads(echo) == low + PollLimit + 3
  {
    LeadingRunUnique(echo, false, PollLimit + 1, low);
    var rest := echo[low + 1..];
    forall j | 0 <= j <= PollLimit ensures rest[j] {
      assert rest[j] == echo[low + 1 + j];
    }
    LeadingRunUnique(rest, true, PollLimit + 1, PollLimit + 1);
  }

  /** `low` low reads, a rise, `high` further high reads and a fall: a pulse
      timed by the last clock reading of each loop (or the initial ones when a
      loop body never ran). */
  lemma PulseTimed(echo: seq<bool>, clock: seq<real>, low: nat, high: nat)
    requires |echo| >= EchoBudget && |clock| >= ClockBudget && low <= PollLimit && high <= PollLimit
    requires forall j :: 0 <= j < low ==> !echo[j]
    requires echo[low]
    requires forall j :: low < j <= low + high ==> echo[j]
    requires !echo[low + 1 + high]
    ensures Measure(echo, clock)
         == Pulse(if low == 0 then clock[0] else clock[1 + low],
                  if high == 0 then clock[1] else clock[1 + low + high])
    ensures EchoReads(echo) == low + high + 2 && ClockReads(echo) == low + high + 2
  {
    LeadingRunUnique(echo, false, PollLimit + 1, low);
    assert LowRun(echo) == low;
    var rest := echo[low + 1..];
    forall j | 0 <= j < high ensures rest[j] {
      assert rest[j] == echo[low + 1 + j];
    }
    assert !rest[high];
    LeadingRunUnique(rest, true, PollLimit + 1, high);
    assert HighRun(echo) == high;
  }

  // ---------------------------------------------------------------------------
  // The sign of a reading

  predicate Nondecreasing(clock: seq<real>)
  {
    forall i, j :: 0 <= i <= j < |clock| ==> clock[i] <= clock[j]
  }

  /** The echo rose after at least one low read, and fell again before the
      second loop's first read: that loop never updates `pulse_end`, which
      still holds the clock reading taken before the first loop. */
  predicate MissedPulse(echo: seq<bool>)
    requires |echo| >= EchoBudget
  {
    1 <= LowRun(echo) <= PollLimit && HighRun(echo) == 0
  }

  /** With a clock that never goes back, a reading that is not the sentinel is
      non-negative, except for a missed pulse, which reads zero or less. */
  lemma ReadingSign(echo: seq<bool>, clock: seq<real>)
    requires |echo| >= EchoBudget && |clock| >= ClockBudget
    requires Nondecreasing(clock)
    requires Measure(echo, clock).Pulse?
    ensures MissedPulse(echo) ==> Reported(Measure(echo, clock)) <= 0.0
    ensures !MissedPulse(echo) ==> Reported(Measure(echo, clock)) >= 0.0
  {
    var m := Measure(echo, clock);
    assert m.end >= m.start <== !MissedPulse(echo);
    assert m.end <= m.start <== MissedPulse(echo);
  }

  // ---------------------------------------------------------------------------
  // Units

  function LowerChar(c: char): char
  {
    if 'A' <= c <= 'Z' then (c as int + 32) as char else c
  }

  /** `str.lower()` on ASCII letters. */
  function Lower(s: string): (r: string)
    ensures |r| == |s|
    ensures forall i :: 0 <= i < |s| ==> r[i] == LowerChar(s[i])
  {
    seq(|s|, i requires 0 <= i < |s| => LowerChar(s[i]))
  }

  /** `config.get("measurement_system").lower()`, or "m" when that raises
      (the key is missing, or its value is not a string). */
  function MeasurementSystem(doc: Doc): string
  {
    if "measurement_system" in doc && doc["measurement_system"].JStr?
    then Lower(doc["measurement_system"].s)
    else "m"
  }

  predicate Imperial(doc: Doc)
  {
    var system := MeasurementSystem(doc);
    system == "r" || system == "i" || system == "b"
  }

  /** The unit conversion of `read_distance`; it applies to the sentinel too. */
  function InConfiguredUnit(doc: Doc, distance: real): real
  {
    if Imperial(doc) then distance * InchesPerCentimetre else distance
  }

  /** Exactly six configured values select inches. */
  lemma ImperialTokens(doc: Doc)
    ensures Imperial(doc)
        <==> "measurement_system" in doc
             && doc["measurement_system"] in {JStr("r"), JStr("R"), JStr("i"), JStr("I"), JStr("b"), JStr("B")}
  {
    if "measurement_system" in doc && doc["measurement_system"].JStr? {
      var s := doc["measurement_system"].s;
      var l := Lower(s);
      if l == "r" || l == "i" || l == "b" {
        assert |s| == 1;
        assert s == [s[0]];
      }
    }
  }

  /** Under an imperial setting a timeout is reported as -0.393701, not as -1. */
  lemma ImperialSentinel(doc: Doc)
    requires Imperial(doc)
    ensures InConfiguredUnit(doc, Reported(TimedOut)) == -0.393701
    ensures InConfiguredUnit(doc, Reported(TimedOut)) != TimeoutSentinel
  {
  }

  /** A missing or non-string setting leaves centimetres. */
  lemma DefaultIsCentimetres(doc: Doc, distance: real)
    requires "measurement_system" !in doc || !doc["measurement_system"].JStr?
    ensures InConfiguredUnit(doc, distance) == distance
  {
  }
}
