/**
  The valve controller (controller hub): the two reservoir level switches,
  the telemetry code and display icon derived from them, and the `loop()`
  session state machine that drives the irrigation relay.

  One call of `loop()` is modelled as one tick. The radio, the level switches,
  the clock and the flow sensor are read once per tick and arrive as a
  `TickInput`; the tick produces the new session state and the telemetry
  reports it sends (each with the acknowledgement result of that send).
 */
module ControllerHub {
  import opened Network

  // ---------------------------------------------------------------------
  // Reservoir level switches
  // ---------------------------------------------------------------------

  /** The raw `digitalRead` values of the empty-level and full-level pins. */
  datatype Switches = Switches(emptyPin: bool, fullPin: bool)

  /** `isEmpty()`: the empty switch reads LOW. */
  predicate IsEmpty(sw: Switches) { !sw.emptyPin }

  /** `isFull()`: the full switch reads HIGH. */
  predicate IsFull(sw: Switches) { sw.fullPin }

  /** `MUST_BE_FULL_TO_START` as configured in this deployment (0). */
  const MUST_BE_FULL_TO_START: bool := false

  /** `checkLevel(mustBeFull)`: the start guard on the reservoir. */
  predicate CheckLevel(mustBeFull: bool, sw: Switches)
  {
    if mustBeFull then IsFull(sw) && !IsEmpty(sw) else !IsEmpty(sw)
  }

  /** The strict start policy implies the lenient one, which is just "not empty". */
  lemma CheckLevelPolicies(sw: Switches)
    ensures CheckLevel(true, sw) ==> CheckLevel(false, sw)
    ensures CheckLevel(false, sw) <==> !IsEmpty(sw)
    ensures CheckLevel(true, sw) <==> IsFull(sw) && !IsEmpty(sw)
  {
  }

  /**
    The `reservoir_level` code `returnStatus()` puts in a report: 2 when the
    full switch is asserted (whatever the empty switch says), 1 when neither
    is, 0 when only the empty switch is. The three tests of the source cover
    every combination, so the field is always assigned.
   */
  function ReservoirCode(sw: Switches): (code: uint8)
    ensures code <= 2
    ensures code == 2 <==> IsFull(sw)
    ensures code == 1 <==> !IsFull(sw) && !IsEmpty(sw)
    ensures code == 0 <==> !IsFull(sw) && IsEmpty(sw)
  {
    if IsFull(sw) then 2
    else if !IsEmpty(sw) then 1
    else 0
  }

  /** The level bitmaps `displayIrri()` can draw. */
  datatype LevelIcon = FillState4 | FillState2 | FillState1 | ErrorIcon

  /** `displayIrri()`'s choice of level icon. */
  function DisplayIcon(sw: Switches): LevelIcon
  {
    if IsFull(sw) && !IsEmpty(sw) then FillState4
    else if !IsFull(sw) && !IsEmpty(sw) then FillState2
    else if !IsFull(sw) && IsEmpty(sw) then FillState1
    else ErrorIcon
  }

  /** The icon that shows a reservoir code. */
  function IconForCode(code: uint8): LevelIcon
  {
    if code == 2 then FillState4 else if code == 1 then FillState2 else FillState1
  }

  /**
    The display shows the error icon exactly when both switches are asserted,
    a combination the telemetry reports as 2 (full); on the other three
    combinations the icon and the telemetry code agree.
   */
  lemma IconAgreesWithCode(sw: Switches)
    ensures DisplayIcon(sw) == ErrorIcon <==> IsFull(sw) && IsEmpty(sw)
    ensures IsFull(sw) && IsEmpty(sw) ==> ReservoirCode(sw) == 2
    ensures !(IsFull(sw) && IsEmpty(sw)) ==> DisplayIcon(sw) == IconForCode(ReservoirCode(sw))
  {
  }

  // ---------------------------------------------------------------------
  // Session state and one tick of loop()
  // ---------------------------------------------------------------------

  /**
    The globals `loop()` reads and writes. `relayOff` is `relayStatus1 == HIGH`
    (HIGH switches the relay off); `rtime` is the requested duration in
    seconds, `elapsedTime` the seconds counted so far and `rtimeCounter` the
    `millis()` value of the last counted second. The flow fields are the flow
    accumulator's; `exitRoutine` holds the result of the last report.
   */
  datatype Session = Session(
    relayOff: bool,
    rtime: uint32,
    rtimeCounter: uint32,
    elapsedTime: uint32,
    exitRoutine: bool,
    flowRate: real,
    flowLitres: real,
    totalLitres: real,
    pulseCount: uint8,
    oldFlowTime: uint32)

  /** The globals at power-up: relay off, everything else zero. */
  const INITIAL: Session := Session(true, 0, 0, 0, false, 0.0, 0.0, 0.0, 0, 0)

  /**
    What one iteration of `loop()` observes: the command the radio holds (if
    any), the `millis()` clock, the level switches, whether a report sent in
    this iteration is acknowledged, and the flow rate (litres per minute)
    the flow accumulator would compute if it samples in this iteration.
   */
  datatype TickInput = TickInput(
    command: Option<ActuatorCommand>,
    now: uint32,
    switches: Switches,
    ack: bool,
    sampledRate: real)

  predicate ValidInput(t: TickInput) { t.sampledRate >= 0.0 }

  /**
    The session invariant: flow values are non-negative, and while the relay
    is on with a non-zero duration the seconds counted stay below it.
   */
  predicate Valid(s: Session)
  {
    && s.flowRate >= 0.0 && s.flowLitres >= 0.0 && s.totalLitres >= 0.0
    && (!s.relayOff && s.rtime >= 1 ==> s.elapsedTime < s.rtime)
  }

  /** The new session state and the reports sent, in order. */
  datatype Step = Step(s: Session, sends: seq<ActuatorData>)

  /** The report `returnStatus()` builds from the current state. */
  function Report(s: Session, sw: Switches): ActuatorData
  {
    ActuatorData(s.totalLitres, ReservoirCode(sw))
  }

  /** The flow values a received command resets, together with `exitRoutine`. */
  function ResetCounters(s: Session): Session
  {
    s.(flowRate := 0.0, flowLitres := 0.0, totalLitres := 0.0, pulseCount := 0, oldFlowTime := 0, exitRoutine := false)
  }

  /**
    First step of `loop()`: a command that arrives while the relay is off resets
    the counters and either starts a session (status true and the level check
    passes; the timer is taken as is, 0 included) or sends one report; a
    command that arrives while the relay is on stops it only when its status
    is false.
   */
  function ReceivePhase(s: Session, t: TickInput): (r: Step)
    ensures t.command.Some? && s.relayOff ==>
      && r.s.flowRate == 0.0 && r.s.flowLitres == 0.0 && r.s.totalLitres == 0.0
      && r.s.pulseCount == 0 && r.s.oldFlowTime == 0
      && (r.s.exitRoutine ==> t.ack)
  {
    match t.command
    case None => Step(s, [])
    case Some(cmd) =>
      if s.relayOff then
        var z := ResetCounters(s);
        if CheckLevel(MUST_BE_FULL_TO_START, t.switches) && cmd.status then
          Step(z.(relayOff := false, rtime := cmd.timer, rtimeCounter := t.now, elapsedTime := 0), [])
        else
          Step(z.(exitRoutine := t.ack), [Report(z, t.switches)])
      else if !cmd.status then
        Step(s.(relayOff := true, exitRoutine := t.ack), [Report(s, t.switches)])
      else
        Step(s, [])
  }

  /** A second is due when more than 1000 ms passed since `since`. */
  predicate SecondDue(since: uint32, now: uint32)
  {
    ElapsedMillis(since, now) > 1000
  }

  /**
    Second step: while the relay is on and a second is due, count one more
    second (as a 32-bit counter) and stop with one report when the count
    reaches the requested duration.
   */
  function TimerPhase(s: Session, t: TickInput): (r: Step)
  {
    if SecondDue(s.rtimeCounter, t.now) && !s.relayOff then
      var e := (s.elapsedTime + 1) % U32_RANGE;
      if e == s.rtime then
        Step(s.(elapsedTime := e, relayOff := true, exitRoutine := t.ack, rtimeCounter := t.now), [Report(s, t.switches)])
      else
        Step(s.(elapsedTime := e, rtimeCounter := t.now), [])
    else
      Step(s, [])
  }

  /** Third step: an empty reservoir while the relay is on stops it with one report. */
  function LevelPhase(s: Session, t: TickInput): (r: Step)
  {
    if IsEmpty(t.switches) && !s.relayOff then
      Step(s.(relayOff := true, exitRoutine := t.ack), [Report(s, t.switches)])
    else
      Step(s, [])
  }

  /**
    Fourth step: while the relay is on, once per second the flow accumulator
    takes a sample; the total grows by the litres of that second.
   */
  function FlowPhase(s: Session, t: TickInput): (r: Session)
  {
    if ElapsedMillis(s.oldFlowTime, t.now) > 1000 && !s.relayOff then
      var litres := t.sampledRate / 60.0;
      s.(flowRate := t.sampledRate, flowLitres := litres, totalLitres := s.totalLitres + litres,
         oldFlowTime := t.now, pulseCount := 0)
    else
      s
  }

  /**
    One iteration of `loop()`. Each of the three stopping steps switches the
    relay off before the next step runs and every later step requires it on,
    so an iteration sends at most one report, and every report comes with the
    relay off. An empty reservoir leaves the relay off at the end of the
    iteration; if the relay was on, exactly one report goes out, carrying the
    litres counted so far and the reservoir code. The session invariant is
    kept.
   */
  function Tick(s: Session, t: TickInput): (r: Step)
    requires ValidInput(t)
    ensures |r.sends| <= 1
    ensures |r.sends| == 1 ==> r.s.relayOff && r.s.exitRoutine == t.ack
    ensures IsEmpty(t.switches) ==> r.s.relayOff
    ensures !s.relayOff && IsEmpty(t.switches) ==>
      r.sends == [ActuatorData(s.totalLitres, ReservoirCode(t.switches))]
    ensures Valid(s) ==> Valid(r.s)
  {
    var a := ReceivePhase(s, t);
    var b := TimerPhase(a.s, t);
    var c := LevelPhase(b.s, t);
    Step(FlowPhase(c.s, t), a.sends + b.sends + c.sends)
  }

  /**
    One iteration while the relay is off: without a command nothing changes;
    with any command the counters are reset, and the session starts exactly
    when the status is true and the level check passes (no guard on the
    timer). Otherwise the relay stays off and exactly one report is sent
    whose result lands in `exitRoutine`: a stop command while idle is not a
    no-op.
   */
  lemma TickWhileOff(s: Session, t: TickInput)
    requires Valid(s) && ValidInput(t) && s.relayOff
    ensures var r := Tick(s, t);
      && (t.command.None? ==> r == Step(s, []))
      && (t.command.Some? ==>
            (!r.s.relayOff <==> t.command.value.status && CheckLevel(MUST_BE_FULL_TO_START, t.switches)))
      && (t.command.Some? && !r.s.relayOff ==>
            && r.s.rtime == t.command.value.timer && r.s.elapsedTime == 0 && r.s.rtimeCounter == t.now
            && r.sends == [] && !r.s.exitRoutine && r.s.pulseCount == 0)
      && (t.command.Some? && r.s.relayOff ==>
            && r.s == ResetCounters(s).(exitRoutine := t.ack)
            && r.sends == [ActuatorData(0.0, ReservoirCode(t.switches))])
  {
  }

  /** Timing and stopping while the relay is on, as one tick sees it. */
  lemma TickWhileOn(s: Session, t: TickInput)
    requires Valid(s) && ValidInput(t) && !s.relayOff
    ensures t.command.Some? && t.command.value.status ==> Tick(s, t) == Tick(s, t.(command := None))
    ensures var r := Tick(s, t);
      && (t.command.Some? && !t.command.value.status ==> r.s.relayOff && |r.sends| == 1)
      && (!r.s.relayOff ==> r.s.rtime == s.rtime)
      && (!r.s.relayOff && SecondDue(s.rtimeCounter, t.now) ==> r.s.elapsedTime == (s.elapsedTime + 1) % U32_RANGE)
      && (!r.s.relayOff && !SecondDue(s.rtimeCounter, t.now) ==> r.s.elapsedTime == s.elapsedTime)
      && ((t.command.None? || t.command.value.status) && SecondDue(s.rtimeCounter, t.now) && s.elapsedTime + 1 == s.rtime
          ==> r.s.relayOff && r.s.elapsedTime == s.rtime && |r.sends| == 1)
      && ((t.command.None? || t.command.value.status) && !IsEmpty(t.switches) && s.rtime == 0 && s.elapsedTime + 1 < U32_RANGE
          ==> !r.s.relayOff)
  {
  }

  // ---------------------------------------------------------------------
  // Several ticks
  // ---------------------------------------------------------------------

  predicate ValidInputs(ts: seq<TickInput>) { forall i :: 0 <= i < |ts| ==> ValidInput(ts[i]) }

  /** The state after a sequence of iterations and every report sent on the way. */
  function Run(s: Session, ts: seq<TickInput>): (r: Step)
    requires ValidInputs(ts)
    decreases |ts|
  {
    if ts == [] then Step(s, [])
    else
      var first := Tick(s, ts[0]);
      var rest := Run(first.s, ts[1..]);
      Step(rest.s, first.sends + rest.sends)
  }

  /** Never more reports than iterations, and the invariant holds throughout. */
  lemma {:induction false} RunBounds(s: Session, ts: seq<TickInput>)
    requires ValidInputs(ts)
    ensures |Run(s, ts).sends| <= |ts|
    ensures Valid(s) ==> Valid(Run(s, ts).s)
    decreases |ts|
  {
    if ts != [] {
      RunBounds(Tick(s, ts[0]).s, ts[1..]);
    }
  }

  /** Iterations with no command and a reservoir that is not empty. */
  predicate Quiet(ts: seq<TickInput>)
  {
    forall i :: 0 <= i < |ts| ==> ts[i].command.None? && !IsEmpty(ts[i].switches) && ValidInput(ts[i])
  }

  /** Each iteration comes more than a second after the previous one (the first after `since`). */
  predicate DueChain(since: uint32, ts: seq<TickInput>)
    decreases |ts|
  {
    ts == [] || (SecondDue(since, ts[0].now) && DueChain(ts[0].now, ts[1..]))
  }

  /**
    A running session left alone counts one second per due iteration and stays
    on while the count is below the requested duration; with duration 0 it
    stays on for as long as the 32-bit counter does not wrap back to 0.
   */
  lemma {:induction false} QuietRunKeepsCounting(s: Session, ts: seq<TickInput>)
    requires Valid(s) && !s.relayOff && Quiet(ts) && DueChain(s.rtimeCounter, ts)
    requires s.elapsedTime + |ts| < s.rtime || (s.rtime == 0 && s.elapsedTime + |ts| < U32_RANGE)
    ensures var r := Run(s, ts);
      !r.s.relayOff && r.s.elapsedTime == s.elapsedTime + |ts| && r.s.rtime == s.rtime && r.sends == []
    decreases |ts|
  {
    if ts != [] {
      var first := Tick(s, ts[0]);
      assert first.s.elapsedTime == s.elapsedTime + 1 && !first.s.relayOff && first.sends == [];
      assert first.s.rtimeCounter == ts[0].now;
      QuietRunKeepsCounting(first.s, ts[1..]);
    }
  }

  /**
    A running session with duration D >= 1 left alone switches the relay off
    after exactly D - elapsedTime due iterations, with elapsedTime == D and one
    report.
   */
  lemma {:induction false} QuietRunTimesOut(s: Session, ts: seq<TickInput>)
    requires Valid(s) && !s.relayOff && s.rtime >= 1 && Quiet(ts) && DueChain(s.rtimeCounter, ts)
    requires |ts| == s.rtime - s.elapsedTime
    ensures var r := Run(s, ts);
      r.s.relayOff && r.s.elapsedTime == s.rtime && |r.sends| == 1
    decreases |ts|
  {
    var first := Tick(s, ts[0]);
    if |ts| == 1 {
      assert first.s.relayOff && first.s.elapsedTime == s.rtime && |first.sends| == 1;
      assert Run(first.s, ts[1..]) == Step(first.s, []);
    } else {
      assert first.s.elapsedTime == s.elapsedTime + 1 && !first.s.relayOff && first.sends == [];
      assert first.s.rtimeCounter == ts[0].now;
      QuietRunTimesOut(first.s, ts[1..]);
    }
  }

  // ---------------------------------------------------------------------
  // The controller as the source runs it: globals updated in place
  // ---------------------------------------------------------------------

  class Controller {
    var relayOff: bool
    var rtime: uint32
    var rtimeCounter: uint32
    var elapsedTime: uint32
    var exitRoutine: bool
    var flowRate: real
    var flowLitres: real
    var totalLitres: real
    var pulseCount: uint8
    var oldFlowTime: uint32

    /** The globals as one value. */
    function State(): Session
      reads this
    {
      Session(relayOff, rtime, rtimeCounter, elapsedTime, exitRoutine,
              flowRate, flowLitres, totalLitres, pulseCount, oldFlowTime)
    }

    /** Power-up: `relayStatus1 = 1` (off), every other global zero. */
    constructor ()
      ensures State() == INITIAL && Valid(State())
    {
      relayOff, rtime, rtimeCounter, elapsedTime, exitRoutine := true, 0, 0, 0, false;
      flowRate, flowLitres, totalLitres, pulseCount, oldFlowTime := 0.0, 0.0, 0.0, 0, 0;
    }

    /** `returnStatus()`: builds the report and records whether it was acknowledged. */
    method ReturnStatus(sw: Switches, ack: bool) returns (data: ActuatorData)
      modifies this`exitRoutine
      ensures data == Report(old(State()), sw) && exitRoutine == ack
    {
      var level: uint8 := 0;
      if IsFull(sw) {
        level := 2;
      } else if !IsFull(sw) && !IsEmpty(sw) {
        level := 1;
      } else if IsEmpty(sw) {
        level := 0;
      }
      data := ActuatorData(totalLitres, level);
      exitRoutine := ack;
    }

    /** Lines 128-171 of `loop()`: a command on the radio, if any. */
    method ReceiveCommand(t: TickInput) returns (sends: seq<ActuatorData>)
      modifies this
      ensures State() == ReceivePhase(old(State()), t).s
      ensures sends == ReceivePhase(old(State()), t).sends
    {
      sends := [];
      if t.command.Some? && relayOff {
        var command := t.command.value;
        flowRate, flowLitres, totalLitres, pulseCount, oldFlowTime := 0.0, 0.0, 0.0, 0, 0;
        exitRoutine := false;
        if CheckLevel(MUST_BE_FULL_TO_START, t.switches) && command.status {
          relayOff := false;
          rtime := command.timer;
          rtimeCounter := t.now;
          elapsedTime := 0;
        } else {
          var data := ReturnStatus(t.switches, t.ack);
          sends := [data];
        }
      } else if t.command.Some? && !relayOff {
        var command := t.command.value;
        if !command.status {
          relayOff := true;
          var data := ReturnStatus(t.switches, t.ack);
          sends := [data];
        }
      }
    }

    /** Lines 173-186: count a second while the relay is on. */
    method CountSecond(t: TickInput) returns (sends: seq<ActuatorData>)
      modifies this
      ensures State() == TimerPhase(old(State()), t).s
      ensures sends == TimerPhase(old(State()), t).sends
    {
      sends := [];
      if SecondDue(rtimeCounter, t.now) && !relayOff {
        elapsedTime := (elapsedTime + 1) % U32_RANGE;
        if elapsedTime == rtime {
          relayOff := true;
          var data := ReturnStatus(t.switches, t.ack);
          sends := [data];
        }
        rtimeCounter := t.now;
      }
    }

    /** Lines 188-197: stop when the reservoir runs empty. */
    method CheckWaterLevel(t: TickInput) returns (sends: seq<ActuatorData>)
      modifies this
      ensures State() == LevelPhase(old(State()), t).s
      ensures sends == LevelPhase(old(State()), t).sends
    {
      sends := [];
      if IsEmpty(t.switches) && !relayOff {
        relayOff := true;
        var data := ReturnStatus(t.switches, t.ack);
        sends := [data];
      }
    }

    /** Lines 199-203: one flow sample per second while the relay is on. */
    method SampleFlow(t: TickInput)
      modifies this
      ensures State() == FlowPhase(old(State()), t)
    {
      if ElapsedMillis(oldFlowTime, t.now) > 1000 && !relayOff {
        flowRate := t.sampledRate;
        oldFlowTime := t.now;
        flowLitres := flowRate / 60.0;
        totalLitres := totalLitres + flowLitres;
        pulseCount := 0;
      }
    }

    /** One iteration of `loop()`. */
    method Loop(t: TickInput) returns (sends: seq<ActuatorData>)
      requires ValidInput(t)
      modifies this
      ensures State() == Tick(old(State()), t).s
      ensures sends == Tick(old(State()), t).sends
    {
      var received := ReceiveCommand(t);
      var timedOut := CountSecond(t);
      var emptied := CheckWaterLevel(t);
      SampleFlow(t);
      sends := received + timedOut + emptied;
    }
  }
}
