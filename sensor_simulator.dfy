/**
  The in-ground sensor simulator (`MMSimulator`): every time more than eight
  seconds have passed since the previous transmission it sends one reading to
  the base on the next of the three sensor pipes 2, 3 and 4, and shows the
  outcome of the send on two LEDs.
 */
module SensorSimulator {
  import opened Network

  /** A digital output level. */
  datatype Level = LOW | HIGH

  /** The send gate: `millis() - timer > 8*1000`. */
  const SEND_INTERVAL: int := 8 * 1000

  /** The globals `timer` and `pip` and the two LED outputs. */
  datatype SimState = SimState(timer: uint32, pip: uint8, led1: Level, led2: Level)

  /** After `setup`: `timer` zero-initialised, `pip = 2`, both LEDs HIGH. */
  const START: SimState := SimState(0, 2, HIGH, HIGH)

  predicate IsSensorPip(p: int) { 2 <= p <= 4 }

  /** Lines 84-85: `pip += 1`, and 5 wraps back to 2. */
  function NextPip(p: uint8): (q: uint8)
    requires IsSensorPip(p)
    ensures IsSensorPip(q)
    ensures q == if p == 4 then 2 else p + 1
  {
    var n := (p + 1) % U8_RANGE;
    if n == 5 then 2 else n
  }

  /** Lines 72-81: the LEDs show the outcome of the send, never the same level. */
  function ShowOutcome(sent: bool): (leds: (Level, Level))
    ensures leds.0 != leds.1
    ensures leds.0 == HIGH <==> sent
  {
    if sent then (HIGH, LOW) else (LOW, HIGH)
  }

  /** What one call of `loop()` does, with the pipe index it sends on, if any. */
  function Step(s: SimState, now: uint32, ack: bool): (r: (SimState, Option<uint8>))
    requires IsSensorPip(s.pip)
    ensures IsSensorPip(r.0.pip)
    ensures r.1.Some? <==> ElapsedMillis(s.timer, now) > SEND_INTERVAL
    ensures r.1.Some? ==> r.1.value == s.pip && r.0.timer == now && r.0.pip == NextPip(s.pip)
    ensures r.1.Some? ==> (r.0.led1, r.0.led2) == ShowOutcome(ack)
    ensures r.1.None? ==> r.0 == s
  {
    if ElapsedMillis(s.timer, now) > SEND_INTERVAL then
      var leds := ShowOutcome(ack);
      (SimState(now, NextPip(s.pip), leds.0, leds.1), Some(s.pip))
    else (s, None)
  }

  /** `pip` after `k` sends starting from `p`. */
  function Rotate(p: uint8, k: nat): (q: uint8)
    requires IsSensorPip(p)
    ensures IsSensorPip(q)
    decreases k
  {
    if k == 0 then p else Rotate(NextPip(p), k - 1)
  }

  /** The rotation has period three: `pip` after `k` sends is `2 + (p - 2 + k) mod 3`. */
  lemma {:induction false} RotateClosedForm(p: uint8, k: nat)
    requires IsSensorPip(p)
    ensures Rotate(p, k) == 2 + (p - 2 + k) % 3
    decreases k
  {
    if k > 0 {
      RotateClosedForm(NextPip(p), k - 1);
    }
  }

  /** Three consecutive sends, from any pipe, cover pipes 2, 3 and 4, and from 2 in that order. */
  lemma ThreeSendsCover(p: uint8)
    requires IsSensorPip(p)
    ensures {Rotate(p, 0), Rotate(p, 1), Rotate(p, 2)} == {2, 3, 4}
    ensures p == 2 ==> [Rotate(p, 0), Rotate(p, 1), Rotate(p, 2)] == [2, 3, 4]
  {
    RotateClosedForm(p, 1);
    RotateClosedForm(p, 2);
  }

  /** One call of `loop()`: the time it reads and whether its send, if any, is acknowledged. */
  datatype Call = Call(now: uint32, ack: bool)

  /** The state after successive calls and the addresses transmitted to, in order. */
  function Run(s: SimState, calls: seq<Call>): (r: (SimState, seq<int>))
    requires IsSensorPip(s.pip)
    ensures IsSensorPip(r.0.pip)
    decreases |calls|
  {
    if calls == [] then (s, [])
    else
      var step := Step(s, calls[0].now, calls[0].ack);
      var rest := Run(step.0, calls[1..]);
      (rest.0, (if step.1.Some? then [PIPES[step.1.value]] else []) + rest.1)
  }

  /**
    The sends of a run go to the sensor pipes in rotation, whether or not
    earlier sends were acknowledged: the `k`-th goes to `pipes[Rotate(pip, k)]`,
    and `pip` ends advanced once per send.
   */
  lemma {:induction false} RunRotates(s: SimState, calls: seq<Call>)
    requires IsSensorPip(s.pip)
    ensures var r := Run(s, calls);
      && r.0.pip == Rotate(s.pip, |r.1|)
      && forall k :: 0 <= k < |r.1| ==> r.1[k] == PIPES[Rotate(s.pip, k)]
    decreases |calls|
  {
    if calls != [] {
      var step := Step(s, calls[0].now, calls[0].ack);
      RunRotates(step.0, calls[1..]);
      var rest := Run(step.0, calls[1..]);
      if step.1.Some? {
        forall k | 1 <= k < |rest.1| + 1
          ensures Rotate(step.0.pip, k - 1) == Rotate(s.pip, k)
        {
        }
      }
    }
  }

  /** From the start, the first three sends go to pipes 2, 3 and 4 in order. */
  lemma FirstSendsFromStart(calls: seq<Call>)
    requires |Run(START, calls).1| >= 3
    ensures Run(START, calls).1[..3] == [PIPES[2], PIPES[3], PIPES[4]]
  {
    RunRotates(START, calls);
    ThreeSendsCover(2);
    var sends := Run(START, calls).1;
    assert sends[..3] == [sends[0], sends[1], sends[2]];
  }

  class Simulator {
    var timer: uint32
    var pip: uint8
    var led1: Level
    var led2: Level

    function State(): SimState
      reads this
    {
      SimState(timer, pip, led1, led2)
    }

    /** `setup()`. */
    constructor ()
      ensures State() == START
    {
      timer, pip, led1, led2 := 0, 2, HIGH, HIGH;
    }

    /**
      `loop()`: returns the address transmitted to, if the send gate opened;
      `ack` is the outcome of that write.
     */
    method Loop(now: uint32, ack: bool) returns (target: Option<int>)
      requires IsSensorPip(pip)
      modifies this
      ensures State() == Step(old(State()), now, ack).0
      ensures target.Some? <==> Step(old(State()), now, ack).1.Some?
      ensures target.Some? ==> target.value == PIPES[old(pip)]
    {
      target := None;
      if ElapsedMillis(timer, now) > SEND_INTERVAL {
        target := Some(PIPES[pip]);
        if ack {
          led1 := HIGH;
          led2 := LOW;
        } else {
          led1 := LOW;
          led2 := HIGH;
        }
        pip := (pip + 1) % U8_RANGE;
        if pip == 5 {
          pip := 2;
        }
        timer := now;
      }
    }
  }
}
