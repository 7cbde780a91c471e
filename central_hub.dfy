/**
  The interactive base-station variant (`central_hub`): `configurePipes(wpipe)`,
  which gives one address the writing role and numbers the other addresses
  as reading pipes, and the `main` loop that alternates the pipe counter and,
  when the operator raised the `sender` flag (SIGINT), reads an on-time and
  sends it to the valve controller as one byte.
 */
module CentralHub {
  import opened Network

  /**
    The reading-pipe number address `i` receives: the running counter `n`
    starts at 1 and steps past every address except the writing one.
   */
  function ReadingNumber(wpipe: int, i: int): int
  {
    if 0 <= wpipe < i then i else i + 1
  }

  /** The calls `configurePipes(wpipe)` makes, one per address index. */
  function PipePlan(wpipe: int): (ops: seq<PipeOp>)
    ensures |ops| == 6
  {
    seq(6, i requires 0 <= i < 6 =>
      if i == wpipe then OpenWriting(PIPES[i]) else OpenReading(ReadingNumber(wpipe, i), PIPES[i]))
  }

  /** `configurePipes(wpipe)`, with the final value of its counter `n`. */
  method ConfigurePipes(wpipe: int) returns (ops: seq<PipeOp>, n: int)
    ensures ops == PipePlan(wpipe)
    ensures n == if 0 <= wpipe < 6 then 6 else 7
  {
    ops := [];
    n := 1;
    for i := 0 to 6
      invariant |ops| == i
      invariant forall k :: 0 <= k < i ==> ops[k] == PipePlan(wpipe)[k]
      invariant n == if 0 <= wpipe < i then i else i + 1
    {
      if i == wpipe {
        ops := ops + [OpenWriting(PIPES[i])];
      } else {
        ops := ops + [OpenReading(n, PIPES[i])];
        n := n + 1;
      }
    }
  }

  /** The address index that receives reading-pipe number `k` (the inverse of `ReadingNumber`). */
  function AddressOfReader(wpipe: int, k: int): int
  {
    if k <= wpipe then k - 1 else k
  }

  /**
    With a writing index in 0..5, exactly one address is opened for writing,
    the chosen one; the other five become reading pipes numbered 1..5 in
    increasing address order, each number used once.
   */
  lemma PipePlanInRange(wpipe: int)
    requires 0 <= wpipe < 6
    ensures var ops := PipePlan(wpipe);
      && ops[wpipe] == OpenWriting(PIPES[wpipe])
      && (forall i :: 0 <= i < 6 && i != wpipe ==> ops[i].OpenReading? && ops[i].address == PIPES[i])
      && (forall i :: 0 <= i < 6 && i != wpipe ==> 1 <= ops[i].number <= 5)
      && (forall i, j :: 0 <= i < j < 6 && i != wpipe && j != wpipe ==> ops[i].number < ops[j].number)
      && (forall k :: 1 <= k <= 5 ==>
            var i := AddressOfReader(wpipe, k);
            0 <= i < 6 && i != wpipe && ops[i] == OpenReading(k, PIPES[i]))
  {
  }

  /**
    With a writing index outside 0..5 no address is opened for writing and the
    six addresses become reading pipes 1..6, one more than the radio has.
   */
  lemma PipePlanOutOfRange(wpipe: int)
    requires wpipe < 0 || 6 <= wpipe
    ensures forall i :: 0 <= i < 6 ==> PipePlan(wpipe)[i] == OpenReading(i + 1, PIPES[i])
  {
  }

  /**
    The pipes `main` opens by hand (configurePipes(0) being commented out):
    write on address 0, read on addresses 1 and 2 as pipes 1 and 2.
   */
  function MainPipeSetup(): (ops: seq<PipeOp>)
    ensures |ops| == 3
  {
    [OpenWriting(PIPES[0]), OpenReading(1, PIPES[1]), OpenReading(2, PIPES[2])]
  }

  /** The hand-written setup is the first half of what `configurePipes(0)` would do. */
  lemma MainSetupIsPlanPrefix()
    ensures MainPipeSetup() == PipePlan(0)[..3]
  {
    assert PipePlan(0)[..3] == [PipePlan(0)[0], PipePlan(0)[1], PipePlan(0)[2]];
  }

  /** `(uint8_t) t`: the operator's on-time keeps only its low 8 bits. */
  function OnTime(t: int): (time: uint8)
    ensures 0 <= t < U8_RANGE ==> time == t
    ensures (time - t) % U8_RANGE == 0
  {
    t % U8_RANGE
  }

  /** What the flag handling of one iteration does. */
  datatype Action =
    | NoPrompt                              // the flag was not raised
    | Exit                                  // the truncated on-time was 0
    | Write(onTime: uint8, sent: bool)      // one write of the on-time byte

  /**
    The flag handling, lines 81-108: with the flag raised it is cleared first;
    a truncated on-time of 0 exits, any other is written once.
   */
  function HandleFlag(sender: bool, t: int, ack: bool): (r: (bool, Action))
    ensures !r.0
    ensures r.1 != NoPrompt <==> sender
    ensures r.1.Write? ==> r.1.onTime == OnTime(t) != 0 && r.1.sent == ack
    ensures sender && OnTime(t) == 0 ==> r.1 == Exit
  {
    if sender then (false, if OnTime(t) == 0 then Exit else Write(OnTime(t), ack))
    else (false, NoPrompt)
  }

  /** On-times that are multiples of 256 (256 itself included) exit without a write. */
  lemma OnTimeExit(t: int)
    requires t % U8_RANGE == 0
    ensures HandleFlag(true, t, true).1 == Exit && HandleFlag(true, t, false).1 == Exit
  {
  }

  /**
    What the operator does between two checks of the flag: whether SIGINT was
    raised, the number typed at the prompt and whether the write is acknowledged.
   */
  datatype Turn = Turn(signalled: bool, t: int, ack: bool)

  /**
    The actions of successive iterations, starting with the flag at `sender`;
    the process ends at the first `Exit`.
   */
  function Actions(sender: bool, turns: seq<Turn>): seq<Action>
    decreases |turns|
  {
    if turns == [] then []
    else
      var r := HandleFlag(sender || turns[0].signalled, turns[0].t, turns[0].ack);
      if r.1 == Exit then [Exit] else [r.1] + Actions(r.0, turns[1..])
  }

  function Signals(turns: seq<Turn>): nat
  {
    if turns == [] then 0 else (if turns[0].signalled then 1 else 0) + Signals(turns[1..])
  }

  function WriteCount(actions: seq<Action>): nat
  {
    if actions == [] then 0 else (if actions[0].Write? then 1 else 0) + WriteCount(actions[1..])
  }

  /** Each raising of the flag leads to at most one write. */
  lemma {:induction false} WritesBoundedBySignals(sender: bool, turns: seq<Turn>)
    ensures WriteCount(Actions(sender, turns)) <= Signals(turns) + (if sender then 1 else 0)
    decreases |turns|
  {
    if turns != [] {
      var r := HandleFlag(sender || turns[0].signalled, turns[0].t, turns[0].ack);
      if r.1 != Exit {
        WritesBoundedBySignals(r.0, turns[1..]);
      }
    }
  }

  class CentralHub {
    var pip: uint8
    var sender: bool

    predicate Valid()
      reads this
    {
      pip <= 5
    }

    /** Start of `main`: `pip = 1`, flag clear. */
    constructor ()
      ensures Valid() && pip == 1 && !sender
    {
      pip, sender := 1, false;
    }

    /** `signalHandler`: SIGINT raises the flag. */
    method SignalHandler()
      modifies this`sender
      ensures sender
    {
      sender := true;
    }

    /**
      The inner `while (radio.available(&pip))` loop: each message read is one
      byte; `pip` is left at the pipe of the last one.
     */
    method DrainMessages(rx: seq<PipeNumber>)
      requires Valid()
      modifies this`pip
      ensures Valid() && pip == if rx == [] then old(pip) else rx[|rx| - 1]
    {
      for k := 0 to |rx|
        invariant Valid() && pip == if k == 0 then old(pip) else rx[k - 1]
      {
        pip := rx[k];
      }
    }

    /** Lines 77-79: the counter alternates between 1 and 2. */
    method NextPip()
      requires Valid()
      modifies this`pip
      ensures Valid() && (pip == 1 || pip == 2)
      ensures pip == if old(pip) <= 1 then old(pip) + 1 else 1
    {
      pip := (pip + 1) % U8_RANGE;
      if pip > 2 {
        pip := 1;
      }
    }

    /**
      One iteration of the `while (1)` loop: drain the messages, step the pipe
      counter, then handle the flag, which SIGINT may have raised (`signalled`)
      since the previous check.
     */
    method Iteration(rx: seq<PipeNumber>, signalled: bool, t: int, ack: bool) returns (action: Action)
      requires Valid()
      modifies this
      ensures Valid() && (pip == 1 || pip == 2)
      ensures pip == (var p := if rx == [] then old(pip) else rx[|rx| - 1]; if p <= 1 then p + 1 else 1)
      ensures (sender, action) == HandleFlag(old(sender) || signalled, t, ack)
    {
      DrainMessages(rx);
      NextPip();
      if signalled {
        SignalHandler();
      }
      action := CheckFlag(t, ack);
    }

    /** Lines 81-108 of one iteration of the main loop. */
    method CheckFlag(t: int, ack: bool) returns (action: Action)
      modifies this`sender
      ensures (sender, action) == HandleFlag(old(sender), t, ack)
    {
      action := NoPrompt;
      if sender {
        sender := false;
        var time := OnTime(t);
        if time == 0 {
          action := Exit;
        } else {
          action := Write(time, ack);
        }
      }
    }
  }
}
