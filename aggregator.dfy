/**
  The base station's aggregator loop (`main` of the control hub): pipe setup,
  then, forever, drain every frame the radio holds into one of two FIFO
  queues according to the pipe it arrived on, and step the pipe counter.

  The radio's receive FIFO is given as a sequence of frames. `available(&pipe)`
  reports the pipe of the frame at its head and `read` removes that frame; a
  frame's payload is given as it reads into each of the two structs (the byte
  layouts are not modelled).
 */
module Aggregator {
  import opened Network

  /** A received frame: the pipe the radio reports and the payload read as either struct. */
  datatype Frame = Frame(pipe: PipeNumber, asActuatorData: ActuatorData, asContextTag: ContextTag)

  /** `inGroundTag`: a sensor reading tagged with the address of the pipe it came in on. */
  datatype InGroundTag = InGroundTag(tag: ContextTag, rfAdress: int)

  /** The two queues `controllerHubData` and `inGroundData`. */
  datatype Queues = Queues(controllerHubData: seq<ActuatorData>, inGroundData: seq<InGroundTag>)

  predicate IsSensorPipe(p: int) { 2 <= p <= 4 }

  /** The pipes the loop reads from: 1 (valve controller) and 2..4 (sensors). */
  predicate IsServedPipe(p: int) { p == 1 || IsSensorPipe(p) }

  /** The controller reports in a sequence of frames, in arrival order. */
  function ControllerRecords(frames: seq<Frame>): seq<ActuatorData>
    decreases |frames|
  {
    if frames == [] then []
    else
      var last := frames[|frames| - 1];
      ControllerRecords(frames[..|frames| - 1]) + (if last.pipe == 1 then [last.asActuatorData] else [])
  }

  /** The tagged sensor readings in a sequence of frames, in arrival order. */
  function SensorRecords(frames: seq<Frame>): seq<InGroundTag>
    decreases |frames|
  {
    if frames == [] then []
    else
      var last := frames[|frames| - 1];
      SensorRecords(frames[..|frames| - 1])
        + (if IsSensorPipe(last.pipe) then [InGroundTag(last.asContextTag, PIPES[last.pipe])] else [])
  }

  /** Where one frame goes once it is read. */
  function Route(q: Queues, f: Frame): (r: Queues)
  {
    if f.pipe == 1 then q.(controllerHubData := q.controllerHubData + [f.asActuatorData])
    else if IsSensorPipe(f.pipe) then q.(inGroundData := q.inGroundData + [InGroundTag(f.asContextTag, PIPES[f.pipe])])
    else q
  }

  /**
    Each queue keeps arrival order: the records of a concatenation are the
    records of its parts, one after the other.
   */
  lemma {:induction false} RecordsAppend(a: seq<Frame>, b: seq<Frame>)
    ensures ControllerRecords(a + b) == ControllerRecords(a) + ControllerRecords(b)
    ensures SensorRecords(a + b) == SensorRecords(a) + SensorRecords(b)
    decreases |b|
  {
    if b == [] {
      assert a + b == a;
    } else {
      var n := |b| - 1;
      assert (a + b)[..|a + b| - 1] == a + b[..n];
      RecordsAppend(a, b[..n]);
    }
  }

  /**
    Every queued sensor reading carries the address of one of the three sensor
    pipes, and different pipes give different addresses, so the tag tells the
    sensors apart.
   */
  lemma {:induction false} SensorTagsIdentifyPipe(frames: seq<Frame>)
    ensures forall k :: 0 <= k < |SensorRecords(frames)| ==>
      SensorRecords(frames)[k].rfAdress in {PIPES[2], PIPES[3], PIPES[4]}
    ensures PIPES[2] != PIPES[3] && PIPES[3] != PIPES[4] && PIPES[2] != PIPES[4]
    decreases |frames|
  {
    if frames != [] {
      SensorTagsIdentifyPipe(frames[..|frames| - 1]);
    }
  }

  /**
    The inner `while (radio.available(&pipe))` loop as written, run for at most
    `fuel` iterations: a frame on pipe 1 or 2..4 is read and queued; a frame on
    any other pipe is left at the head of the receive FIFO.
   */
  function InnerLoopAsWritten(q: Queues, rx: seq<Frame>, fuel: nat): (Queues, seq<Frame>)
    decreases fuel
  {
    if fuel == 0 || rx == [] then (q, rx)
    else if IsServedPipe(rx[0].pipe) then InnerLoopAsWritten(Route(q, rx[0]), rx[1..], fuel - 1)
    else InnerLoopAsWritten(q, rx, fuel - 1)
  }

  /**
    Finding: once a frame on pipe 0 or 5 reaches the head of the receive FIFO,
    no number of iterations of the inner loop changes anything: the FIFO stays
    non-empty (the loop never exits) and no later frame is ever queued.
   */
  lemma {:induction false} InnerLoopStallsOnUnservedPipe(q: Queues, rx: seq<Frame>, fuel: nat)
    requires rx != [] && !IsServedPipe(rx[0].pipe)
    ensures InnerLoopAsWritten(q, rx, fuel) == (q, rx)
    decreases fuel
  {
    if fuel > 0 {
      InnerLoopStallsOnUnservedPipe(q, rx, fuel - 1);
    }
  }

  /** A report on pipe 1 queued behind a frame on pipe 5 never reaches `controllerHubData`. */
  lemma InnerLoopStallExample(d: ActuatorData, t: ContextTag, fuel: nat)
    ensures var rx := [Frame(5, d, t), Frame(1, d, t)];
      InnerLoopAsWritten(Queues([], []), rx, fuel).0.controllerHubData == []
  {
    InnerLoopStallsOnUnservedPipe(Queues([], []), [Frame(5, d, t), Frame(1, d, t)], fuel);
  }

  /**
    When every frame is on a pipe the loop serves, the loop as written empties
    the FIFO in one iteration per frame and queues exactly the records of the
    frames, in order.
   */
  lemma {:induction false} InnerLoopAsWrittenServed(q: Queues, rx: seq<Frame>)
    requires forall k :: 0 <= k < |rx| ==> IsServedPipe(rx[k].pipe)
    ensures InnerLoopAsWritten(q, rx, |rx|) ==
      (Queues(q.controllerHubData + ControllerRecords(rx), q.inGroundData + SensorRecords(rx)), [])
    decreases |rx|
  {
    if rx != [] {
      var r := Route(q, rx[0]);
      assert InnerLoopAsWritten(q, rx, |rx|) == InnerLoopAsWritten(r, rx[1..], |rx[1..]|);
      InnerLoopAsWrittenServed(r, rx[1..]);
      assert r == Queues(q.controllerHubData + ControllerRecords([rx[0]]), q.inGroundData + SensorRecords([rx[0]])) by {
        RouteRecords(q, rx[0]);
      }
      assert ControllerRecords(rx) == ControllerRecords([rx[0]]) + ControllerRecords(rx[1..])
        && SensorRecords(rx) == SensorRecords([rx[0]]) + SensorRecords(rx[1..]) by {
        RecordsAppend([rx[0]], rx[1..]);
        assert [rx[0]] + rx[1..] == rx;
      }
      assert r.controllerHubData + ControllerRecords(rx[1..]) == q.controllerHubData + ControllerRecords(rx);
      assert r.inGroundData + SensorRecords(rx[1..]) == q.inGroundData + SensorRecords(rx);
    } else {
      assert q.controllerHubData + ControllerRecords(rx) == q.controllerHubData;
      assert q.inGroundData + SensorRecords(rx) == q.inGroundData;
    }
  }

  /** Routing one frame appends that frame's records. */
  lemma RouteRecords(q: Queues, f: Frame)
    ensures Route(q, f) == Queues(q.controllerHubData + ControllerRecords([f]), q.inGroundData + SensorRecords([f]))
  {
    assert [f][..0] == [];
  }

  /** `configurePipes()`: write on pipe 0's address, read on all six pipes. */
  method ConfigurePipes() returns (ops: seq<PipeOp>)
    ensures |ops| == 7 && ops[0] == OpenWriting(PIPES[0])
    ensures forall i :: 0 <= i < 6 ==> ops[i + 1] == OpenReading(i, PIPES[i])
  {
    ops := [OpenWriting(PIPES[0])];
    for i := 0 to 6
      invariant |ops| == i + 1 && ops[0] == OpenWriting(PIPES[0])
      invariant forall k :: 0 <= k < i ==> ops[k + 1] == OpenReading(k, PIPES[k])
    {
      ops := ops + [OpenReading(i, PIPES[i])];
    }
  }

  class ControlHub {
    var controllerHubData: seq<ActuatorData>
    var inGroundData: seq<InGroundTag>
    var pipe: uint8

    function QueuesOf(): Queues
      reads this
    {
      Queues(controllerHubData, inGroundData)
    }

    /** `pipe` only ever holds a pipe number the radio reports, or its successor. */
    predicate Valid()
      reads this
    {
      pipe <= 5
    }

    /** Start of `main`: empty queues, `pipe = 1`. */
    constructor ()
      ensures Valid() && controllerHubData == [] && inGroundData == [] && pipe == 1
    {
      controllerHubData, inGroundData, pipe := [], [], 1;
    }

    /**
      One iteration of the inner loop (lines 102-122) for the frame
      `available(&pipe)` reports: the frame is read and appended to exactly one
      queue when it is on pipe 1 or 2..4, and left unread otherwise.
     */
    method Service(f: Frame) returns (read: bool)
      modifies this
      ensures Valid() && pipe == f.pipe
      ensures read <==> IsServedPipe(f.pipe)
      ensures QueuesOf() == Route(old(QueuesOf()), f)
      ensures f.pipe == 1 ==>
        controllerHubData == old(controllerHubData) + [f.asActuatorData] && inGroundData == old(inGroundData)
      ensures IsSensorPipe(f.pipe) ==>
        inGroundData == old(inGroundData) + [InGroundTag(f.asContextTag, PIPES[f.pipe])]
        && controllerHubData == old(controllerHubData)
      ensures !read ==> QueuesOf() == old(QueuesOf())
    {
      pipe := f.pipe;
      read := false;
      if pipe == 1 {
        controllerHubData := controllerHubData + [f.asActuatorData];
        read := true;
      } else if pipe > 1 && pipe < 5 {
        inGroundData := inGroundData + [InGroundTag(f.asContextTag, PIPES[pipe])];
        read := true;
      }
    }

    /**
      The inner loop with every frame read, those on pipes 0 and 5 being
      discarded: it ends with the FIFO empty, and each queue has gained the
      records of its pipes in arrival order.
     */
    method Drain(rx: seq<Frame>)
      requires Valid()
      modifies this
      ensures Valid()
      ensures controllerHubData == old(controllerHubData) + ControllerRecords(rx)
      ensures inGroundData == old(inGroundData) + SensorRecords(rx)
      ensures pipe == if rx == [] then old(pipe) else rx[|rx| - 1].pipe
    {
      var i := 0;
      while i < |rx|
        invariant 0 <= i <= |rx| && Valid()
        invariant controllerHubData == old(controllerHubData) + ControllerRecords(rx[..i])
        invariant inGroundData == old(inGroundData) + SensorRecords(rx[..i])
        invariant pipe == if i == 0 then old(pipe) else rx[i - 1].pipe
      {
        var _ := Service(rx[i]);
        assert rx[..i + 1][..i] == rx[..i];
        i := i + 1;
      }
      assert rx[..i] == rx;
    }

    /** Lines 124-126: the pipe counter steps on and wraps from 5 to 1. */
    method NextPipe()
      requires Valid()
      modifies this`pipe
      ensures Valid() && 1 <= pipe <= 5
      ensures pipe == if old(pipe) == 5 then 1 else old(pipe) + 1
    {
      pipe := (pipe + 1) % U8_RANGE;
      if pipe > 5 {
        pipe := 1;
      }
    }

    /**
      One iteration of the outer `while (1)` loop with the corrected inner loop
      (`Drain`), which ends on every input; as written, an iteration that meets
      a frame on pipe 0 or 5 never ends. The counter then steps on from the
      pipe of the last frame read, or from its old value when none was.
     */
    method Poll(rx: seq<Frame>)
      requires Valid()
      modifies this
      ensures Valid() && 1 <= pipe <= 5
      ensures pipe == (var p := if rx == [] then old(pipe) else rx[|rx| - 1].pipe; if p == 5 then 1 else p + 1)
      ensures controllerHubData == old(controllerHubData) + ControllerRecords(rx)
      ensures inGroundData == old(inGroundData) + SensorRecords(rx)
    {
      Drain(rx);
      NextPipe();
    }
  }
}
