/**
  The demo base station (`central_demo`): it sends the operator's on-time to
  the valve controller, waits for the reply, keeps only the last 32-bit word
  the radio holds and unpacks it into elapsed seconds (high half) and litres
  (low half). When the radio driver flags a failure, the radio is restarted
  and the same pair of pipes is opened again.
 */
module CentralDemo {
  import opened Network

  /** The two five-byte node addresses of the demo. */
  const NODE_ADDRESSES: seq<string> := ["1Node", "2Node"]

  /** The address a node writes to and the one it listens on (as reading pipe 1). */
  datatype PipePair = PipePair(writing: string, reading: string)

  /**
    The pair a node opens for its `radioNumber`: node 0 writes to "1Node" and
    reads "2Node", node 1 the other way round.
   */
  function PipesFor(radioNumber: bool): (p: PipePair)
    ensures p.writing != p.reading
    ensures p.writing in NODE_ADDRESSES && p.reading in NODE_ADDRESSES
  {
    if !radioNumber then PipePair(NODE_ADDRESSES[0], NODE_ADDRESSES[1])
    else PipePair(NODE_ADDRESSES[1], NODE_ADDRESSES[0])
  }

  /** The two node numbers use the swapped pair: what one node writes, the other reads. */
  lemma PipesForSwapped()
    ensures PipesFor(false).writing == PipesFor(true).reading
    ensures PipesFor(false).reading == PipesFor(true).writing
  {
  }

  /** The reply once unpacked: `rmsg >> 16` and `(uint16_t) rmsg`. */
  datatype Reply = Reply(elapsedTime: uint16, totalLitres: uint16)

  /** Unpacking splits the word into its high and low 16 bits, nothing lost. */
  function Unpack(rmsg: uint32): (r: Reply)
    ensures r.elapsedTime * U16_RANGE + r.totalLitres == rmsg
  {
    Reply(rmsg / U16_RANGE, rmsg % U16_RANGE)
  }

  /** The word a sender builds from the two halves: `elapsed << 16 | litres`. */
  function Pack(r: Reply): (rmsg: uint32)
    ensures rmsg / U16_RANGE == r.elapsedTime && rmsg % U16_RANGE == r.totalLitres
  {
    PackBounds(r.elapsedTime, r.totalLitres);
    r.elapsedTime * U16_RANGE + r.totalLitres
  }

  /** `e * 65536 + l` fits in 32 bits and its quotient and remainder by 65536 are `e` and `l`. */
  lemma PackBounds(e: uint16, l: uint16)
    ensures 0 <= e * U16_RANGE + l < U32_RANGE
    ensures (e * U16_RANGE + l) / U16_RANGE == e && (e * U16_RANGE + l) % U16_RANGE == l
  {
    assert e * U16_RANGE <= (U16_RANGE - 1) * U16_RANGE by {
      assert e <= U16_RANGE - 1;
    }
    var w := e * U16_RANGE + l;
    var q, m := w / U16_RANGE, w % U16_RANGE;
    assert (q - e) * U16_RANGE == l - m;
  }

  /** Unpacking a packed pair gives the pair back. */
  lemma UnpackPack(r: Reply)
    ensures Unpack(Pack(r)) == r
  {
  }

  /** Unpacking then repacking is the identity on 32-bit words. */
  lemma PackUnpack(rmsg: uint32)
    ensures Pack(Unpack(rmsg)) == rmsg
  {
  }

  /** What one iteration of the main loop sends and receives. */
  datatype Exchange = Exchange(time: uint16, sent: bool, reply: Reply)

  class CentralDemo {
    const radioNumber: bool
    var failureDetected: bool
    /** The pipes currently open on the radio. */
    var pipes: PipePair
    var rmsg: uint32

    /** Start of `main`: the pair for `radioNumber` is opened. */
    constructor (radioNumber: bool)
      ensures this.radioNumber == radioNumber
      ensures pipes == PipesFor(radioNumber) && !failureDetected
    {
      this.radioNumber := radioNumber;
      failureDetected := false;
      pipes := PipesFor(radioNumber);
      rmsg := 0;
    }

    /**
      Lines 39-50: on a flagged failure the radio is restarted, the flag cleared
      and exactly the pair of the initial setup opened again; otherwise nothing
      changes.
     */
    method Recover()
      modifies this`failureDetected, this`pipes
      ensures !failureDetected
      ensures old(failureDetected) ==> pipes == PipesFor(radioNumber)
      ensures !old(failureDetected) ==> pipes == old(pipes)
    {
      if failureDetected {
        failureDetected := false;
        if !radioNumber {
          pipes := PipePair(NODE_ADDRESSES[0], NODE_ADDRESSES[1]);
        } else {
          pipes := PipePair(NODE_ADDRESSES[1], NODE_ADDRESSES[0]);
        }
      }
    }

    /**
      Lines 74-79: every available word is read into `rmsg`, so only the last
      one is kept, and it is unpacked.
     */
    method DrainReplies(rx: seq<uint32>) returns (reply: Reply)
      requires rx != []
      modifies this`rmsg
      ensures rmsg == rx[|rx| - 1]
      ensures reply == Unpack(rx[|rx| - 1])
    {
      var i := 0;
      while i < |rx|
        invariant 0 <= i <= |rx|
        invariant i > 0 ==> rmsg == rx[i - 1]
      {
        rmsg := rx[i];
        i := i + 1;
      }
      reply := Unpack(rmsg);
    }

    /**
      One iteration of the main loop once a reply has arrived: `failed` says
      whether the driver flagged a failure since the previous iteration, `time`
      is the operator's on-time, `ack` the outcome of the write and `rx` the
      words the radio holds after the wait.
     */
    method Iteration(failed: bool, time: uint16, ack: bool, rx: seq<uint32>) returns (e: Exchange)
      requires rx != []
      modifies this
      ensures !failureDetected
      ensures old(failureDetected) || failed ==> pipes == PipesFor(radioNumber)
      ensures !(old(failureDetected) || failed) ==> pipes == old(pipes)
      ensures e == Exchange(time, ack, Unpack(rx[|rx| - 1]))
    {
      if failed {
        failureDetected := true;
      }
      Recover();
      var reply := DrainReplies(rx);
      e := Exchange(time, ack, reply);
    }
  }
}
