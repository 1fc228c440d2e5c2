/** The double-buffered transmit queue of `ecmcSocketCANWriteBuffer.cpp` in single steps: adders
    may put a frame between any two steps of the worker, in particular between any two frame
    writes of its drain loop. */
module WriteQueue {
  import opened Can

  const CAPACITY: nat := 128            // ECMC_CAN_MAX_WRITE_CMDS
  const ERROR_WRITE_FULL: int := 10     // ECMC_CAN_ERROR_WRITE_FULL

  /** Where the worker stands in one pass of its loop. */
  datatype Worker = Waiting | Switching | Draining

  /** The two buffers up to their frame counters, the index of the drain loop, the frames
      accepted from adders, the frames handed to `writeCAN`, and the summary error. */
  datatype Queue = Queue(
    add: seq<CanFrame>, write: seq<CanFrame>, next: nat, worker: Worker,
    accepted: seq<CanFrame>, handed: seq<CanFrame>, lastError: int)

  datatype QueueStep =
    | Add(f: CanFrame)       // addWriteCAN
    | Look                   // the worker finds frames in the buffer that is being filled
    | Switch                 // switchBuffer
    | HandOver(error: int)   // writeCAN of one frame, with any result
    | Finish                 // the drain loop ends, the frame counter is reset
    | TakeError              // getlastWritesErrorAndReset

  predicate Possible(q: Queue, s: QueueStep) {
    match s
    case Look => q.worker == Waiting && q.add != []
    case Switch => q.worker == Switching
    case HandOver(_) => q.worker == Draining && q.next < |q.write|
    case Finish => q.worker == Draining && q.next >= |q.write|
    case _ => true
  }

  predicate Full(q: Queue) {
    |q.add| >= CAPACITY
  }

  function Apply(q: Queue, s: QueueStep): Queue
    requires Possible(q, s)
  {
    match s
    case Add(f) => if Full(q) then q else q.(add := q.add + [f], accepted := q.accepted + [f])
    case Look => q.(worker := Switching)
    case Switch => q.(add := q.write, write := q.add, worker := Draining, next := 0)
    case HandOver(error) =>
      q.(handed := q.handed + [q.write[q.next]], next := q.next + 1,
         lastError := if error != 0 then error else q.lastError)
    case Finish => q.(write := [], worker := Waiting, next := 0)
    case TakeError => q.(lastError := 0)
  }

  const EMPTY: Queue := Queue([], [], 0, Waiting, [], [], 0)

  // ---- the queue is one FIFO ---------------------------------------------------------------

  /** What the worker has still to hand over, oldest first. */
  function Pending(q: Queue): seq<CanFrame> {
    (if q.next <= |q.write| then q.write[q.next..] else []) + q.add
  }

  predicate Sound(q: Queue) {
    && |q.add| <= CAPACITY && |q.write| <= CAPACITY && q.next <= |q.write|
    && (q.worker != Draining ==> q.write == [] && q.next == 0)
    && (q.worker == Switching ==> q.add != [])
    && q.handed + Pending(q) == q.accepted
  }

  /** What a number of adds does to the queue. */
  predicate OnlyAdded(q: Queue, r: Queue) {
    && q.add <= r.add && q.accepted <= r.accepted
    && r == q.(add := r.add, accepted := r.accepted)
  }

  lemma ApplyKeepsSound(q: Queue, s: QueueStep)
    requires Sound(q) && Possible(q, s)
    ensures Sound(Apply(q, s))
    ensures s == Switch ==> Apply(q, s).add == []
  {
    var r := Apply(q, s);
    match s
    case Add(f) =>
      if !Full(q) {
        assert Pending(r) == Pending(q) + [f];
        assert r.handed + Pending(r) == q.handed + Pending(q) + [f];
      }
    case HandOver(e) =>
      assert q.write[q.next..] == [q.write[q.next]] + r.write[r.next..];
      assert r.handed + Pending(r) == q.handed + Pending(q);
    case Switch =>
      assert Pending(r) == Pending(q);
    case _ =>
      assert Pending(r) == Pending(q);
  }

  predicate RunPossible(q: Queue, ss: seq<QueueStep>)
    decreases |ss|
  {
    ss == [] || (Possible(q, ss[0]) && RunPossible(Apply(q, ss[0]), ss[1..]))
  }

  function ApplyAll(q: Queue, ss: seq<QueueStep>): Queue
    requires RunPossible(q, ss)
    decreases |ss|
  {
    if ss == [] then q else ApplyAll(Apply(q, ss[0]), ss[1..])
  }

  lemma {:induction false} RunKeepsSound(q: Queue, ss: seq<QueueStep>)
    requires Sound(q) && RunPossible(q, ss)
    ensures Sound(ApplyAll(q, ss))
    ensures q.handed <= ApplyAll(q, ss).handed && q.accepted <= ApplyAll(q, ss).accepted
    decreases |ss|
  {
    if ss != [] {
      ApplyKeepsSound(q, ss[0]);
      RunKeepsSound(Apply(q, ss[0]), ss[1..]);
    }
  }

  /** The frames that the adders of a run offer to a queue that has room for them. */
  function Offered(q: Queue, ss: seq<QueueStep>): seq<CanFrame>
    requires RunPossible(q, ss)
    decreases |ss|
  {
    if ss == [] then []
    else (if ss[0].Add? && |q.add| < 128 then [ss[0].f] else []) + Offered(Apply(q, ss[0]), ss[1..])
  }

  lemma {:induction false} AcceptedAreOffered(q: Queue, ss: seq<QueueStep>)
    requires RunPossible(q, ss)
    ensures ApplyAll(q, ss).accepted == q.accepted + Offered(q, ss)
    decreases |ss|
  {
    if ss != [] {
      AcceptedAreOffered(Apply(q, ss[0]), ss[1..]);
    }
  }

  /** An add is accepted iff fewer than 128 frames wait in the buffer that is being filled. */
  lemma AddIsExact(q: Queue, f: CanFrame)
    ensures Apply(q, Add(f)) ==
            if |q.add| < 128 then q.(add := q.add + [f], accepted := q.accepted + [f]) else q
  {
  }

  function Adds(fs: seq<CanFrame>): (ss: seq<QueueStep>)
    ensures |ss| == |fs| && forall k :: 0 <= k < |fs| ==> ss[k] == Add(fs[k])
  {
    seq(|fs|, k requires 0 <= k < |fs| => Add(fs[k]))
  }

  lemma {:induction false} RoomIsUsed(q: Queue, fs: seq<CanFrame>)
    requires Sound(q) && |q.add| + |fs| <= 128
    ensures RunPossible(q, Adds(fs)) && Sound(ApplyAll(q, Adds(fs)))
    ensures ApplyAll(q, Adds(fs)) == q.(add := q.add + fs, accepted := q.accepted + fs)
    decreases |fs|
  {
    if fs == [] {
      assert q.add + [] == q.add && q.accepted + [] == q.accepted;
    } else {
      hide Sound;
      assert Adds(fs)[1..] == Adds(fs[1..]);
      AddIsExact(q, fs[0]);
      ApplyKeepsSound(q, Add(fs[0]));
      RoomIsUsed(Apply(q, Add(fs[0])), fs[1..]);
      assert q.add + [fs[0]] + fs[1..] == q.add + fs;
      assert q.accepted + [fs[0]] + fs[1..] == q.accepted + fs;
    }
  }

  lemma {:induction false} ApplyAllOfConcat(q: Queue, ss: seq<QueueStep>, ts: seq<QueueStep>)
    requires RunPossible(q, ss) && RunPossible(ApplyAll(q, ss), ts)
    ensures RunPossible(q, ss + ts) && ApplyAll(q, ss + ts) == ApplyAll(ApplyAll(q, ss), ts)
    decreases |ss|
  {
    if ss == [] {
      assert ss + ts == ts;
    } else {
      assert (ss + ts)[1..] == ss[1..] + ts;
      ApplyAllOfConcat(Apply(q, ss[0]), ss[1..], ts);
    }
  }

  /** In every reachable state of the queue, any list of frames that fits into the 128 slots of the
      buffer being filled is accepted in full, and the worker then hands it over, behind all
      that was accepted before. */
  lemma NoFrameIsDroppedWhileThereIsRoom(before: seq<QueueStep>, fs: seq<CanFrame>) returns (worker: seq<QueueStep>)
    requires RunPossible(EMPTY, before) && |ApplyAll(EMPTY, before).add| + |fs| <= 128
    ensures forall k :: 0 <= k < |worker| ==> !worker[k].Add?
    ensures RunPossible(EMPTY, before + Adds(fs) + worker)
    ensures var q := ApplyAll(EMPTY, before);
            ApplyAll(EMPTY, before + Adds(fs) + worker).handed == q.accepted + fs
  {
    RunKeepsSound(EMPTY, before);
    var q := ApplyAll(EMPTY, before);
    RoomIsUsed(q, fs);
    ApplyAllOfConcat(EMPTY, before, Adds(fs));
    worker := WorkerDrains(ApplyAll(q, Adds(fs)));
    ApplyAllOfConcat(EMPTY, before + Adds(fs), worker);
  }

  /** With adds between any two steps of the worker: the frames handed over, followed by the
      rest of the buffer being written and the buffer being filled, are the accepted frames in
      their order, each once; at most 256 frames are in flight. */
  lemma RefinesFifo(ss: seq<QueueStep>)
    requires RunPossible(EMPTY, ss)
    ensures var q := ApplyAll(EMPTY, ss);
            && q.handed + Pending(q) == Offered(EMPTY, ss)
            && |Pending(q)| <= 256
            && q.handed == Offered(EMPTY, ss)[..|q.handed|]
            && (Pending(q) == [] ==> q.handed == Offered(EMPTY, ss))
  {
    RunKeepsSound(EMPTY, ss);
    AcceptedAreOffered(EMPTY, ss);
    var q := ApplyAll(EMPTY, ss);
    assert (q.handed + Pending(q))[..|q.handed|] == q.handed;
  }

  // ---- the worker drains the queue -----------------------------------------------------------

  /** The worker's next step; an idle worker with nothing to write has none. */
  function WorkerStep(q: Queue): QueueStep {
    match q.worker
    case Waiting => Look
    case Switching => Switch
    case Draining => if q.next < |q.write| then HandOver(0) else Finish
  }

  /** Steps of the worker alone until nothing is pending and it waits again. */
  function StepsToDrain(q: Queue): nat
    requires Sound(q)
  {
    match q.worker
    case Waiting => if q.add == [] then 0 else |q.add| + 3
    case Switching => |q.add| + 2
    case Draining => (|q.write| - q.next) + 1 + (if q.add == [] then 0 else |q.add| + 3)
  }

  /** From every sound state the worker, left alone, hands over everything that was accepted,
      in exactly that many steps. */
  lemma {:induction false} WorkerDrains(q: Queue) returns (ss: seq<QueueStep>)
    requires Sound(q)
    ensures RunPossible(q, ss) && |ss| == StepsToDrain(q)
    ensures forall k :: 0 <= k < |ss| ==> !ss[k].Add?
    ensures var r := ApplyAll(q, ss); r.worker == Waiting && Pending(r) == [] && r.handed == q.accepted
    decreases StepsToDrain(q)
  {
    if StepsToDrain(q) == 0 {
      ss := [];
    } else {
      var s := WorkerStep(q);
      ApplyKeepsSound(q, s);
      var rest := WorkerDrains(Apply(q, s));
      ss := [s] + rest;
      assert ss[1..] == rest;
    }
  }

  // ---- the summary error -------------------------------------------------------------------------

  /** The last non-zero result of `writeCAN` since the error was last taken. */
  function LastError(ss: seq<QueueStep>, before: int): int
    decreases |ss|
  {
    if ss == [] then before
    else
      var s := ss[|ss| - 1];
      if s == TakeError then 0
      else if s.HandOver? && s.error != 0 then s.error
      else LastError(ss[..|ss| - 1], before)
  }

  lemma {:induction false} ErrorIsLast(q: Queue, ss: seq<QueueStep>)
    requires RunPossible(q, ss)
    ensures ApplyAll(q, ss).lastError == LastError(ss, q.lastError)
    decreases |ss|
  {
    if ss != [] {
      ErrorIsLast(Apply(q, ss[0]), ss[1..]);
      LastErrorOfTail(ss, q.lastError, Apply(q, ss[0]).lastError);
    }
  }

  lemma {:induction false} LastErrorOfTail(ss: seq<QueueStep>, before: int, after: int)
    requires ss != []
    requires after == LastError(ss[..1], before)
    ensures LastError(ss, before) == LastError(ss[1..], after)
    decreases |ss|
  {
    if |ss| == 1 {
      assert ss[..1] == ss;
    } else {
      var k := |ss| - 1;
      assert ss[..k][..1] == ss[..1] && ss[..k][1..] == ss[1..][..|ss[1..]| - 1];
      LastErrorOfTail(ss[..k], before, after);
    }
  }
}
