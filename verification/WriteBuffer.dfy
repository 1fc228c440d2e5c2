/** The class `ecmcSocketCANWriteBuffer`, proved against the steps of `WriteQueue.dfy`. */
module WriteBuffer {
  import opened Can
  import opened WriteQueue

  const NO_FRAME: CanFrame := RawFrame(0, 0, Zeros(8))

  /** `struct canWriteBuffer`. */
  class CanWriteBuffer {
    const frames: array<CanFrame>
    var frameCounter: nat

    constructor ()
      ensures Valid() && Contents() == [] && fresh(frames)
    {
      frames := new CanFrame[CAPACITY](_ => NO_FRAME);
      frameCounter := 0;
    }

    predicate Valid()
      reads this
    {
      frames.Length == CAPACITY && frameCounter <= CAPACITY
    }

    function Contents(): (fs: seq<CanFrame>)
      requires Valid()
      reads this, frames
      ensures |fs| == frameCounter
    {
      frames[..frameCounter]
    }
  }

  class SocketCanWriteBuffer {
    const buffer1: CanWriteBuffer
    const buffer2: CanWriteBuffer
    var bufferAdd: CanWriteBuffer
    var bufferWrite: CanWriteBuffer
    var writeBusy: bool
    var lastWriteSumError: int

    ghost var worker: Worker
    ghost var next: nat
    ghost var offered: seq<CanFrame>    // every frame an adder has passed in
    ghost var accepted: seq<CanFrame>   // those that found room
    ghost var handed: seq<CanFrame>     // those passed to writeCAN

    ghost const Repr: set<object>

    /** The two pointers never denote the same buffer. */
    ghost predicate Valid()
      reads this, Repr
    {
      && Repr == {this, buffer1, buffer2, buffer1.frames, buffer2.frames}
      && buffer1 != buffer2 && buffer1.frames != buffer2.frames
      && ((bufferAdd == buffer1 && bufferWrite == buffer2) || (bufferAdd == buffer2 && bufferWrite == buffer1))
      && buffer1.Valid() && buffer2.Valid()
      && Sound(Model())
    }

    ghost function Model(): Queue
      requires {this, bufferAdd, bufferWrite, bufferAdd.frames, bufferWrite.frames} <= Repr
      requires bufferAdd.Valid() && bufferWrite.Valid()
      reads this, Repr
    {
      Queue(bufferAdd.Contents(), bufferWrite.Contents(), next, worker, accepted, handed, lastWriteSumError)
    }

    constructor ()
      ensures Valid() && fresh(Repr) && Model() == EMPTY && offered == []
    {
      var one := new CanWriteBuffer();
      var two := new CanWriteBuffer();
      buffer1, buffer2 := one, two;
      bufferAdd, bufferWrite := one, two;
      writeBusy := false;
      lastWriteSumError := 0;
      worker, next, offered, accepted, handed := Waiting, 0, [], [], [];
      Repr := {this, one, two, one.frames, two.frames};
    }

    /** `addToBuffer` under the buffer mutex. A full buffer drops the frame. */
    method AddWriteCan(f: CanFrame) returns (error: int)
      requires Valid()
      modifies Repr
      ensures Valid()
      ensures Model() == Apply(old(Model()), Add(f))
      ensures old(|Model().add|) < 128 ==>
                error == 0 && Model() == old(Model()).(add := old(Model()).add + [f], accepted := old(accepted) + [f])
      ensures old(|Model().add|) >= 128 ==> error == 10 && Model() == old(Model())
      ensures offered == old(offered) + [f]
      ensures writeBusy == old(writeBusy) && bufferWrite == old(bufferWrite)
    {
      ApplyKeepsSound(Model(), Add(f));
      offered := offered + [f];
      if bufferAdd.frameCounter >= CAPACITY {
        return ERROR_WRITE_FULL;
      }
      bufferAdd.frames[bufferAdd.frameCounter] := f;
      bufferAdd.frameCounter := bufferAdd.frameCounter + 1;
      assert bufferAdd.Contents() == old(bufferAdd.Contents()) + [f];
      accepted := accepted + [f];
      return 0;
    }

    method SwitchBuffer()
      requires Valid() && worker == Switching
      modifies Repr
      ensures Valid()
      ensures Model() == Apply(old(Model()), Switch) && Model().add == []
      ensures offered == old(offered) && writeBusy == old(writeBusy)
    {
      ApplyKeepsSound(Model(), Switch);
      var temp := bufferWrite;
      bufferWrite := bufferAdd;
      bufferAdd := temp;
      worker, next := Draining, 0;
    }

    /** One iteration of the drain loop: the write to the socket may fail in any way. Between
        two iterations adders may call `AddWriteCan`. */
    method HandOverFrame(i: nat) returns (error: int)
      requires Valid() && worker == Draining && i == next < bufferWrite.frameCounter
      modifies Repr
      ensures Valid()
      ensures Model() == Apply(old(Model()), HandOver(error))
      ensures bufferWrite == old(bufferWrite)
      ensures offered == old(offered) && writeBusy == old(writeBusy)
    {
      hide WriteQueue.Sound;
      error := *;
      ApplyKeepsSound(Model(), HandOver(error));
      handed := handed + [bufferWrite.frames[i]];
      next := next + 1;
      if error != 0 {
        lastWriteSumError := error;
      }
    }

    /** Other threads call `AddWriteCan` any number of times. */
    method AddersRun()
      requires Valid()
      modifies Repr
      ensures Valid() && bufferWrite == old(bufferWrite) && writeBusy == old(writeBusy)
      ensures OnlyAdded(old(Model()), Model())
    {
      var n: int := *;
      while n > 0
        invariant Valid() && bufferWrite == old(bufferWrite) && writeBusy == old(writeBusy)
        invariant OnlyAdded(old(Model()), Model())
      {
        var f: CanFrame := *;
        var error := AddWriteCan(f);
        n := n - 1;
      }
    }

    method HandOverThenAdd(i: nat)
      requires Valid() && worker == Draining && i == next < bufferWrite.frameCounter
      modifies Repr
      ensures Valid() && worker == Draining && bufferWrite == old(bufferWrite) && writeBusy == old(writeBusy)
      ensures var q := old(Model());
              && Model().write == q.write && next == i + 1
              && handed == q.handed + [q.write[i]] && q.accepted <= accepted
    {
      var error := HandOverFrame(i);
      AddersRun();
    }

    /** The drain loop of `writeBuffer`, with adders between any two iterations. */
    method HandOverAll()
      requires Valid() && worker == Draining && next == 0
      modifies Repr
      ensures Valid() && worker == Draining && bufferWrite == old(bufferWrite) && writeBusy == old(writeBusy)
      ensures var q := old(Model());
              && Model().write == q.write && next == |q.write|
              && handed == q.handed + q.write && q.accepted <= accepted
    {
      ghost var q := Model();
      var i := 0;
      while i < bufferWrite.frameCounter
        invariant Valid() && bufferWrite == old(bufferWrite) && writeBusy == old(writeBusy)
        invariant worker == Draining && Model().write == q.write && i == next <= |q.write|
        invariant handed == q.handed + q.write[..i] && q.accepted <= accepted
      {
        HandOverThenAdd(i);
        assert q.write[..i + 1] == q.write[..i] + [q.write[i]];
        i := i + 1;
      }
      assert q.write[..i] == q.write;
    }

    /** `writeBuffer`: hands over the whole buffer in order, then empties it, while frames may be
        added to the other one. */
    method WriteBuffer() returns (error: int)
      requires Valid() && worker == Draining && next == 0
      modifies Repr
      ensures Valid() && worker == Waiting && writeBusy == old(writeBusy)
      ensures var q := old(Model());
              && Model().write == [] && next == 0
              && handed == q.handed + q.write && q.accepted <= accepted
              && error == (if q.write == [] then 0 else lastWriteSumError)
    {
      if bufferWrite.frameCounter == 0 {
        ApplyKeepsSound(Model(), Finish);
        worker := Waiting;
        return 0;
      }
      HandOverAll();
      ApplyKeepsSound(Model(), Finish);
      bufferWrite.frameCounter := 0;
      worker, next := Waiting, 0;
      error := lastWriteSumError;
    }

    /** One pass of `doWriteWorker` between two sleeps, unless the object is being destroyed, with
        adders between any two of its steps: everything accepted before the pass is handed over,
        in order, and of what is accepted meanwhile a prefix. */
    method WorkerPass()
      requires Valid() && worker == Waiting && !writeBusy
      modifies Repr
      ensures Valid() && worker == Waiting && !writeBusy
      ensures old(accepted) <= handed <= accepted
      ensures Model().write == [] && handed + Model().add == accepted
    {
      writeBusy := true;
      AddersRun();
      if bufferAdd.frameCounter == 0 {
        assert Pending(Model()) == [];
        writeBusy := false;
        return;
      }
      ApplyKeepsSound(Model(), Look);
      worker := Switching;
      AddersRun();
      SwitchAndWrite();
      writeBusy := false;
    }

    /** `switchBuffer` and `writeBuffer`. */
    method SwitchAndWrite()
      requires Valid() && worker == Switching
      modifies Repr
      ensures Valid() && worker == Waiting && writeBusy == old(writeBusy)
      ensures old(accepted) == handed <= accepted
      ensures Model().write == [] && handed + Model().add == accepted
    {
      assert Pending(Model()) == Model().add;
      SwitchBuffer();
      AddersRun();
      var error := WriteBuffer();
      assert Pending(Model()) == Model().add;
    }

    method GetLastWritesErrorAndReset() returns (error: int)
      requires Valid()
      modifies Repr
      ensures Valid()
      ensures error == old(lastWriteSumError) && Model() == Apply(old(Model()), TakeError)
      ensures offered == old(offered) && writeBusy == old(writeBusy)
    {
      ApplyKeepsSound(Model(), TakeError);
      error := lastWriteSumError;
      lastWriteSumError := 0;
    }
  }
}
