/** The class `ecmcCANOpenSDO`, proved against the steps of `SdoProtocol.dfy`. */
module SdoClient {
  import opened Can
  import opened SdoProtocol
  import opened WriteBuffer

  /** `std::atomic_flag`, shared by the SDOs of a device. */
  class AtomicFlag {
    var isSet: bool

    constructor ()
      ensures !isSet
    {
      isSet := false;
    }

    method TestAndSet() returns (previous: bool)
      modifies this
      ensures isSet && previous == old(isSet)
    {
      previous := isSet;
      isSet := true;
    }

    method Clear()
      modifies this
      ensures !isSet
    {
      isSet := false;
    }
  }

  /** A sum as `uint32_t`. */
  function Unsigned(x: int): nat {
    x % 0x1_0000_0000
  }

  lemma UnsignedSumFits(bytes: int, received: nat, size: nat)
    requires -1 <= bytes <= 7 && (received > 0 ==> bytes >= 0) && received <= size < 0x8000_0000
    ensures Unsigned(bytes + received) <= size <==> 0 <= bytes && bytes + received <= size
  {
  }

  lemma IsOverwritten(dst: seq<byte>, at: nat, src: seq<byte>, r: seq<byte>)
    requires |r| == |dst| && at + |src| <= |dst|
    requires forall k :: 0 <= k < |dst| ==> r[k] == if at <= k < at + |src| then src[k - at] else dst[k]
    ensures r == Overwrite(dst, at, src)
  {
  }

  class SdoObject {
    const config: Config
    const queue: SocketCanWriteBuffer
    const sdo1Lock: AtomicFlag
    const tempDataBuffer: array<byte>
    const dataBuffer: array<byte>

    var readState: ReadState
    var writeState: WriteState
    var receivedBytes: nat
    var writtenBytes: nat
    var useTg1Frame: bool
    var busy: bool
    var busyCounter: nat
    var exeCounter: nat
    var writePending: bool
    var errorCode: int
    var writeDataFrame: CanFrame

    ghost const Own: set<object>

    ghost predicate Valid()
      reads this
    {
      && Own == {this, tempDataBuffer, dataBuffer}
      && tempDataBuffer != dataBuffer
      && tempDataBuffer.Length == config.size && dataBuffer.Length == config.size
      && receivedBytes <= config.size && writtenBytes <= config.size
    }

    /** The SDO, the shared flag and the queue are different things. */
    ghost predicate Wired()
      reads this, queue, queue.Repr
    {
      Valid() && queue.Valid() && Own !! queue.Repr && sdo1Lock !in Own && sdo1Lock !in queue.Repr
    }

    ghost function State(): (s: SdoState)
      requires Valid()
      reads this, tempDataBuffer, dataBuffer
      ensures Shaped(config, s)
    {
      SdoState(readState, writeState, receivedBytes, writtenBytes, useTg1Frame, busy, busyCounter,
               exeCounter, writePending, errorCode, tempDataBuffer[..], dataBuffer[..], writeDataFrame)
    }

    constructor (queue: SocketCanWriteBuffer, config: Config, sdo1Lock: AtomicFlag)
      ensures Valid() && State() == Fresh(config) && fresh(Own)
      ensures readState == ReadIdle && writeState == WriteIdle && !busy && !writePending
      ensures busyCounter == 0 && exeCounter == 0 && errorCode == 0 && receivedBytes == 0 && writtenBytes == 0
      ensures forall k :: 0 <= k < config.size ==> tempDataBuffer[k] == 0 && dataBuffer[k] == 0
      ensures this.queue == queue && this.config == config && this.sdo1Lock == sdo1Lock
    {
      this.queue, this.config, this.sdo1Lock := queue, config, sdo1Lock;
      var a := new byte[config.size](_ => 0);
      var b := new byte[config.size](_ => 0);
      tempDataBuffer, dataBuffer := a, b;
      readState, writeState := ReadIdle, WriteIdle;
      receivedBytes, writtenBytes, useTg1Frame := 0, 0, true;
      busy, busyCounter, exeCounter, writePending, errorCode := false, 0, 0, false, 0;
      writeDataFrame := RawFrame(config.cobIdRx, 8, Zeros(8));
      Own := {this, a, b};
      new;
      assert tempDataBuffer[..] == Zeros(config.size) && dataBuffer[..] == Zeros(config.size);
    }

    // ---- the lock ------------------------------------------------------------------------

    method TryLockSdo1() returns (ok: bool)
      requires Wired()
      modifies this`busy, sdo1Lock
      ensures Wired()
      ensures ok == (!old(busy) && !old(sdo1Lock.isSet))
      ensures State() == old(State()).(busy := old(busy) || ok)
      ensures sdo1Lock.isSet == (old(sdo1Lock.isSet) || ok)
    {
      hide SocketCanWriteBuffer.Valid;
      if busy {
        return false;
      }
      var previous := sdo1Lock.TestAndSet();
      if previous {
        return false;
      }
      busy := true;
      return true;
    }

    method UnlockSdo1()
      requires Wired()
      modifies this`busy, sdo1Lock
      ensures Wired()
      ensures Outcome(State(), sdo1Lock.isSet, []) == Unlock(old(State()), old(sdo1Lock.isSet), [])
      ensures State() == old(State()).(busy := false)
      ensures sdo1Lock.isSet == (old(sdo1Lock.isSet) && !old(busy))
    {
      hide SocketCanWriteBuffer.Valid;
      if busy {
        sdo1Lock.Clear();
        busy := false;
      }
    }

    /** `addWriteCAN`: the SDO does not look at the result, so a full queue loses the frame. */
    method Send(f: CanFrame)
      requires Wired()
      modifies queue.Repr
      ensures Wired() && State() == old(State()) && sdo1Lock.isSet == old(sdo1Lock.isSet)
      ensures queue.offered == old(queue.offered) + [f]
    {
      var error := queue.AddWriteCan(f);
    }

    // ---- asyn thread ---------------------------------------------------------------------

    method SetValue(src: seq<byte>, bytes: nat)
      requires Valid() && config.size <= |src|
      modifies tempDataBuffer
      ensures Valid() && State() == SdoProtocol.SetValue(config, old(State()), src, bytes)
      ensures State() == old(State()).(temp := if bytes == 0 then old(State()).temp else src[..config.size])
    {
      var bytesToCopy := if config.size < bytes then config.size else bytes;
      if bytesToCopy == 0 {
        return;
      }
      forall k | 0 <= k < tempDataBuffer.Length {
        tempDataBuffer[k] := src[k];
      }
      assert tempDataBuffer[..] == src[..config.size];
    }

    method CopyTempToData()
      requires Valid()
      modifies dataBuffer
      ensures Valid() && State() == old(State()).(data := old(State()).temp)
    {
      forall k | 0 <= k < dataBuffer.Length {
        dataBuffer[k] := tempDataBuffer[k];
      }
      assert dataBuffer[..] == tempDataBuffer[..];
    }

    method WriteValue() returns (error: int)
      requires Wired()
      modifies Own, sdo1Lock, queue.Repr
      ensures Wired()
      ensures var r := SdoProtocol.WriteValue(config, old(State()), old(sdo1Lock.isSet));
              State() == r.sdo && sdo1Lock.isSet == r.lock && queue.offered == old(queue.offered) + r.sent
      ensures error == 0 || error == 110
      ensures error == 0 <==> queue.offered == old(queue.offered) + [WriteReq(config)]
      ensures error == 110 <==> writePending
      ensures error == 110 ==> queue.offered == old(queue.offered)
    {
      hide SocketCanWriteBuffer.Valid;
      if busy {
        writePending := true;
        return ERROR_WRITE_BUSY;
      }
      var ok := TryLockSdo1();
      if !ok {
        writePending := true;
        return ERROR_WRITE_BUSY;
      }
      if writeState != WriteIdle {
        writePending := true;
        return ERROR_WRITE_BUSY;
      }
      writePending := false;
      CopyTempToData();
      Send(WriteReq(config));
      writeState := WriteWaitForConf;
      return 0;
    }

    // ---- real-time thread ----------------------------------------------------------------

    method ZeroTemp()
      requires Valid()
      modifies tempDataBuffer
      ensures Valid() && State() == old(State()).(temp := Zeros(config.size))
    {
      forall k | 0 <= k < tempDataBuffer.Length {
        tempDataBuffer[k] := 0;
      }
      assert tempDataBuffer[..] == Zeros(config.size);
    }

    /** What a timeout resets before it unlocks. */
    method GiveUp()
      requires Valid()
      modifies Own
      ensures Valid() && State() == TimeoutReset(config, old(State()))
    {
      ZeroTemp();
      readState, writeState := ReadIdle, WriteIdle;
      exeCounter, busyCounter := 0, 0;
      errorCode := ERROR_TIMEOUT;
    }

    /** `execute` up to and including the timeout. */
    method SuperviseReply()
      requires Wired()
      modifies Own, sdo1Lock
      ensures Wired()
      ensures Outcome(State(), sdo1Lock.isSet, []) == ExecuteHead(config, old(State()), old(sdo1Lock.isSet))
    {
      hide SocketCanWriteBuffer.Valid;
      if busy {
        busyCounter := busyCounter + 1;
      } else {
        busyCounter := 0;
      }
      if busyCounter > REPLY_TIMEOUT {
        GiveUp();
        UnlockSdo1();
      }
    }

    /** `execute` after the pending write: the read sampling. */
    method SampleRead()
      requires Wired()
      modifies Own, sdo1Lock, queue.Repr
      ensures Wired()
      ensures var r := ExecuteSample(config, old(State()), old(sdo1Lock.isSet));
              State() == r.sdo && sdo1Lock.isSet == r.lock && queue.offered == old(queue.offered) + r.sent
    {
      hide SocketCanWriteBuffer.Valid;
      if exeCounter * config.exeSampleTimeMs < config.readSampleTimeMs && config.rw == Read {
        exeCounter := exeCounter + 1;
      } else if config.rw == Read {
        var ok := TryLockSdo1();
        if !ok {
          return;
        }
        exeCounter := 0;
        receivedBytes := 0;
        readState := ReadWaitForConf;
        Send(ReadReq(config));
      }
    }

    method Execute()
      requires Wired()
      modifies Own, sdo1Lock, queue.Repr
      ensures Wired()
      ensures var r := SdoProtocol.Execute(config, old(State()), old(sdo1Lock.isSet));
              State() == r.sdo && sdo1Lock.isSet == r.lock && queue.offered == old(queue.offered) + r.sent
    {
      hide SocketCanWriteBuffer.Valid;
      hide SdoProtocol.WriteValue, ExecuteHead, ExecuteSample;
      SuperviseReply();
      if !busy && writePending {
        var error := WriteValue();
      }
      SampleRead();
    }

    // ---- reader thread -------------------------------------------------------------------

    /** `frameEqual` compares identifier, length code and all eight data bytes. */
    static method FrameEqual(a: CanFrame, b: CanFrame) returns (equal: bool)
      ensures equal <==> a == b
    {
      equal :=
        && a.id == b.id && a.dlc == b.dlc
        && a.data[0] == b.data[0] && a.data[1] == b.data[1] && a.data[2] == b.data[2] && a.data[3] == b.data[3]
        && a.data[4] == b.data[4] && a.data[5] == b.data[5] && a.data[6] == b.data[6] && a.data[7] == b.data[7];
      assert equal ==> a.data == b.data;
    }

    method WriteWaitForDataConfFrame(useToggle: bool, f: CanFrame) returns (confirmed: bool)
      requires Valid()
      ensures confirmed <==> f == WriteSegmentConf(config, useToggle)
    {
      if useToggle {
        confirmed := FrameEqual(WriteSegmentConf(config, true), f);
      } else {
        confirmed := FrameEqual(WriteSegmentConf(config, false), f);
      }
    }

    /** Returns the number of bytes put into the segment, 0 if there are none left. */
    method WriteNextDataToSlave(useToggle: bool) returns (bytes: nat)
      requires Wired()
      modifies this, queue.Repr
      ensures Wired()
      ensures var r := WriteNext(config, old(State()), useToggle, sdo1Lock.isSet);
              State() == r.sdo && sdo1Lock.isSet == r.lock && queue.offered == old(queue.offered) + r.sent
      ensures bytes == writtenBytes - old(writtenBytes)
    {
      hide SocketCanWriteBuffer.Valid, SegmentFrame;
      var bytesToWrite := config.size - writtenBytes;
      if bytesToWrite > MAX_SEGMENT {
        bytesToWrite := MAX_SEGMENT;
      }
      if bytesToWrite <= 0 {
        return 0;
      }
      var command := SegmentCommand(useToggle, 7 - bytesToWrite, writtenBytes + bytesToWrite >= config.size);
      writeDataFrame := SegmentFrame(config, writeDataFrame, command,
                                     dataBuffer[writtenBytes..writtenBytes + bytesToWrite]);
      assert dataBuffer[writtenBytes..writtenBytes + bytesToWrite]
          == dataBuffer[..][writtenBytes..writtenBytes + bytesToWrite];
      Send(writeDataFrame);
      writtenBytes := writtenBytes + bytesToWrite;
      return bytesToWrite;
    }

    /** The first case of the switch: the confirmation of the request. */
    method ConfirmRequest(f: CanFrame)
      requires Wired() && writeState == WriteWaitForConf
      modifies this, queue.Repr
      ensures Wired()
      ensures var r := WriteMachine(config, old(State()), sdo1Lock.isSet, f);
              State() == r.sdo && sdo1Lock.isSet == r.lock && queue.offered == old(queue.offered) + r.sent
    {
      hide SocketCanWriteBuffer.Valid, WriteNext;
      writtenBytes := 0;
      useTg1Frame := false;
      var equal := FrameEqual(WriteConf(config), f);
      if !equal {
        return;
      }
      var bytes := WriteNextDataToSlave(useTg1Frame);
      writeState := WriteData;
    }

    /** The second case: the confirmation of a segment. */
    method ConfirmSegment(f: CanFrame)
      requires Wired() && writeState == WriteData
      modifies this, sdo1Lock, queue.Repr
      ensures Wired()
      ensures var r := WriteMachine(config, old(State()), old(sdo1Lock.isSet), f);
              State() == r.sdo && sdo1Lock.isSet == r.lock && queue.offered == old(queue.offered) + r.sent
    {
      hide SocketCanWriteBuffer.Valid, WriteNext;
      var confirmed := WriteWaitForDataConfFrame(useTg1Frame, f);
      if !confirmed {
        return;
      }
      if writtenBytes >= config.size {
        writeState := WriteIdle;
        useTg1Frame := false;
        UnlockSdo1();
        return;
      }
      useTg1Frame := !useTg1Frame;
      var bytes := WriteNextDataToSlave(useTg1Frame);
    }

    method WriteDataStateMachine(f: CanFrame)
      requires Wired()
      modifies this, sdo1Lock, queue.Repr
      ensures Wired()
      ensures var r := WriteMachine(config, old(State()), old(sdo1Lock.isSet), f);
              State() == r.sdo && sdo1Lock.isSet == r.lock && queue.offered == old(queue.offered) + r.sent
    {
      hide SocketCanWriteBuffer.Valid, WriteNext;
      match writeState {
        case WriteWaitForConf => ConfirmRequest(f);
        case WriteData => ConfirmSegment(f);
        case WriteIdle =>
      }
    }

    /** `memcpy` into the temporary buffer. */
    method CopyIntoTemp(at: nat, src: seq<byte>)
      requires Valid() && at + |src| <= tempDataBuffer.Length
      modifies tempDataBuffer
      ensures Valid() && State() == old(State()).(temp := Overwrite(old(State()).temp, at, src))
    {
      hide Overwrite;
      forall k | 0 <= k < |src| {
        tempDataBuffer[at + k] := src[k];
      }
      IsOverwritten(old(tempDataBuffer[..]), at, src, tempDataBuffer[..]);
    }

    /** The copy of the payload behind what was received before. The sum is unsigned. */
    method CollectPayload(f: CanFrame)
      requires Valid() && (receivedBytes > 0 ==> f.dlc > 0)
      modifies this`receivedBytes, tempDataBuffer
      ensures Valid() && State() == Collect(config, old(State()), f)
    {
      hide Unsigned, Overwrite;
      var bytesToRead: int := f.dlc - 1;
      if bytesToRead > MAX_SEGMENT {
        bytesToRead := MAX_SEGMENT;
      }
      UnsignedSumFits(bytesToRead, receivedBytes, config.size);
      if Unsigned(bytesToRead + receivedBytes) <= config.size {
        assert f.data[1..1 + bytesToRead] == Payload(f);
        CopyIntoTemp(receivedBytes, f.data[1..1 + bytesToRead]);
        receivedBytes := receivedBytes + bytesToRead;
      }
    }

    method ReadDataStateMachine(f: CanFrame)
      requires Wired() && (readState == ReadWaitForData && receivedBytes > 0 ==> f.dlc > 0)
      modifies Own, sdo1Lock, queue.Repr
      ensures Wired()
      ensures var r := ReadMachine(config, old(State()), old(sdo1Lock.isSet), f);
              State() == r.sdo && sdo1Lock.isSet == r.lock && queue.offered == old(queue.offered) + r.sent
    {
      hide SocketCanWriteBuffer.Valid;
      hide Collect, ReadConf, ReadSegmentReq;
      match readState {
        case ReadWaitForConf =>
          var equal := FrameEqual(ReadConf(config), f);
          if !equal {
            return;
          }
          readState := ReadWaitForData;
          Send(ReadSegmentReq(config, false));
          useTg1Frame := true;
        case ReadWaitForData =>
          CollectPayload(f);
          if receivedBytes < config.size {
            if useTg1Frame {
              Send(ReadSegmentReq(config, true));
              useTg1Frame := false;
            } else {
              Send(ReadSegmentReq(config, false));
              useTg1Frame := true;
            }
          }
          if receivedBytes >= config.size {
            readState := ReadIdle;
            useTg1Frame := false;
            CopyTempToData();
            UnlockSdo1();
          }
        case ReadIdle =>
      }
    }

    method NewRxFrame(f: CanFrame)
      requires Wired() && Digestible(config, State(), f)
      modifies Own, sdo1Lock, queue.Repr
      ensures Wired()
      ensures var r := Receive(config, old(State()), old(sdo1Lock.isSet), f);
              State() == r.sdo && sdo1Lock.isSet == r.lock && queue.offered == old(queue.offered) + r.sent
    {
      hide SocketCanWriteBuffer.Valid;
      hide ReadMachine, WriteMachine;
      if !busy {
        return;
      }
      if f.id != config.cobIdTx {
        return;
      }
      if config.rw == Read {
        ReadDataStateMachine(f);
      } else {
        WriteDataStateMachine(f);
      }
    }
  }
}
