/** The SDO client of `ecmcCANOpenSDO.cpp` as a step function: what each public call does to
    one SDO, to the lock flag it shares with the other SDOs of its device, and which frames it
    hands to the transmit queue. `SdoClient.dfy` holds the class that is proved against it. */
module SdoProtocol {
  import opened Can

  const MAX_SEGMENT: nat := 7          // ECMC_SDO_TRANSFER_MAX_BYTES
  const REPLY_TIMEOUT: nat := 1000     // ECMC_SDO_REPLY_TIMOUT_MS, compared with execute cycles
  const ERROR_WRITE_BUSY: int := 110   // ECMC_CAN_ERROR_SDO_WRITE_BUSY
  const ERROR_TIMEOUT: int := 111      // ECMC_CAN_ERROR_SDO_TIMEOUT

  datatype Direction = Write | Read
  datatype ReadState = ReadIdle | ReadWaitForConf | ReadWaitForData
  datatype WriteState = WriteIdle | WriteWaitForConf | WriteData

  /** The arguments of the constructor. The size comes from a C `int`, so it stays below 2^31
      and none of the unsigned additions of the two state machines can wrap. */
  datatype RawConfig = RawConfig(
    cobIdTx: nat, cobIdRx: nat, rw: Direction, odIndex: nat, odSubIndex: byte, size: nat,
    readSampleTimeMs: nat, exeSampleTimeMs: nat)

  type Config = c: RawConfig |
    c.odIndex < 0x1_0000 && c.size < 0x8000_0000 && c.exeSampleTimeMs > 0
    witness RawConfig(0x583, 0x603, Read, 0x2640, 0, 56, 7000, 1)

  // ---- frame templates built by the constructor ---------------------------------------

  function OdFrame(id: nat, cmd: byte, c: Config, tail: seq<byte>): (f: CanFrame)
    requires |tail| == 4
  {
    RawFrame(id, 8, [cmd] + Le16(c.odIndex) + [c.odSubIndex] + tail)
  }

  function ReadReq(c: Config): CanFrame { OdFrame(c.cobIdRx, 0x40, c, Zeros(4)) }

  /** `readConfReqFrameTg0_` and `readConfReqFrameTg1_`. */
  function ReadSegmentReq(c: Config, toggle: bool): CanFrame {
    OdFrame(c.cobIdRx, if toggle then 0x71 else 0x61, c, Zeros(4))
  }

  function ReadConf(c: Config): CanFrame { OdFrame(c.cobIdTx, 0x41, c, Le32(c.size)) }

  function WriteReq(c: Config): CanFrame { OdFrame(c.cobIdRx, 0x21, c, Le32(c.size)) }

  function WriteConf(c: Config): CanFrame { OdFrame(c.cobIdTx, 0x60, c, Zeros(4)) }

  /** `writeConfReqFrameTg0_` and `writeConfReqFrameTg1_`. */
  function WriteSegmentConf(c: Config, toggle: bool): CanFrame {
    RawFrame(c.cobIdTx, 8, [if toggle then 0x30 else 0x20] + Zeros(7))
  }

  /** The bit field `writeCmdByte`: c in bit 0, nnn in bits 1 to 3, t in bit 4. */
  function SegmentCommand(toggle: bool, unused: nat, last: bool): byte
    requires unused <= 7
  {
    (if toggle then 16 else 0) + 2 * unused + (if last then 1 else 0)
  }

  // ---- state --------------------------------------------------------------------------

  datatype SdoState = SdoState(
    readState: ReadState, writeState: WriteState,
    received: nat, written: nat, useTg1: bool,
    busy: bool, busyCounter: nat, exeCounter: nat,
    writePending: bool, errorCode: int,
    temp: seq<byte>, data: seq<byte>,   // tempDataBuffer_ and dataBuffer_
    segment: CanFrame)                  // writeDataFrame_

  predicate Shaped(c: Config, s: SdoState) {
    |s.temp| == c.size && |s.data| == c.size && s.received <= c.size && s.written <= c.size
  }

  /** Both protocol state machines are at rest. */
  predicate AtRest(s: SdoState) {
    s.readState == ReadIdle && s.writeState == WriteIdle
  }

  function Fresh(c: Config): (s: SdoState)
    ensures Shaped(c, s) && !s.busy && AtRest(s)
  {
    SdoState(ReadIdle, WriteIdle, 0, 0, true, false, 0, 0, false, 0,
             Zeros(c.size), Zeros(c.size), RawFrame(c.cobIdRx, 8, Zeros(8)))
  }

  /** Result of one call: the SDO, the shared flag, the frames passed to `addWriteCAN`. */
  datatype Outcome = Outcome(sdo: SdoState, lock: bool, sent: seq<CanFrame>)

  // ---- the lock -----------------------------------------------------------------------

  /** `tryLockSdo1` succeeds. */
  predicate CanLock(s: SdoState, lock: bool) {
    !s.busy && !lock
  }

  /** `unlockSdo1`. */
  function Unlock(s: SdoState, lock: bool, sent: seq<CanFrame>): Outcome {
    if s.busy then Outcome(s.(busy := false), false, sent) else Outcome(s, lock, sent)
  }

  // ---- setValue and writeValue ---------------------------------------------------------

  /** `setValue`: copies `ODSize_` bytes however many the caller offered, unless that is none. */
  function SetValue(c: Config, s: SdoState, src: seq<byte>, bytes: nat): (r: SdoState)
    requires Shaped(c, s) && c.size <= |src|
    ensures Shaped(c, r)
  {
    if bytes == 0 || c.size == 0 then s else s.(temp := src[..c.size])
  }

  function WriteValue(c: Config, s: SdoState, lock: bool): (r: Outcome)
    requires Shaped(c, s)
    ensures Shaped(c, r.sdo)
  {
    if !CanLock(s, lock) then
      Outcome(s.(writePending := true), lock, [])
    else if s.writeState != WriteIdle then
      Outcome(s.(busy := true, writePending := true), true, [])  // keeps the lock
    else
      Outcome(s.(busy := true, writePending := false, data := s.temp, writeState := WriteWaitForConf),
              true, [WriteReq(c)])
  }

  // ---- execute -------------------------------------------------------------------------

  function Counted(s: SdoState): nat {
    if s.busy then s.busyCounter + 1 else 0
  }

  predicate TimesOut(s: SdoState) {
    Counted(s) > REPLY_TIMEOUT
  }

  /** The reset that a timeout performs before it calls `unlockSdo1`. */
  function TimeoutReset(c: Config, s: SdoState): (r: SdoState)
    requires Shaped(c, s)
    ensures Shaped(c, r)
  {
    s.(temp := Zeros(c.size), readState := ReadIdle, writeState := WriteIdle,
       exeCounter := 0, busyCounter := 0, errorCode := ERROR_TIMEOUT)
  }

  /** `execute` up to and including the timeout. */
  function ExecuteHead(c: Config, s: SdoState, lock: bool): (r: Outcome)
    requires Shaped(c, s)
    ensures Shaped(c, r.sdo)
  {
    if TimesOut(s) then Unlock(TimeoutReset(c, s), lock, [])
    else Outcome(s.(busyCounter := Counted(s)), lock, [])
  }

  predicate ReadDue(c: Config, s: SdoState) {
    c.rw == Read && s.exeCounter * c.exeSampleTimeMs >= c.readSampleTimeMs
  }

  function ExecutePending(c: Config, s: SdoState, lock: bool): (r: Outcome)
    requires Shaped(c, s)
    ensures Shaped(c, r.sdo)
  {
    if !s.busy && s.writePending then WriteValue(c, s, lock) else Outcome(s, lock, [])
  }

  function ExecuteSample(c: Config, s: SdoState, lock: bool): (r: Outcome)
    requires Shaped(c, s)
    ensures Shaped(c, r.sdo)
  {
    if c.rw == Write then Outcome(s, lock, [])
    else if !ReadDue(c, s) then Outcome(s.(exeCounter := s.exeCounter + 1), lock, [])
    else if !CanLock(s, lock) then Outcome(s, lock, [])
    else Outcome(s.(busy := true, exeCounter := 0, received := 0, readState := ReadWaitForConf),
                 true, [ReadReq(c)])
  }

  /** `execute` after the timeout: the pending write, then the read sampling. */
  function ExecuteTail(c: Config, s: SdoState, lock: bool): (r: Outcome)
    requires Shaped(c, s)
    ensures Shaped(c, r.sdo)
  {
    var p := ExecutePending(c, s, lock);
    var q := ExecuteSample(c, p.sdo, p.lock);
    Outcome(q.sdo, q.lock, p.sent + q.sent)
  }

  function Execute(c: Config, s: SdoState, lock: bool): (r: Outcome)
    requires Shaped(c, s)
    ensures Shaped(c, r.sdo)
  {
    var h := ExecuteHead(c, s, lock);
    ExecuteTail(c, h.sdo, h.lock)
  }

  // ---- received frames -------------------------------------------------------------------

  /** Payload bytes of a data frame, at most seven. A frame without any byte carries nothing. */
  function Payload(f: CanFrame): (p: seq<byte>)
    ensures |p| <= MAX_SEGMENT
  {
    if f.dlc == 0 then [] else f.data[1..f.dlc]
  }

  /** The payload fits into what is still missing. */
  predicate Accepts(c: Config, s: SdoState, f: CanFrame) {
    f.dlc > 0 && |Payload(f)| + s.received <= c.size
  }

  /** The source has no result for a frame without any byte that reaches the copy of a read: it
      would copy a negative length. It does so only once data has arrived; before, the length of
      -1 is a large unsigned number, which does not fit. */
  predicate Digestible(c: Config, s: SdoState, f: CanFrame) {
    s.busy && f.id == c.cobIdTx && c.rw == Read && s.readState == ReadWaitForData && s.received > 0 ==> f.dlc > 0
  }

  function Collect(c: Config, s: SdoState, f: CanFrame): (r: SdoState)
    requires Shaped(c, s)
    ensures Shaped(c, r)
  {
    if Accepts(c, s, f) then
      s.(temp := Overwrite(s.temp, s.received, Payload(f)), received := s.received + |Payload(f)|)
    else s
  }

  function ReadMachine(c: Config, s: SdoState, lock: bool, f: CanFrame): (r: Outcome)
    requires Shaped(c, s)
    ensures Shaped(c, r.sdo)
  {
    match s.readState
    case ReadWaitForConf =>
      if f != ReadConf(c) then Outcome(s, lock, [])
      else Outcome(s.(readState := ReadWaitForData, useTg1 := true), lock, [ReadSegmentReq(c, false)])
    case ReadWaitForData =>
      var t := Collect(c, s, f);
      if t.received < c.size then
        Outcome(t.(useTg1 := !t.useTg1), lock, [ReadSegmentReq(c, t.useTg1)])
      else
        Unlock(t.(readState := ReadIdle, useTg1 := false, data := t.temp), lock, [])
    case ReadIdle => Outcome(s, lock, [])
  }

  /** `writeDataFrame_` with a new command byte and payload; the slots behind the payload keep
      what an earlier segment left in them. */
  function SegmentFrame(c: Config, stale: CanFrame, cmd: byte, part: seq<byte>): (f: CanFrame)
    requires |part| <= MAX_SEGMENT
    ensures f.id == c.cobIdRx && f.dlc == |part| + 1
    ensures f.data[0] == cmd && f.data[1..f.dlc] == part && f.data[..f.dlc] == [cmd] + part
  {
    var data := Overwrite(Overwrite(stale.data, 0, [cmd]), 1, part);
    assert data[..1] == [cmd];
    assert data[..|part| + 1] == data[..1] + data[1..|part| + 1];
    RawFrame(c.cobIdRx, |part| + 1, data)
  }

  /** `writeNextDataToSlave`. */
  function WriteNext(c: Config, s: SdoState, toggle: bool, lock: bool): (r: Outcome)
    requires Shaped(c, s)
    ensures Shaped(c, r.sdo)
  {
    var n := Min(c.size - s.written, MAX_SEGMENT);
    if n <= 0 then Outcome(s, lock, [])
    else
      var cmd := SegmentCommand(toggle, 7 - n, s.written + n >= c.size);
      var f := SegmentFrame(c, s.segment, cmd, s.data[s.written..s.written + n]);
      Outcome(s.(segment := f, written := s.written + n), lock, [f])
  }

  function WriteMachine(c: Config, s: SdoState, lock: bool, f: CanFrame): (r: Outcome)
    requires Shaped(c, s)
    ensures Shaped(c, r.sdo)
  {
    match s.writeState
    case WriteWaitForConf =>
      var t := s.(written := 0, useTg1 := false);
      if f != WriteConf(c) then Outcome(t, lock, [])
      else
        var n := WriteNext(c, t, t.useTg1, lock);
        n.(sdo := n.sdo.(writeState := WriteData))
    case WriteData =>
      if f != WriteSegmentConf(c, s.useTg1) then Outcome(s, lock, [])
      else if s.written >= c.size then
        Unlock(s.(writeState := WriteIdle, useTg1 := false), lock, [])
      else
        var t := s.(useTg1 := !s.useTg1);
        WriteNext(c, t, t.useTg1, lock)
    case WriteIdle => Outcome(s, lock, [])
  }

  /** `newRxFrame`. */
  function Receive(c: Config, s: SdoState, lock: bool, f: CanFrame): (r: Outcome)
    requires Shaped(c, s)
    ensures Shaped(c, r.sdo)
  {
    if !s.busy || f.id != c.cobIdTx then Outcome(s, lock, [])
    else if c.rw == Read then ReadMachine(c, s, lock, f)
    else WriteMachine(c, s, lock, f)
  }

  // ---- one step ----------------------------------------------------------------------------

  /** The calls that the three threads make on one SDO: real-time cycle, socket reader, asyn. */
  datatype Call = Cycle | Frame(f: CanFrame) | Set(src: seq<byte>, bytes: nat) | Request

  /** What `setValue` demands of its caller: it always reads `ODSize_` bytes. */
  predicate Callable(c: Config, call: Call) {
    call.Set? ==> c.size <= |call.src|
  }

  /** Only write SDOs have their asyn write callback registered. */
  predicate FromPlugin(c: Config, call: Call) {
    Callable(c, call) && (call.Set? || call.Request? ==> c.rw == Write)
  }

  function Step(c: Config, s: SdoState, lock: bool, call: Call): (r: Outcome)
    requires Shaped(c, s) && Callable(c, call)
    ensures Shaped(c, r.sdo)
  {
    match call
    case Cycle => Execute(c, s, lock)
    case Frame(f) => Receive(c, s, lock, f)
    case Set(src, bytes) => Outcome(SetValue(c, s, src, bytes), lock, [])
    case Request => WriteValue(c, s, lock)
  }
}
