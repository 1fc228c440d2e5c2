/** Process data objects (`ecmcCANOpenPDO.cpp`): cyclic writes, read supervision, and the class
    proved against these steps. */
module Pdo {
  import opened Can
  import opened SdoProtocol
  import opened WriteBuffer

  const PDO_TIMEOUT: int := 100   // ECMC_CAN_ERROR_PDO_TIMEOUT

  /** The constructor copies `can_dlc` from the size argument, which is at most eight. */
  datatype RawPdoConfig = RawPdoConfig(
    cobId: nat, rw: Direction, size: nat, readTimeoutMs: nat, writeCycleMs: int, exeSampleTimeMs: nat)

  type PdoConfig = c: RawPdoConfig | c.size <= 8 && c.exeSampleTimeMs > 0
    witness RawPdoConfig(0x183, Read, 8, 10000, 0, 1)

  datatype PdoState = PdoState(exeCounter: nat, errorCode: int, data: seq<byte>, frame: CanFrame)

  predicate PdoShaped(c: PdoConfig, s: PdoState) {
    |s.data| == c.size && s.frame.dlc == c.size && s.frame.id == c.cobId
  }

  function FreshPdo(c: PdoConfig): (s: PdoState)
    ensures PdoShaped(c, s)
  {
    PdoState(0, 0, Zeros(c.size), RawFrame(c.cobId, c.size, Zeros(8)))
  }

  /** `validateFrame`. */
  predicate ForPdo(c: PdoConfig, f: CanFrame) {
    f.id == c.cobId && f.dlc == c.size
  }

  function LoadFrame(c: PdoConfig, s: PdoState): (f: CanFrame)
    requires PdoShaped(c, s)
    ensures f.id == c.cobId && f.dlc == c.size && f.data[..f.dlc] == s.data
  {
    RawFrame(s.frame.id, s.frame.dlc, Overwrite(s.frame.data, 0, s.data))
  }

  datatype PdoCall = PdoCycle | PdoFrame(f: CanFrame) | PdoSet(value: seq<byte>) | PdoWrite

  /** `setValue` takes a 64-bit value: eight bytes. */
  predicate PdoCallable(call: PdoCall) {
    call.PdoSet? ==> |call.value| == 8
  }

  /** The cycle counter covers the period of the PDO with this execute. */
  predicate Expires(c: PdoConfig, s: PdoState, periodMs: int) {
    (s.exeCounter + 1) * c.exeSampleTimeMs >= periodMs
  }

  function PdoStep(c: PdoConfig, s: PdoState, call: PdoCall): (r: (PdoState, seq<CanFrame>))
    requires PdoShaped(c, s) && PdoCallable(call)
    ensures PdoShaped(c, r.0)
  {
    match call
    case PdoCycle =>
      if c.rw == Read then
        if Expires(c, s, c.readTimeoutMs) then (s.(errorCode := PDO_TIMEOUT, exeCounter := 0), [])
        else (s.(exeCounter := s.exeCounter + 1), [])
      else if c.writeCycleMs <= 0 then (s.(exeCounter := 0), [])
      else if Expires(c, s, c.writeCycleMs) then
        (s.(frame := LoadFrame(c, s), exeCounter := 0), [LoadFrame(c, s)])
      else (s.(exeCounter := s.exeCounter + 1), [])
    case PdoFrame(f) =>
      if c.rw == Read && ForPdo(c, f) then (s.(data := f.data[..f.dlc], errorCode := 0), []) else (s, [])
    case PdoSet(value) => (s.(data := value[..c.size]), [])
    case PdoWrite => (s.(frame := LoadFrame(c, s)), [LoadFrame(c, s)])
  }

  // ---- runs --------------------------------------------------------------------------------

  predicate PdoCallsOk(calls: seq<PdoCall>) {
    forall k :: 0 <= k < |calls| ==> PdoCallable(calls[k])
  }

  function PdoRun(c: PdoConfig, s: PdoState, calls: seq<PdoCall>): (r: PdoState)
    requires PdoShaped(c, s) && PdoCallsOk(calls)
    ensures PdoShaped(c, r)
    decreases |calls|
  {
    if calls == [] then s else PdoRun(c, PdoStep(c, s, calls[0]).0, calls[1..])
  }

  function PdoCycles(calls: seq<PdoCall>): nat {
    if calls == [] then 0 else (if calls[0].PdoCycle? then 1 else 0) + PdoCycles(calls[1..])
  }

  /** Executes of a run that send a frame. */
  function CyclicWrites(c: PdoConfig, s: PdoState, calls: seq<PdoCall>): nat
    requires PdoShaped(c, s) && PdoCallsOk(calls)
    decreases |calls|
  {
    if calls == [] then 0
    else (if calls[0].PdoCycle? && PdoStep(c, s, calls[0]).1 != [] then 1 else 0)
         + CyclicWrites(c, PdoStep(c, s, calls[0]).0, calls[1..])
  }

  /** Executes per period: a period shorter than a cycle, even none, takes one. */
  function Period(periodMs: nat, c: PdoConfig): (p: nat)
    ensures p > 0
  {
    if CeilDiv(periodMs, c.exeSampleTimeMs) == 0 then 1 else CeilDiv(periodMs, c.exeSampleTimeMs)
  }

  lemma ExpiresAtPeriod(c: PdoConfig, s: PdoState, periodMs: nat)
    requires s.exeCounter < Period(periodMs, c)
    ensures Expires(c, s, periodMs) <==> s.exeCounter + 1 == Period(periodMs, c)
  {
    CeilDivIsThreshold(periodMs, c.exeSampleTimeMs, s.exeCounter + 1);
  }

  /** Number of period ends and position in the period when `n` executes follow position `r`. */
  lemma PeriodArithmetic(p: nat, r: nat, n: nat)
    requires r < p
    ensures r + 1 < p ==> r + 1 + n == r + (n + 1)
    ensures r + 1 == p ==> (r + 1 + n) / p == 1 + n / p && (r + 1 + n) % p == n % p
  {
    if r + 1 == p {
      assert n == (n / p) * p + n % p;
      assert (1 + n / p) * p == p + (n / p) * p;
      DivModUnique(p + n, p, 1 + n / p, n % p);
    }
  }

  lemma DivModUnique(x: nat, p: nat, q: nat, r: nat)
    requires p > 0 && x == q * p + r && r < p
    ensures x / p == q && x % p == r
  {
    var d, m := x / p, x % p;
    assert x == d * p + m && m < p;
    QuotientUnique(p, d, m, q, r);
  }

  lemma QuotientUnique(p: nat, d: nat, m: nat, q: nat, r: nat)
    requires d * p + m == q * p + r && m < p && r < p
    ensures d == q && m == r
  {
    assert (d + 1) * p == d * p + p && (q + 1) * p == q * p + p;
    if d < q {
      MulMonotone(d + 1, q, p);
    } else if q < d {
      MulMonotone(q + 1, d, p);
    }
  }

  /** In n executes a cyclic write PDO writes exactly floor(n / ceil(W/E)) times, whatever is
      set, written on demand or received in between. */
  lemma {:induction false} WritesAreCyclic(c: PdoConfig, s: PdoState, calls: seq<PdoCall>)
    requires c.rw == Write && c.writeCycleMs > 0 && PdoShaped(c, s) && PdoCallsOk(calls)
    requires s.exeCounter < Period(c.writeCycleMs, c)
    ensures CyclicWrites(c, s, calls) == (s.exeCounter + PdoCycles(calls)) / Period(c.writeCycleMs, c)
    ensures PdoRun(c, s, calls).exeCounter == (s.exeCounter + PdoCycles(calls)) % Period(c.writeCycleMs, c)
    decreases |calls|
  {
    hide Period, LoadFrame;
    if calls == [] {
      DivModUnique(s.exeCounter, Period(c.writeCycleMs, c), 0, s.exeCounter);
    } else {
      var t := PdoStep(c, s, calls[0]).0;
      ExpiresAtPeriod(c, s, c.writeCycleMs);
      WritesAreCyclic(c, t, calls[1..]);
      PeriodArithmetic(Period(c.writeCycleMs, c), s.exeCounter, PdoCycles(calls[1..]));
    }
  }

  lemma FreshPdoWritesCyclically(c: PdoConfig, calls: seq<PdoCall>)
    requires c.rw == Write && c.writeCycleMs > 0 && PdoCallsOk(calls)
    ensures CyclicWrites(c, FreshPdo(c), calls) == PdoCycles(calls) / CeilDiv(c.writeCycleMs, c.exeSampleTimeMs)
  {
    WritesAreCyclic(c, FreshPdo(c), calls);
    CeilDivIsThreshold(c.writeCycleMs, c.exeSampleTimeMs, 0);
  }

  /** The value a PDO has after a run: of a write PDO the last one set, of a read PDO the last
      one received or set, zeros before. */
  function LastValue(c: PdoConfig, calls: seq<PdoCall>): seq<byte>
    requires PdoCallsOk(calls)
    decreases |calls|
  {
    if calls == [] then Zeros(c.size)
    else
      match calls[|calls| - 1]
      case PdoSet(value) => value[..c.size]
      case PdoFrame(f) =>
        if c.rw == Read && f.id == c.cobId && f.dlc == c.size then OnWire(f).bytes
        else LastValue(c, calls[..|calls| - 1])
      case _ => LastValue(c, calls[..|calls| - 1])
  }

  lemma {:induction false} RunEndsWithLastValue(c: PdoConfig, calls: seq<PdoCall>)
    requires PdoCallsOk(calls)
    ensures PdoRun(c, FreshPdo(c), calls).data == LastValue(c, calls)
    decreases |calls|
  {
    if calls != [] {
      var k := |calls| - 1;
      RunEndsWithLastValue(c, calls[..k]);
      PdoRunAppend(c, FreshPdo(c), calls[..k], calls[k]);
      assert calls == calls[..k] + [calls[k]];
    }
  }

  lemma {:induction false} PdoRunAppend(c: PdoConfig, s: PdoState, calls: seq<PdoCall>, last: PdoCall)
    requires PdoShaped(c, s) && PdoCallsOk(calls) && PdoCallable(last)
    ensures PdoRun(c, s, calls + [last]) == PdoStep(c, PdoRun(c, s, calls), last).0
    decreases |calls|
  {
    hide PdoStep;
    if calls == [] {
      assert (calls + [last])[1..] == [];
    } else {
      assert (calls + [last])[1..] == calls[1..] + [last];
      PdoRunAppend(c, PdoStep(c, s, calls[0]).0, calls[1..], last);
    }
  }

  /** Every frame a PDO sends, cyclic or on demand, carries the last value on the wire. */
  lemma FramesCarryLastValue(c: PdoConfig, calls: seq<PdoCall>, call: PdoCall, f: CanFrame)
    requires PdoCallsOk(calls) && PdoCallable(call)
    requires f in PdoStep(c, PdoRun(c, FreshPdo(c), calls), call).1
    ensures OnWire(f) == Wire(c.cobId, LastValue(c, calls))
  {
    RunEndsWithLastValue(c, calls);
  }

  // ---- how many frames are sent ------------------------------------------------------------------

  /** All frames that a PDO sends along a run. */
  function PdoSent(c: PdoConfig, s: PdoState, calls: seq<PdoCall>): seq<CanFrame>
    requires PdoShaped(c, s) && PdoCallsOk(calls)
    decreases |calls|
  {
    if calls == [] then [] else PdoStep(c, s, calls[0]).1 + PdoSent(c, PdoStep(c, s, calls[0]).0, calls[1..])
  }

  /** Calls of `writeValue` from outside. */
  function Requests(calls: seq<PdoCall>): nat {
    if calls == [] then 0 else (if calls[0].PdoWrite? then 1 else 0) + Requests(calls[1..])
  }

  /** Each write on demand sends one frame, each cyclic write one, and nothing else sends any. */
  lemma {:induction false} SentIsCounted(c: PdoConfig, s: PdoState, calls: seq<PdoCall>)
    requires PdoShaped(c, s) && PdoCallsOk(calls)
    ensures |PdoSent(c, s, calls)| == Requests(calls) + CyclicWrites(c, s, calls)
    decreases |calls|
  {
    hide LoadFrame, Expires;
    if calls != [] {
      SentIsCounted(c, PdoStep(c, s, calls[0]).0, calls[1..]);
    }
  }

  /** A write PDO without a cycle, and a read PDO, send nothing in an execute: one frame for each
      write on demand is all. */
  lemma {:induction false} OnlyOnDemand(c: PdoConfig, s: PdoState, calls: seq<PdoCall>)
    requires PdoShaped(c, s) && PdoCallsOk(calls) && (c.rw == Read || c.writeCycleMs <= 0)
    ensures CyclicWrites(c, s, calls) == 0 && |PdoSent(c, s, calls)| == Requests(calls)
    decreases |calls|
  {
    hide LoadFrame, Expires;
    if calls != [] {
      OnlyOnDemand(c, PdoStep(c, s, calls[0]).0, calls[1..]);
    }
  }

  // ---- read supervision ------------------------------------------------------------------------

  /** The call brings a valid PDO. */
  predicate Brings(c: PdoConfig, call: PdoCall) {
    call.PdoFrame? && call.f.id == c.cobId && call.f.dlc == c.size
  }

  lemma {:induction false} ReadCounterRuns(c: PdoConfig, s: PdoState, calls: seq<PdoCall>)
    requires c.rw == Read && PdoShaped(c, s) && PdoCallsOk(calls)
    requires s.exeCounter < Period(c.readTimeoutMs, c)
    ensures PdoRun(c, s, calls).exeCounter == (s.exeCounter + PdoCycles(calls)) % Period(c.readTimeoutMs, c)
    decreases |calls|
  {
    hide Period;
    if calls == [] {
      DivModUnique(s.exeCounter, Period(c.readTimeoutMs, c), 0, s.exeCounter);
    } else {
      var t := PdoStep(c, s, calls[0]).0;
      ExpiresAtPeriod(c, s, c.readTimeoutMs);
      ReadCounterRuns(c, t, calls[1..]);
      PeriodArithmetic(Period(c.readTimeoutMs, c), s.exeCounter, PdoCycles(calls[1..]));
    }
  }

  /** A received PDO does not reset the supervision: the n-th execute reports the timeout iff n
      is a multiple of the period, whether or not PDOs arrived in between; any other execute
      leaves the error as the frames left it. */
  lemma TimeoutIgnoresTraffic(c: PdoConfig, calls: seq<PdoCall>)
    requires c.rw == Read && PdoCallsOk(calls)
    ensures var s := PdoRun(c, FreshPdo(c), calls);
            var t := PdoStep(c, s, PdoCycle).0;
            && t.errorCode == (if (PdoCycles(calls) + 1) % Period(c.readTimeoutMs, c) == 0 then 100
                               else s.errorCode)
            && t.data == s.data
  {
    hide Period;
    var p := Period(c.readTimeoutMs, c);
    var n := PdoCycles(calls);
    ReadCounterRuns(c, FreshPdo(c), calls);
    ExpiresAtPeriod(c, PdoRun(c, FreshPdo(c), calls), c.readTimeoutMs);
    NextMultiple(p, n);
  }

  lemma NextMultiple(p: nat, n: nat)
    requires p > 0
    ensures (n + 1) % p == 0 <==> n % p + 1 == p
  {
    assert n == (n / p) * p + n % p;
    if n % p + 1 == p {
      assert (n / p + 1) * p == (n / p) * p + p;
      DivModUnique(n + 1, p, n / p + 1, 0);
    } else {
      DivModUnique(n + 1, p, n / p, n % p + 1);
    }
  }

  /** A silent line is noticed: with no valid PDO in a whole period of executes the error is
      set. */
  lemma {:induction false} SilenceIsReported(c: PdoConfig, s: PdoState, calls: seq<PdoCall>)
    requires c.rw == Read && PdoShaped(c, s) && PdoCallsOk(calls)
    requires s.exeCounter < Period(c.readTimeoutMs, c)
    requires forall k :: 0 <= k < |calls| ==> !Brings(c, calls[k])
    ensures PdoRun(c, s, calls).errorCode ==
            if s.exeCounter + PdoCycles(calls) >= Period(c.readTimeoutMs, c) then 100 else s.errorCode
    decreases |calls|
  {
    hide Period;
    if calls != [] {
      var t := PdoStep(c, s, calls[0]).0;
      ExpiresAtPeriod(c, s, c.readTimeoutMs);
      SilenceIsReported(c, t, calls[1..]);
    }
  }

  /** Call `k` is an execute whose number is a multiple of max(1, ceil(T/E)). */
  predicate EndsPeriod(c: PdoConfig, calls: seq<PdoCall>, k: nat)
    requires k < |calls|
  {
    calls[k].PdoCycle? && PdoCycles(calls[..k + 1]) % Period(c.readTimeoutMs, c) == 0
  }

  /** Some period has ended since the last valid PDO. */
  predicate Overdue(c: PdoConfig, calls: seq<PdoCall>) {
    exists k :: 0 <= k < |calls| && EndsPeriod(c, calls, k) && forall j :: k < j < |calls| ==> !Brings(c, calls[j])
  }

  lemma {:induction false} PdoCyclesOfConcat(calls: seq<PdoCall>, last: PdoCall)
    ensures PdoCycles(calls + [last]) == PdoCycles(calls) + (if last.PdoCycle? then 1 else 0)
  {
    if calls == [] {
      assert (calls + [last])[1..] == [];
    } else {
      assert (calls + [last])[1..] == calls[1..] + [last];
      PdoCyclesOfConcat(calls[1..], last);
    }
  }

  lemma OverdueAfter(c: PdoConfig, calls: seq<PdoCall>)
    requires calls != []
    ensures var n := |calls| - 1;
            Overdue(c, calls) <==> EndsPeriod(c, calls, n) || (Overdue(c, calls[..n]) && !Brings(c, calls[n]))
  {
    hide Period, Brings;
    var n := |calls| - 1;
    var before := calls[..n];
    forall k | 0 <= k < n
      ensures EndsPeriod(c, calls, k) <==> EndsPeriod(c, before, k)
    {
      assert calls[..k + 1] == before[..k + 1];
    }
    if k :| 0 <= k < n && EndsPeriod(c, before, k) && forall j :: k < j < n ==> !Brings(c, before[j]) {
      assert EndsPeriod(c, calls, k);
      assert forall j :: k < j < n ==> !Brings(c, calls[j]);
    }
    if k :| 0 <= k < |calls| && EndsPeriod(c, calls, k) && forall j :: k < j < |calls| ==> !Brings(c, calls[j]) {
      if k < n {
        assert EndsPeriod(c, before, k);
        assert forall j :: k < j < n ==> before[j] == calls[j];
      }
    }
  }

  /** The error of a read PDO after any run: 100 iff some execute that ends a period comes after
      the last valid PDO, and 0 otherwise. */
  lemma {:induction false} ErrorIsExact(c: PdoConfig, calls: seq<PdoCall>)
    requires c.rw == Read && PdoCallsOk(calls)
    ensures PdoRun(c, FreshPdo(c), calls).errorCode == if Overdue(c, calls) then 100 else 0
    decreases |calls|
  {
    hide Period, LoadFrame, Overdue, Expires;
    if calls == [] {
      NothingOverdue(c);
    } else {
      var n := |calls| - 1;
      assert calls == calls[..n] + [calls[n]];
      ErrorIsExact(c, calls[..n]);
      OverdueAfter(c, calls);
      PdoRunAppend(c, FreshPdo(c), calls[..n], calls[n]);
      if calls[n].PdoCycle? {
        TimeoutIgnoresTraffic(c, calls[..n]);
        PdoCyclesOfConcat(calls[..n], calls[n]);
        assert calls[..n + 1] == calls;
      }
    }
  }

  lemma NothingOverdue(c: PdoConfig)
    ensures !Overdue(c, [])
  {
  }

  lemma {:induction false} WritePdoHasNoError(c: PdoConfig, s: PdoState, calls: seq<PdoCall>)
    requires c.rw == Write && PdoShaped(c, s) && PdoCallsOk(calls)
    ensures PdoRun(c, s, calls).errorCode == s.errorCode
    decreases |calls|
  {
    hide LoadFrame, Expires;
    if calls != [] {
      WritePdoHasNoError(c, PdoStep(c, s, calls[0]).0, calls[1..]);
    }
  }

  // ---- the class ----------------------------------------------------------------------------------

  class PdoObject {
    const config: PdoConfig
    const queue: SocketCanWriteBuffer
    const dataBuffer: array<byte>
    var exeCounter: nat
    var errorCode: int
    var writeFrame: CanFrame

    ghost const Own: set<object>

    ghost predicate Valid()
      reads this
    {
      && Own == {this, dataBuffer}
      && dataBuffer.Length == config.size && writeFrame.dlc == config.size && writeFrame.id == config.cobId
    }

    ghost function State(): (s: PdoState)
      requires Valid()
      reads this, dataBuffer
      ensures PdoShaped(config, s)
    {
      PdoState(exeCounter, errorCode, dataBuffer[..], writeFrame)
    }

    constructor (queue: SocketCanWriteBuffer, config: PdoConfig)
      ensures Valid() && State() == FreshPdo(config)
      ensures this.queue == queue && this.config == config && fresh(Own)
    {
      this.queue, this.config := queue, config;
      dataBuffer := new byte[config.size](_ => 0);
      exeCounter, errorCode := 0, 0;
      writeFrame := RawFrame(config.cobId, config.size, Zeros(8));
      Own := {this, dataBuffer};
      new;
      assert dataBuffer[..] == Zeros(config.size);
    }

    method Execute()
      requires Valid() && queue.Valid() && Own !! queue.Repr
      modifies Own, queue.Repr
      ensures Valid() && queue.Valid()
      ensures var r := PdoStep(config, old(State()), PdoCycle);
              State() == r.0 && queue.offered == old(queue.offered) + r.1
    {
      hide SocketCanWriteBuffer.Valid;
      exeCounter := exeCounter + 1;
      if config.rw == Read {
        if exeCounter * config.exeSampleTimeMs >= config.readTimeoutMs {
          errorCode := PDO_TIMEOUT;
          exeCounter := 0;
        }
      } else {
        if config.writeCycleMs <= 0 {
          exeCounter := 0;
          return;
        }
        if exeCounter * config.exeSampleTimeMs >= config.writeCycleMs {
          var error := WriteValue();
          exeCounter := 0;
        }
      }
    }

    method NewRxFrame(f: CanFrame)
      requires Valid()
      modifies Own
      ensures Valid() && State() == PdoStep(config, old(State()), PdoFrame(f)).0
    {
      if config.rw == Read && ForPdo(config, f) {
        forall k | 0 <= k < dataBuffer.Length {
          dataBuffer[k] := f.data[k];
        }
        errorCode := 0;
        assert dataBuffer[..] == f.data[..f.dlc];
      }
    }

    method SetValue(value: seq<byte>)
      requires Valid() && |value| == 8
      modifies Own
      ensures Valid() && State() == PdoStep(config, old(State()), PdoSet(value)).0
    {
      forall k | 0 <= k < dataBuffer.Length {
        dataBuffer[k] := value[k];
      }
      assert dataBuffer[..] == value[..config.size];
    }

    method WriteValue() returns (error: int)
      requires Valid() && queue.Valid() && Own !! queue.Repr
      modifies Own, queue.Repr
      ensures Valid() && queue.Valid()
      ensures var r := PdoStep(config, old(State()), PdoWrite);
              State() == r.0 && queue.offered == old(queue.offered) + r.1
      ensures error == (if old(|queue.Model().add|) < 128 then 0 else 10)
    {
      writeFrame := RawFrame(writeFrame.id, writeFrame.dlc, Overwrite(writeFrame.data, 0, dataBuffer[..]));
      error := queue.AddWriteCan(writeFrame);
    }
  }
}
