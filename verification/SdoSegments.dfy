/** Segmentation: what a write transfer puts on the wire, and what the read state machine makes
    of such segments. */
module SdoSegments {
  import opened Can
  import opened SdoProtocol
  import opened SdoRuns

  // ---- the download segments of an object, written down independently -------------------

  function SegmentCount(n: nat): nat {
    CeilDiv(n, MAX_SEGMENT)
  }

  /** Segment `i` of object `d`: bytes 7i up to 7i+7 or the end, behind the command byte. */
  function SegmentWire(c: Config, d: seq<byte>, i: nat): Wire
    requires i < SegmentCount(|d|)
  {
    var lo := MAX_SEGMENT * i;
    var hi := Min(lo + MAX_SEGMENT, |d|);
    Wire(c.cobIdRx, [SegmentCommand(i % 2 == 1, 7 - (hi - lo), i == SegmentCount(|d|) - 1)] + d[lo..hi])
  }

  /** Segment `i` byte by byte: seven bytes in every segment but the last, behind a command byte with
      the toggle in bit 4, the number of unused bytes in bits 1 to 3, and bit 0 set on the last. */
  lemma SegmentBytes(c: Config, d: seq<byte>, i: nat)
    requires 7 * i < |d|
    ensures i < SegmentCount(|d|)
    ensures var w, left := SegmentWire(c, d, i), |d| - 7 * i;
            w == Wire(c.cobIdRx, if left > 7 then [16 * (i % 2)] + d[7 * i..7 * i + 7]
                                 else [16 * (i % 2) + 2 * (7 - left) + 1] + d[7 * i..])
  {
    SegmentPosition(|d|, i);
  }

  lemma SegmentPosition(size: nat, k: nat)
    ensures k < SegmentCount(size) <==> MAX_SEGMENT * k < size
    ensures k < SegmentCount(size) ==> (MAX_SEGMENT * (k + 1) >= size <==> k == SegmentCount(size) - 1)
  {
  }

  function SegmentWires(c: Config, d: seq<byte>, k: nat): (ws: seq<Wire>)
    requires k <= SegmentCount(|d|)
    ensures |ws| == k
    ensures forall i :: 0 <= i < k ==> ws[i] == SegmentWire(c, d, i)
  {
    seq(k, i requires 0 <= i < k => SegmentWire(c, d, i))
  }

  function Payloads(ws: seq<Wire>): seq<byte>
    requires forall i :: 0 <= i < |ws| ==> |ws[i].bytes| > 0
    decreases |ws|
  {
    if ws == [] then [] else Payloads(ws[..|ws| - 1]) + ws[|ws| - 1].bytes[1..]
  }

  lemma {:induction false} PayloadsOfPrefix(c: Config, d: seq<byte>, k: nat)
    requires k <= SegmentCount(|d|)
    ensures Payloads(SegmentWires(c, d, k)) == d[..Min(MAX_SEGMENT * k, |d|)]
    decreases k
  {
    if k > 0 {
      var ws := SegmentWires(c, d, k);
      assert ws[..k - 1] == SegmentWires(c, d, k - 1);
      PayloadsOfPrefix(c, d, k - 1);
      var lo := MAX_SEGMENT * (k - 1);
      assert d[..Min(lo + MAX_SEGMENT, |d|)] == d[..lo] + d[lo..Min(lo + MAX_SEGMENT, |d|)];
    }
  }

  /** The payloads of all segments, in order, are the object. */
  lemma SegmentsConcatenate(c: Config, d: seq<byte>)
    ensures Payloads(SegmentWires(c, d, SegmentCount(|d|))) == d
  {
    PayloadsOfPrefix(c, d, SegmentCount(|d|));
    assert d[..|d|] == d;
  }

  // ---- a write transfer emits exactly these segments ---------------------------------------

  /** A write transfer of `d` that has sent its first `k` segments. */
  predicate Sending(c: Config, s: SdoState, d: seq<byte>, k: nat) {
    && c.rw == Write && Sound(c, s) && s.busy && s.data == d
    && s.readState == ReadIdle
    && k <= SegmentCount(c.size)
    && match s.writeState
       case WriteWaitForConf => k == 0
       case WriteData => s.written == Min(MAX_SEGMENT * k, c.size) && s.useTg1 == (k > 0 && (k - 1) % 2 == 1)
                         && (c.size > 0 ==> k > 0)
       case WriteIdle => false
  }

  /** The answer that a transfer with `k` segments sent is waiting for. */
  function Awaited(c: Config, s: SdoState, k: nat): CanFrame {
    if s.writeState == WriteWaitForConf then WriteConf(c) else WriteSegmentConf(c, k > 0 && (k - 1) % 2 == 1)
  }

  lemma NextSegment(c: Config, s: SdoState, d: seq<byte>, k: nat, lock: bool)
    requires Shaped(c, s) && s.data == d && k < SegmentCount(c.size) && s.written == MAX_SEGMENT * k
    ensures var r := WriteNext(c, s, k % 2 == 1, lock);
            && r.lock == lock
            && Wires(r.sent) == [SegmentWire(c, d, k)] && r.sent == [r.sdo.segment]
            && r.sdo == s.(segment := r.sdo.segment, written := Min(MAX_SEGMENT * (k + 1), c.size))
  {
    hide SegmentFrame, SegmentCommand, SegmentCount;
    var r := WriteNext(c, s, k % 2 == 1, lock);
    SegmentPosition(c.size, k);
    assert OnWire(r.sdo.segment) == SegmentWire(c, d, k);
    assert Wires(r.sent) == [OnWire(r.sdo.segment)];
  }

  /** Any call but the awaited confirmation leaves the transfer where it is. */
  lemma SendingWaits(c: Config, s: SdoState, d: seq<byte>, k: nat, e: Event)
    requires Sending(c, s, d, k) && Callable(c, e.call) && !Releases(c, s, e.call)
    requires e.call != Frame(Awaited(c, s, k))
    ensures Sending(c, After(c, s, e).sdo, d, k) && After(c, s, e).sent == []
  {
    CallAndLock(c, s, true, e.call);
  }

  lemma SendingAdvances(c: Config, s: SdoState, d: seq<byte>, k: nat)
    requires Sending(c, s, d, k) && k < SegmentCount(c.size)
    ensures var r := Receive(c, s, true, Awaited(c, s, k));
            && Sending(c, r.sdo, d, k + 1) && Wires(r.sent) == [SegmentWire(c, d, k)]
  {
    hide WriteNext, SegmentWire, SegmentCount;
    var t := if s.writeState == WriteWaitForConf then s.(written := 0, useTg1 := false)
             else s.(useTg1 := !s.useTg1);
    SegmentPosition(c.size, k);
    NextSegment(c, t, d, k, true);
  }

  /** A call that does not end the transfer sends nothing, or it is the awaited confirmation and
      sends the next segment; the object being sent does not change. */
  lemma SendingStep(c: Config, s: SdoState, d: seq<byte>, k: nat, e: Event) returns (k': nat)
    requires Sending(c, s, d, k) && Callable(c, e.call) && !Releases(c, s, e.call)
    ensures Sending(c, After(c, s, e).sdo, d, k')
    ensures (k' == k && After(c, s, e).sent == [])
            || (k' == k + 1 && k < SegmentCount(c.size) && e.call == Frame(Awaited(c, s, k))
                && Wires(After(c, s, e).sent) == [SegmentWire(c, d, k)])
  {
    k' := k;
    if e.call != Frame(Awaited(c, s, k)) {
      SendingWaits(c, s, d, k, e);
    } else if k < SegmentCount(c.size) {
      k' := k + 1;
      SendingAdvances(c, s, d, k);
    } else {
      assert c.size == 0 && s.writeState == WriteWaitForConf;
    }
  }

  lemma WiresOfConcat(a: seq<CanFrame>, b: seq<CanFrame>)
    ensures Wires(a + b) == Wires(a) + Wires(b)
  {
  }

  /** No frame, or the one of segment `k`, ahead of those of the segments from `j` up to `m`. */
  lemma SegmentsAhead(c: Config, d: seq<byte>, k: nat, j: nat, m: nat, ahead: seq<CanFrame>, rest: seq<CanFrame>)
    requires j <= m <= SegmentCount(|d|) && Wires(rest) == SegmentWires(c, d, m)[j..]
    requires (j == k && ahead == []) || (j == k + 1 && Wires(ahead) == [SegmentWire(c, d, k)])
    ensures Wires(ahead + rest) == SegmentWires(c, d, m)[k..]
  {
    hide SegmentWire, SegmentCount;
    WiresOfConcat(ahead, rest);
    var ws := SegmentWires(c, d, m);
    if j == k {
      assert ahead + rest == rest;
    } else {
      assert ws[k..] == [ws[k]] + ws[j..];
    }
  }

  lemma {:induction false} SendingRun(c: Config, s: SdoState, d: seq<byte>, k: nat, es: seq<Event>) returns (m: nat)
    requires Sending(c, s, d, k) && AllCallable(c, es) && HoldsThroughout(c, s, es)
    ensures k <= m && Sending(c, Run(c, s, es), d, m)
    ensures Wires(Sent(c, s, es)) == SegmentWires(c, d, m)[k..]
    decreases |es|
  {
    hide Step, Wires, SegmentWire, SegmentWires, SegmentCount, Awaited, AtRest;
    if es == [] {
      m := k;
    } else {
      var t := After(c, s, es[0]);
      var j := SendingStep(c, s, d, k, es[0]);
      m := SendingRun(c, t.sdo, d, j, es[1..]);
      SegmentsAhead(c, d, k, j, m, t.sent, Sent(c, t.sdo, es[1..]));
    }
  }

  lemma StartOfTransfer(c: Config, s: SdoState, e: Event)
    requires Sound(c, s) && s.readState == ReadIdle && Callable(c, e.call) && StartsWrite(c, s, e)
    ensures var r := After(c, s, e);
            r.sent == [WriteReq(c)] && Sending(c, r.sdo, r.sdo.data, 0)
    ensures After(c, s, e).sdo.data ==
            (if e.call.Cycle? && TimesOut(s) then Zeros(c.size) else s.temp)
  {
    CallAndLock(c, s, e.flag || s.busy, e.call);
    if e.call.Cycle? {
      var h := ExecuteHead(c, s, e.flag || s.busy);
      var p := ExecutePending(c, h.sdo, h.lock);
      assert After(c, s, e).sdo == p.sdo && After(c, s, e).sent == p.sent;
    }
  }

  /** Snapshot isolation and exact segmentation: a transfer started by `start` sends the request
      and then, however many calls set new values meanwhile, a prefix of the segments of the
      bytes `dataBuffer_` held when the lock was acquired. */
  lemma TransferSendsSnapshot(c: Config, s: SdoState, start: Event, es: seq<Event>) returns (m: nat)
    requires Sound(c, s) && s.readState == ReadIdle && Callable(c, start.call) && StartsWrite(c, s, start)
    requires AllCallable(c, es) && HoldsThroughout(c, After(c, s, start).sdo, es)
    ensures var r := After(c, s, start);
            && r.sent == [WriteReq(c)]
            && Sending(c, Run(c, r.sdo, es), r.sdo.data, m)
            && Wires(Sent(c, r.sdo, es)) == SegmentWires(c, r.sdo.data, m)
  {
    StartOfTransfer(c, s, start);
    var r := After(c, s, start);
    m := SendingRun(c, r.sdo, r.sdo.data, 0, es);
    assert SegmentWires(c, r.sdo.data, m)[0..] == SegmentWires(c, r.sdo.data, m);
  }

  /** A frame ends the transfer iff it confirms the last of ceil(n/7) segments with its own
      toggle. A transfer of no bytes therefore waits for a confirmation of a segment it never
      sent. */
  lemma CompletionIsExact(c: Config, s: SdoState, d: seq<byte>, k: nat, f: CanFrame)
    requires Sending(c, s, d, k)
    ensures Releases(c, s, Frame(f)) <==>
            s.writeState == WriteData && k == SegmentCount(c.size) && f == Awaited(c, s, k)
  {
    hide SegmentFrame;
    if s.writeState == WriteData && k < SegmentCount(c.size) && f == Awaited(c, s, k) {
      NextSegment(c, s.(useTg1 := !s.useTg1), d, k, true);
    }
  }

  /** A write that the frame `f` completes has sent, after its request, exactly ceil(n/7) segments
      whose payloads are the bytes it took when it started: the temporary buffer, or zeros after
      a timeout in the same execute; whatever is set, requested or received in between. */
  lemma CompletedWriteSentObject(c: Config, s: SdoState, start: Event, es: seq<Event>, f: CanFrame)
    requires Sound(c, s) && s.readState == ReadIdle && Callable(c, start.call) && StartsWrite(c, s, start)
    requires AllCallable(c, es) && HoldsThroughout(c, After(c, s, start).sdo, es)
    requires Releases(c, Run(c, After(c, s, start).sdo, es), Frame(f))
    ensures var r := After(c, s, start).sdo;
            var d := if start.call.Cycle? && TimesOut(s) then Zeros(c.size) else s.temp;
            && Run(c, r, es).data == d && |d| == c.size
            && Wires(Sent(c, r, es)) == SegmentWires(c, d, SegmentCount(c.size))
            && Payloads(SegmentWires(c, d, SegmentCount(c.size))) == d
  {
    hide After, Run, Releases, HoldsThroughout, Receive, SegmentWire;
    var m := TransferSendsSnapshot(c, s, start, es);
    StartOfTransfer(c, s, start);
    var r := After(c, s, start).sdo;
    CompletionIsExact(c, Run(c, r, es), r.data, m, f);
    SegmentsConcatenate(c, r.data);
  }

  // ---- a read transfer alternates its requests -----------------------------------------------

  function SegmentReqs(c: Config, k: nat): (fs: seq<CanFrame>)
    ensures |fs| == k
  {
    seq(k, i => ReadSegmentReq(c, i % 2 == 1))
  }

  /** A read transfer that has sent `k` segment requests. */
  predicate Requesting(c: Config, s: SdoState, k: nat) {
    && c.rw == Read && Sound(c, s) && s.busy && s.writeState == WriteIdle
    && match s.readState
       case ReadWaitForConf => k == 0
       case ReadWaitForData => k > 0 && s.useTg1 == (k % 2 == 1)
       case ReadIdle => false
  }

  lemma RequestingStep(c: Config, s: SdoState, k: nat, e: Event) returns (k': nat)
    requires Requesting(c, s, k) && Callable(c, e.call) && !Releases(c, s, e.call)
    ensures Requesting(c, After(c, s, e).sdo, k')
    ensures After(c, s, e).sent == (if k' == k then [] else [ReadSegmentReq(c, k % 2 == 1)])
    ensures k <= k' <= k + 1
  {
    CallAndLock(c, s, true, e.call);
    k' := if After(c, s, e).sent == [] then k else k + 1;
  }

  /** The k-th segment request of a read transfer, counted from 0, carries toggle k mod 2,
      whatever frames arrive. */
  lemma {:induction false} RequestsAlternate(c: Config, s: SdoState, k: nat, es: seq<Event>) returns (m: nat)
    requires Requesting(c, s, k) && AllCallable(c, es) && HoldsThroughout(c, s, es)
    ensures k <= m && Requesting(c, Run(c, s, es), m)
    ensures Sent(c, s, es) == SegmentReqs(c, m)[k..]
    decreases |es|
  {
    hide Step;
    if es == [] {
      m := k;
    } else {
      var j := RequestingStep(c, s, k, es[0]);
      m := RequestsAlternate(c, After(c, s, es[0]).sdo, j, es[1..]);
      assert SegmentReqs(c, m)[k..] == SegmentReqs(c, m)[k..j] + SegmentReqs(c, m)[j..];
      assert SegmentReqs(c, m)[k..j] == After(c, s, es[0]).sent;
    }
  }

  // ---- feeding segments to the read state machine -------------------------------------------

  /** `readDataStateMachine` on one frame after the other. */
  function Feed(c: Config, s: SdoState, fs: seq<CanFrame>): (r: SdoState)
    requires Shaped(c, s)
    ensures Shaped(c, r)
    decreases |fs|
  {
    if fs == [] then s else ReadMachine(c, Feed(c, s, fs[..|fs| - 1]), true, fs[|fs| - 1]).sdo
  }

  predicate ReadyForData(c: Config, s: SdoState) {
    Shaped(c, s) && s.busy && s.readState == ReadWaitForData && s.received == 0 && c.size > 0
  }

  /** The first `k` segments of `d` have been read. */
  predicate ReadSoFar(c: Config, r: SdoState, d: seq<byte>, k: nat) {
    if k < SegmentCount(|d|)
    then r.readState == ReadWaitForData && r.busy && r.received == MAX_SEGMENT * k
         && r.received <= |r.temp| && |d| == c.size && r.temp[..r.received] == d[..r.received]
    else r.readState == ReadIdle && !r.busy && r.data == d
  }

  lemma RoundTripStep(c: Config, t: SdoState, d: seq<byte>, k: nat, f: CanFrame)
    requires Shaped(c, t) && |d| == c.size && k < SegmentCount(|d|)
    requires ReadSoFar(c, t, d, k) && OnWire(f) == SegmentWire(c, d, k)
    ensures ReadSoFar(c, ReadMachine(c, t, true, f).sdo, d, k + 1)
  {
    var lo, hi := MAX_SEGMENT * k, Min(MAX_SEGMENT * k + MAX_SEGMENT, |d|);
    assert f.data[..f.dlc][1..] == d[lo..hi];
    assert Payload(f) == d[lo..hi];
    CollectExtends(c, t, f);
    assert d[..lo] + d[lo..hi] == d[..hi];
    if hi == |d| {
      assert d[..hi] == d;
    }
  }

  lemma {:induction false} RoundTripPrefix(c: Config, s: SdoState, d: seq<byte>, fs: seq<CanFrame>)
    requires ReadyForData(c, s) && |d| == c.size
    requires |fs| <= SegmentCount(|d|) && Wires(fs) == SegmentWires(c, d, |fs|)
    ensures ReadSoFar(c, Feed(c, s, fs), d, |fs|)
    decreases |fs|
  {
    if fs != [] {
      var k := |fs| - 1;
      PrefixOfSegments(c, d, fs, k);
      RoundTripPrefix(c, s, d, fs[..k]);
      assert OnWire(fs[k]) == Wires(fs)[k];
      RoundTripStep(c, Feed(c, s, fs[..k]), d, k, fs[k]);
    }
  }

  lemma PrefixOfSegments(c: Config, d: seq<byte>, fs: seq<CanFrame>, k: nat)
    requires k <= |fs| <= SegmentCount(|d|) && Wires(fs) == SegmentWires(c, d, |fs|)
    ensures Wires(fs[..k]) == SegmentWires(c, d, k)
  {
    assert forall i :: 0 <= i < k ==> Wires(fs[..k])[i] == Wires(fs)[i];
  }

  /** Round trip: the segments that `writeNextDataToSlave` produces for `d`, fed to a waiting
      read state machine of the same size, reproduce `d` and end in READ_IDLE on the last
      segment and not before. */
  lemma SegmentRoundTrip(c: Config, s: SdoState, d: seq<byte>, fs: seq<CanFrame>, k: nat)
    requires ReadyForData(c, s) && |d| == c.size
    requires Wires(fs) == SegmentWires(c, d, SegmentCount(|d|)) && k <= |fs|
    ensures Feed(c, s, fs[..k]).readState == ReadIdle <==> k == |fs|
    ensures Feed(c, s, fs).data == d
  {
    PrefixOfSegments(c, d, fs, k);
    RoundTripPrefix(c, s, d, fs[..k]);
    RoundTripPrefix(c, s, d, fs);
  }

  // ---- a server that pads every segment to eight bytes --------------------------------------

  predicate AllPadded(fs: seq<CanFrame>) {
    forall i :: 0 <= i < |fs| ==> fs[i].dlc == 8
  }

  /** The state after `k` full segments, when `q` of them fit and leave `rest` bytes. */
  predicate PaddedAt(s: SdoState, r: SdoState, k: nat, q: nat, rest: nat) {
    if rest == 0 && k >= q then r.readState == ReadIdle && !r.busy
    else && r.readState == ReadWaitForData && r.busy
         && r.received == MAX_SEGMENT * Min(k, q)
         && r.useTg1 == (if k % 2 == 0 then s.useTg1 else !s.useTg1)
  }

  lemma PaddedStep(c: Config, s: SdoState, t: SdoState, f: CanFrame, k: nat, q: nat, rest: nat)
    requires Shaped(c, t) && f.dlc == 8
    requires c.size == MAX_SEGMENT * q + rest && rest < 7
    requires PaddedAt(s, t, k, q, rest)
    ensures var r := ReadMachine(c, t, true, f);
            && PaddedAt(s, r.sdo, k + 1, q, rest)
            && (r.sdo.readState == ReadWaitForData ==> r.sent == [ReadSegmentReq(c, t.useTg1)])
  {
    assert |Payload(f)| == 7;
    if t.readState == ReadWaitForData {
      var u := Collect(c, t, f);
      assert u.received == MAX_SEGMENT * Min(k + 1, q);
    }
  }

  /** Seven bytes of each full segment are taken as long as they fit; the size is reached iff 7
      divides it, and until then a request with the other toggle follows each segment. */
  lemma {:induction false} PaddedProgress(c: Config, s: SdoState, fs: seq<CanFrame>)
    requires ReadyForData(c, s) && AllPadded(fs)
    ensures PaddedAt(s, Feed(c, s, fs), |fs|, c.size / 7, c.size % 7)
    decreases |fs|
  {
    if fs != [] {
      var k := |fs| - 1;
      PaddedProgress(c, s, fs[..k]);
      PaddedStep(c, s, Feed(c, s, fs[..k]), fs[k], k, c.size / 7, c.size % 7);
    }
  }

  /** Against padded segments a read of n > 0 bytes can complete iff 7 divides n. */
  lemma PaddedReadCompletes(c: Config, s: SdoState)
    requires ReadyForData(c, s)
    ensures (exists fs: seq<CanFrame> :: AllPadded(fs) && Feed(c, s, fs).readState == ReadIdle) <==> c.size % 7 == 0
  {
    forall fs: seq<CanFrame> | AllPadded(fs)
      ensures Feed(c, s, fs).readState == ReadIdle ==> c.size % 7 == 0
    {
      PaddedProgress(c, s, fs);
    }
    var f: CanFrame := RawFrame(c.cobIdTx, 8, Zeros(8));
    var full: seq<CanFrame> := seq(c.size / 7, _ => f);
    assert AllPadded(full);
    PaddedProgress(c, s, full);
  }

  // ---- what a padding server makes a client read ----------------------------------------------

  /** The first `k` full frames lie one behind the other in the buffer. */
  predicate Stored(buffer: seq<byte>, fs: seq<CanFrame>, k: nat) {
    k <= |fs| && 7 * k <= |buffer|
    && forall i :: 0 <= i < k ==> buffer[7 * i..7 * i + 7] == fs[i].data[1..8]
  }

  lemma StoredOneMore(buffer: seq<byte>, fs: seq<CanFrame>, k: nat)
    requires Stored(buffer, fs, k) && k < |fs| && 7 * k + 7 <= |buffer|
    ensures Stored(Overwrite(buffer, 7 * k, fs[k].data[1..8]), fs, k + 1)
  {
    var b := Overwrite(buffer, 7 * k, fs[k].data[1..8]);
    forall i | 0 <= i < k
      ensures b[7 * i..7 * i + 7] == fs[i].data[1..8]
    {
      assert b[7 * i..7 * i + 7] == b[..7 * k][7 * i..7 * i + 7];
      assert buffer[7 * i..7 * i + 7] == buffer[..7 * k][7 * i..7 * i + 7];
    }
  }

  predicate FullFramesRead(c: Config, r: SdoState, fs: seq<CanFrame>, k: nat) {
    && (r.readState == ReadWaitForData ==> Stored(r.temp, fs, Min(k, c.size / 7)))
    && (r.readState == ReadIdle ==> Stored(r.data, fs, c.size / 7))
  }

  lemma FullFrameStep(c: Config, s: SdoState, t: SdoState, fs: seq<CanFrame>, k: nat)
    requires Shaped(c, t) && k < |fs| && AllPadded(fs)
    requires PaddedAt(s, t, k, c.size / 7, c.size % 7) && FullFramesRead(c, t, fs, k)
    ensures FullFramesRead(c, ReadMachine(c, t, true, fs[k]).sdo, fs, k + 1)
  {
    hide Stored, Overwrite;
    var f := fs[k];
    assert Payload(f) == f.data[1..8];
    if t.readState == ReadWaitForData && k < c.size / 7 {
      StoredOneMore(t.temp, fs, k);
      assert Collect(c, t, f).temp == Overwrite(t.temp, 7 * k, f.data[1..8]);
    }
  }

  lemma {:induction false} FullFrames(c: Config, s: SdoState, fs: seq<CanFrame>, k: nat)
    requires ReadyForData(c, s) && AllPadded(fs) && k <= |fs|
    ensures FullFramesRead(c, Feed(c, s, fs[..k]), fs, k)
    ensures PaddedAt(s, Feed(c, s, fs[..k]), k, c.size / 7, c.size % 7)
    decreases k
  {
    hide FullFramesRead, PaddedAt, ReadMachine;
    PaddedProgress(c, s, fs[..k]);
    if k == 0 {
      assert FullFramesRead(c, Feed(c, s, fs[..k]), fs, k) by { NothingRead(c, s, fs); }
    } else {
      assert fs[..k][..k - 1] == fs[..k - 1];
      FullFrames(c, s, fs, k - 1);
      FullFrameStep(c, s, Feed(c, s, fs[..k - 1]), fs, k - 1);
    }
  }

  lemma NothingRead(c: Config, s: SdoState, fs: seq<CanFrame>)
    requires ReadyForData(c, s)
    ensures FullFramesRead(c, s, fs, 0)
  {
  }

  /** `lens` splits an object of `n` bytes into segments of one to seven bytes. */
  predicate Splits(n: nat, lens: seq<nat>) {
    if lens == [] then n == 0 else 1 <= lens[0] <= 7 && lens[0] <= n && Splits(n - lens[0], lens[1..])
  }

  /** A segment as a server sends it that always puts eight bytes on the wire. */
  function PaddedSegment(c: Config, part: seq<byte>, toggle: bool, last: bool): CanFrame
    requires |part| <= 7
  {
    RawFrame(c.cobIdTx, 8, [SegmentCommand(toggle, 7 - |part|, last)] + part + Zeros(7 - |part|))
  }

  function PaddedSegments(c: Config, d: seq<byte>, lens: seq<nat>, toggle: bool): (fs: seq<CanFrame>)
    requires Splits(|d|, lens)
    ensures |fs| == |lens| && AllPadded(fs)
    decreases |lens|
  {
    if lens == [] then []
    else [PaddedSegment(c, d[..lens[0]], toggle, |lens| == 1)]
         + PaddedSegments(c, d[lens[0]..], lens[1..], !toggle)
  }

  lemma PaddedSegmentsUnfold(c: Config, d: seq<byte>, lens: seq<nat>, toggle: bool)
    requires Splits(|d|, lens) && lens != []
    ensures 1 <= lens[0] <= 7 && lens[0] <= |d| && Splits(|d| - lens[0], lens[1..])
    ensures var fs := PaddedSegments(c, d, lens, toggle);
            && fs[0].data[1..8] == d[..lens[0]] + Zeros(7 - lens[0])
            && fs[1..] == PaddedSegments(c, d[lens[0]..], lens[1..], !toggle)
  {
  }

  predicate AllFull(lens: seq<nat>) {
    forall i :: 0 <= i < |lens| ==> lens[i] == 7
  }

  lemma SliceBehind(d: seq<byte>, at: nat, lo: nat, hi: nat)
    requires lo <= hi && at + hi <= |d|
    ensures d[at..][lo..hi] == d[at + lo..at + hi]
  {
  }

  /** Up to the first segment that is not full the segments lie at multiples of seven. */
  lemma {:induction false} FullUpTo(c: Config, d: seq<byte>, lens: seq<nat>, toggle: bool, i: nat)
    requires Splits(|d|, lens) && i < |lens| && AllFull(lens[..i])
    ensures 1 <= lens[i] <= 7 && 7 * i + lens[i] <= |d|
    ensures PaddedSegments(c, d, lens, toggle)[i].data[1..8] == d[7 * i..7 * i + lens[i]] + Zeros(7 - lens[i])
    decreases i
  {
    PaddedSegmentsUnfold(c, d, lens, toggle);
    hide PaddedSegments, PaddedSegment;
    if i > 0 {
      assert lens[0] == lens[..i][0] == 7;
      assert lens[1..][..i - 1] == lens[..i][1..];
      FullUpTo(c, d[7..], lens[1..], !toggle, i - 1);
      SliceBehind(d, 7, 7 * (i - 1), 7 * (i - 1) + lens[i]);
    }
  }

  lemma {:induction false} FullLength(n: nat, lens: seq<nat>)
    requires Splits(n, lens)
    ensures AllFull(lens) ==> n == 7 * |lens|
    decreases |lens|
  {
    if lens != [] {
      assert AllFull(lens) ==> AllFull(lens[1..]);
      FullLength(n - lens[0], lens[1..]);
    }
  }

  /** The read of `d` has completed and delivered. */
  predicate ReadsAs(c: Config, s: SdoState, d: seq<byte>, lens: seq<nat>)
    requires Shaped(c, s) && Splits(|d|, lens)
  {
    var r := Feed(c, s, PaddedSegments(c, d, lens, false));
    r.readState == ReadIdle && r.data == d
  }

  lemma FullSegmentsDeliver(c: Config, s: SdoState, d: seq<byte>, lens: seq<nat>)
    requires ReadyForData(c, s) && |d| == c.size && Splits(c.size, lens) && AllFull(lens)
    ensures ReadsAs(c, s, d, lens)
  {
    hide Feed, ReadMachine, PaddedSegments;
    var fs := PaddedSegments(c, d, lens, false);
    FullLength(c.size, lens);
    FullFrames(c, s, fs, |fs|);
    assert fs[..|fs|] == fs;
    var r := Feed(c, s, fs);
    forall j | 0 <= j < c.size
      ensures r.data[j] == d[j]
    {
      var i := j / 7;
      FullUpTo(c, d, lens, false, i);
      assert d[7 * i..7 * i + 7] + Zeros(0) == d[7 * i..7 * i + 7];
      assert r.data[7 * i..7 * i + 7][j - 7 * i] == d[7 * i..7 * i + 7][j - 7 * i];
    }
  }

  /** Ones are not read back: behind the first segment that is not full lies a zero. */
  lemma ShortSegmentSpoils(c: Config, s: SdoState, lens: seq<nat>, i: nat)
    requires ReadyForData(c, s) && Splits(c.size, lens) && i < |lens| && AllFull(lens[..i]) && lens[i] != 7
    ensures var d := seq(c.size, _ => 1); Splits(|d|, lens) && !ReadsAs(c, s, d, lens)
  {
    hide Feed, ReadMachine, PaddedSegments;
    var d: seq<byte> := seq(c.size, _ => 1);
    var fs := PaddedSegments(c, d, lens, false);
    FullUpTo(c, d, lens, false, i);
    FullFrames(c, s, fs, |fs|);
    assert fs[..|fs|] == fs;
    var r := Feed(c, s, fs);
    if r.readState == ReadIdle {
      assert i < c.size / 7;
      assert r.data[7 * i..7 * i + 7][lens[i]] == 0;
      assert r.data[7 * i + lens[i]] == 0;
    }
  }

  /** A server that pads every segment to eight bytes, as CiA 301 wants it, can cut an object
      into segments in many ways. A way to cut makes the client read every object of that size
      correctly iff all its segments are full. */
  lemma PaddedReadDelivers(c: Config, s: SdoState, lens: seq<nat>)
    requires ReadyForData(c, s) && Splits(c.size, lens)
    ensures (forall d: seq<byte> :: |d| == c.size ==> ReadsAs(c, s, d, lens)) <==> AllFull(lens)
  {
    hide ReadsAs, Splits;
    if AllFull(lens) {
      forall d: seq<byte> | |d| == c.size
        ensures ReadsAs(c, s, d, lens)
      {
        FullSegmentsDeliver(c, s, d, lens);
      }
    } else {
      var i := FirstShort(lens);
      ShortSegmentSpoils(c, s, lens, i);
    }
  }

  lemma {:induction false} FirstShort(lens: seq<nat>) returns (i: nat)
    requires !AllFull(lens)
    ensures i < |lens| && AllFull(lens[..i]) && lens[i] != 7
    decreases |lens|
  {
    var n := |lens| - 1;
    if AllFull(lens[..n]) {
      i := n;
    } else {
      i := FirstShort(lens[..n]);
      assert lens[..n][..i] == lens[..i];
    }
  }
}
