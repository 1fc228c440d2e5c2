/** Heartbeat supervision of a device (section 7.2.8.3.2 of CiA 301), as in `execute`,
    `validateFrame` and `checkNMT` of `ecmcCANOpenDevice.cpp`. */
module Heartbeat {
  import opened Can

  datatype NmtState = NotValid | BootUp | Stopped | Operational | PreOperational

  const NMT_BASE: nat := 0x700

  /** Node ids are below 128, and timeouts are not negative. */
  datatype RawNode = RawNode(nodeId: nat, heartTimeoutMs: nat, exeSampleTimeMs: nat, isMaster: bool)

  type Node = n: RawNode | n.nodeId < 128 && n.exeSampleTimeMs > 0 witness RawNode(3, 3000, 1, false)

  datatype Nmt = Nmt(state: NmtState, previous: NmtState, counter: nat)

  function FreshNmt(n: Node): Nmt {
    if n.isMaster then Nmt(Operational, Operational, 0) else Nmt(NotValid, NotValid, 0)
  }

  /** The node id is in the lower seven bits of the identifier. */
  predicate ValidFrame(n: Node, f: CanFrame) {
    f.id % 128 == n.nodeId
  }

  /** Identifiers of the predefined connection set (section 7.3.3 of CiA 301): a function code
      and a node id. */
  function CobId(code: nat, nodeId: nat): nat {
    128 * code + nodeId
  }

  /** The filter lets pass the identifiers of this node, one for each function code, and no
      other node's. */
  lemma ValidFrameIsOwn(n: Node, f: CanFrame)
    ensures ValidFrame(n, f) <==> exists code: nat :: f.id == CobId(code, n.nodeId)
  {
    if ValidFrame(n, f) {
      assert f.id == CobId(f.id / 128, n.nodeId);
    }
  }

  function Timeout(n: Node, m: Nmt): Nmt {
    if m.counter * n.exeSampleTimeMs >= n.heartTimeoutMs
    then m.(previous := m.state, state := NotValid)
    else m.(counter := m.counter + 1)
  }

  /** The state a heartbeat byte stands for; pre-operational is stored as boot-up. */
  function Decode(b: byte): NmtState {
    if b == 0x00 then BootUp
    else if b == 0x04 then Stopped
    else if b == 0x05 then Operational
    else if b == 0x7F then BootUp
    else NotValid
  }

  function Check(n: Node, m: Nmt, f: CanFrame): Nmt {
    if f.id != NMT_BASE + n.nodeId then m
    else
      var s := if f.dlc == 1 then Decode(f.data[0]) else m.state;
      Nmt(s, s, 0)
  }

  /** The NMT part of `newRxFrame`. */
  function Hear(n: Node, m: Nmt, f: CanFrame): Nmt {
    if n.isMaster || !ValidFrame(n, f) then m else Check(n, m, f)
  }

  datatype NmtEvent = Beat | Heard(f: CanFrame)

  function NmtStep(n: Node, m: Nmt, e: NmtEvent): Nmt {
    match e
    case Beat => Timeout(n, m)
    case Heard(f) => Hear(n, m, f)
  }

  function NmtRun(n: Node, m: Nmt, es: seq<NmtEvent>): Nmt
    decreases |es|
  {
    if es == [] then m else NmtRun(n, NmtStep(n, m, es[0]), es[1..])
  }

  function Executes(es: seq<NmtEvent>): nat {
    if es == [] then 0 else (if es[0].Beat? then 1 else 0) + Executes(es[1..])
  }

  /** The frame is a heartbeat of this node. */
  predicate IsHeartbeat(n: Node, f: CanFrame) {
    f.id == 0x700 + n.nodeId
  }

  /** The filter never drops the node's own heartbeat. */
  lemma OwnHeartbeatPasses(n: Node, f: CanFrame)
    requires IsHeartbeat(n, f)
    ensures ValidFrame(n, f)
  {
    assert 0x700 + n.nodeId == 14 * 128 + n.nodeId;
  }

  predicate NoHeartbeat(n: Node, es: seq<NmtEvent>) {
    forall k :: 0 <= k < |es| && es[k].Heard? ==> !IsHeartbeat(n, es[k].f)
  }

  lemma {:induction false} SilentRun(n: Node, m: Nmt, es: seq<NmtEvent>)
    requires NoHeartbeat(n, es) && m.counter <= CeilDiv(n.heartTimeoutMs, n.exeSampleTimeMs)
    ensures var r := NmtRun(n, m, es);
            var limit := CeilDiv(n.heartTimeoutMs, n.exeSampleTimeMs);
            && r.counter == Min(m.counter + Executes(es), limit)
            && r.state == (if m.counter + Executes(es) > limit then NotValid else m.state)
    decreases |es|
  {
    if es != [] {
      CeilDivIsThreshold(n.heartTimeoutMs, n.exeSampleTimeMs, m.counter);
      SilentRun(n, NmtStep(n, m, es[0]), es[1..]);
    }
  }

  lemma {:induction false} NmtRunOfConcat(n: Node, m: Nmt, es: seq<NmtEvent>, fs: seq<NmtEvent>)
    ensures NmtRun(n, m, es + fs) == NmtRun(n, NmtRun(n, m, es), fs)
    decreases |es|
  {
    if es == [] {
      assert es + fs == fs;
    } else {
      assert (es + fs)[1..] == es[1..] + fs;
      NmtRunOfConcat(n, NmtStep(n, m, es[0]), es[1..], fs);
    }
  }

  /** `nmtStateOld_` follows one execute behind the timeout. */
  lemma {:induction false} SilentRunLags(n: Node, m: Nmt, es: seq<NmtEvent>)
    requires NoHeartbeat(n, es) && m.counter <= CeilDiv(n.heartTimeoutMs, n.exeSampleTimeMs)
    ensures var beats := m.counter + Executes(es);
            var limit := CeilDiv(n.heartTimeoutMs, n.exeSampleTimeMs);
            NmtRun(n, m, es).previous ==
              if beats <= limit then m.previous else if beats == limit + 1 then m.state else NotValid
    decreases |es|
  {
    if es != [] {
      CeilDivIsThreshold(n.heartTimeoutMs, n.exeSampleTimeMs, m.counter);
      SilentRunLags(n, NmtStep(n, m, es[0]), es[1..]);
    }
  }

  /** The state that a heartbeat of one byte announces. */
  predicate Means(s: NmtState, b: byte) {
    && (s == BootUp <==> b == 0 || b == 0x7F)
    && (s == Stopped <==> b == 4)
    && (s == Operational <==> b == 5)
    && (s == NotValid <==> b !in {0, 4, 5, 0x7F})
  }

  /** After any run whose last heartbeat has one byte, and k executes since: the device shows what the
      heartbeat announced iff k <= ceil(H/E), and then is not valid, whatever other frames arrive;
      the counter saturates at ceil(H/E), and the previous state follows one execute later. */
  lemma HeartbeatIsSupervised(n: Node, m: Nmt, before: seq<NmtEvent>, f: CanFrame, es: seq<NmtEvent>)
    requires !n.isMaster && f.id == 0x700 + n.nodeId && f.dlc == 1
    requires forall k :: 0 <= k < |es| && es[k].Heard? ==> es[k].f.id != 0x700 + n.nodeId
    ensures var r, beats := NmtRun(n, m, before + [Heard(f)] + es), Executes(es);
            var limit := CeilDiv(n.heartTimeoutMs, n.exeSampleTimeMs);
            && (if beats <= limit then Means(r.state, f.data[0]) else r.state == NotValid)
            && (if beats <= limit + 1 then Means(r.previous, f.data[0]) else r.previous == NotValid)
            && r.counter == Min(beats, limit)
  {
    OwnHeartbeatPasses(n, f);
    NmtRunOfConcat(n, m, before + [Heard(f)], es);
    NmtRunOfConcat(n, m, before, [Heard(f)]);
    var u := NmtRun(n, m, before);
    assert [Heard(f)][1..] == [];
    var v := NmtStep(n, u, Heard(f));
    assert NmtRun(n, u, [Heard(f)]) == NmtRun(n, v, []) == v;
    SilentRun(n, v, es);
    SilentRunLags(n, v, es);
  }

  /** A heartbeat of any other length restarts the supervision and shows what was shown before. */
  lemma OtherLengthOnlyRestarts(n: Node, m: Nmt, f: CanFrame, es: seq<NmtEvent>)
    requires !n.isMaster && f.id == 0x700 + n.nodeId && f.dlc != 1
    requires forall k :: 0 <= k < |es| && es[k].Heard? ==> es[k].f.id != 0x700 + n.nodeId
    ensures var r := NmtRun(n, m, [Heard(f)] + es);
            var limit := CeilDiv(n.heartTimeoutMs, n.exeSampleTimeMs);
            && r.counter == Min(Executes(es), limit)
            && r.state == (if Executes(es) <= limit then m.state else NotValid)
            && r.previous == (if Executes(es) <= limit + 1 then m.state else NotValid)
  {
    OwnHeartbeatPasses(n, f);
    assert ([Heard(f)] + es)[1..] == es;
    SilentRun(n, NmtStep(n, m, Heard(f)), es);
    SilentRunLags(n, NmtStep(n, m, Heard(f)), es);
  }

  /** Until the first heartbeat a device, but not the master, is not valid. */
  lemma NothingHeard(n: Node, es: seq<NmtEvent>)
    requires !n.isMaster && NoHeartbeat(n, es)
    ensures NmtRun(n, FreshNmt(n), es).state == NmtRun(n, FreshNmt(n), es).previous == NotValid
  {
    SilentRun(n, FreshNmt(n), es);
    SilentRunLags(n, FreshNmt(n), es);
  }

  /** No run ever shows the pre-operational state, although nodes announce it. */
  lemma {:induction false} PreOperationalIsNeverShown(n: Node, m: Nmt, es: seq<NmtEvent>)
    requires m.state != PreOperational && m.previous != PreOperational
    ensures NmtRun(n, m, es).state != PreOperational && NmtRun(n, m, es).previous != PreOperational
    decreases |es|
  {
    if es != [] {
      PreOperationalIsNeverShown(n, NmtStep(n, m, es[0]), es[1..]);
    }
  }

  lemma {:induction false} MasterRun(n: Node, m: Nmt, es: seq<NmtEvent>)
    requires n.isMaster && n.heartTimeoutMs == 0
    ensures NmtRun(n, m, es).state == if Executes(es) == 0 then m.state else NotValid
    decreases |es|
  {
    if es != [] {
      MasterRun(n, NmtStep(n, m, es[0]), es[1..]);
    }
  }

  /** The master is meant to be operational always; its timeout of zero makes it not valid from
      its first execute on, for good. */
  lemma MasterIsValidOnlyBeforeExecute(n: Node, es: seq<NmtEvent>)
    requires n.isMaster && n.heartTimeoutMs == 0
    ensures NmtRun(n, FreshNmt(n), es).state == Operational <==> Executes(es) == 0
  {
    MasterRun(n, FreshNmt(n), es);
  }
}
