/** The class `ecmcCANOpenDevice`: its SDOs and PDOs share one transmit queue, its SDOs share
    one lock, and its cycle and frame dispatch are loops over both. */
module Device {
  import opened Can
  import opened SdoProtocol
  import opened SdoBank
  import opened Pdo
  import opened Heartbeat
  import opened WriteBuffer
  import opened SdoClient

  const MAX_PDOS: nat := 8                     // ECMC_CAN_DEVICE_PDO_MAX_COUNT
  const MAX_SDOS: nat := 8                     // ECMC_CAN_DEVICE_SDO_MAX_COUNT
  const PDO_INDEX_OUT_OF_RANGE: int := 1000    // ECMC_CAN_PDO_INDEX_OUT_OF_RANGE
  const SDO_INDEX_OUT_OF_RANGE: int := 1001    // ECMC_CAN_SDO_INDEX_OUT_OF_RANGE

  // ---- the loops over the PDOs -----------------------------------------------------------

  predicate ShapedPdos(cs: seq<PdoConfig>, ps: seq<PdoState>) {
    |ps| == |cs| && forall i :: 0 <= i < |cs| ==> PdoShaped(cs[i], ps[i])
  }

  /** The same call on every PDO from `i` on: their states and the frames sent. */
  function CallAll(cs: seq<PdoConfig>, ps: seq<PdoState>, call: PdoCall, i: nat): (r: (seq<PdoState>, seq<CanFrame>))
    requires ShapedPdos(cs, ps) && PdoCallable(call) && i <= |cs|
    ensures ShapedPdos(cs, r.0)
    decreases |cs| - i
  {
    if i == |cs| then (ps, [])
    else
      var o := PdoStep(cs[i], ps[i], call);
      var t := CallAll(cs, ps[i := o.0], call, i + 1);
      (t.0, o.1 + t.1)
  }

  lemma CallAllUnfolds(cs: seq<PdoConfig>, ps: seq<PdoState>, call: PdoCall, i: nat)
    requires ShapedPdos(cs, ps) && PdoCallable(call) && i < |cs|
    ensures var o := PdoStep(cs[i], ps[i], call);
            var rest := CallAll(cs, ps[i := o.0], call, i + 1);
            CallAll(cs, ps, call, i) == (rest.0, o.1 + rest.1)
  {
    hide PdoStep;
  }

  lemma CallAllEnds(cs: seq<PdoConfig>, ps: seq<PdoState>, call: PdoCall)
    requires ShapedPdos(cs, ps) && PdoCallable(call)
    ensures CallAll(cs, ps, call, |cs|) == (ps, [])
  {
  }

  /** The frames of all lists, one list behind the other. */
  function Flat(fss: seq<seq<CanFrame>>): seq<CanFrame> {
    if fss == [] then [] else fss[0] + Flat(fss[1..])
  }

  /** Each PDO from `i` on makes its own step once. */
  lemma {:induction false} CallAllIsEach(cs: seq<PdoConfig>, ps: seq<PdoState>, call: PdoCall, i: nat)
    requires ShapedPdos(cs, ps) && PdoCallable(call) && i <= |cs|
    ensures var r := CallAll(cs, ps, call, i);
            && (forall j :: 0 <= j < i ==> r.0[j] == ps[j])
            && (forall j :: i <= j < |cs| ==> r.0[j] == PdoStep(cs[j], ps[j], call).0)
    decreases |cs| - i
  {
    hide PdoStep;
    if i < |cs| {
      CallAllIsEach(cs, ps[i := PdoStep(cs[i], ps[i], call).0], call, i + 1);
    }
  }

  /** The frames that each PDO from `i` on sends on its own. */
  function SentByEach(cs: seq<PdoConfig>, ps: seq<PdoState>, call: PdoCall, i: nat): (fss: seq<seq<CanFrame>>)
    requires ShapedPdos(cs, ps) && PdoCallable(call) && i <= |cs|
    ensures |fss| == |cs| - i
    ensures forall k :: 0 <= k < |fss| ==> fss[k] == PdoStep(cs[i + k], ps[i + k], call).1
  {
    seq(|cs| - i, k requires 0 <= k < |cs| - i => PdoStep(cs[i + k], ps[i + k], call).1)
  }

  /** The frames are sent in the order of the indices. */
  lemma {:induction false} CallAllSendsInOrder(cs: seq<PdoConfig>, ps: seq<PdoState>, call: PdoCall, i: nat)
    requires ShapedPdos(cs, ps) && PdoCallable(call) && i <= |cs|
    ensures CallAll(cs, ps, call, i).1 == Flat(SentByEach(cs, ps, call, i))
    decreases |cs| - i
  {
    hide PdoStep, PdoShaped;
    if i < |cs| {
      var qs := ps[i := PdoStep(cs[i], ps[i], call).0];
      CallAllSendsInOrder(cs, qs, call, i + 1);
      assert SentByEach(cs, ps, call, i)[1..] == SentByEach(cs, qs, call, i + 1);
    }
  }

  class DeviceObject {
    const queue: SocketCanWriteBuffer
    const node: Node
    const sdo1Lock: AtomicFlag
    var sdos: seq<SdoObject>
    var pdos: seq<PdoObject>
    var nmtState: NmtState
    var nmtStateOld: NmtState
    var heartBeatCounter: nat

    ghost var Repr: set<object>

    /** The device's own parts are apart from the queue and from each other. */
    ghost predicate Valid()
      reads this, Repr
    {
      && this in Repr && sdo1Lock in Repr && queue in Repr && queue.Repr <= Repr
      && this !in queue.Repr && sdo1Lock !in queue.Repr && queue.Valid()
      && |sdos| <= MAX_SDOS && |pdos| <= MAX_PDOS
      && (forall i :: 0 <= i < |sdos| ==> OwnsSdo(sdos[i]))
      && (forall i :: 0 <= i < |pdos| ==> OwnsPdo(pdos[i]))
      && (forall i, j :: 0 <= i < j < |sdos| ==> sdos[i].Own !! sdos[j].Own)
      && (forall i, j :: 0 <= i < j < |pdos| ==> pdos[i].Own !! pdos[j].Own)
      && (forall i, j :: 0 <= i < |sdos| && 0 <= j < |pdos| ==> sdos[i].Own !! pdos[j].Own)
    }

    ghost predicate OwnsSdo(x: SdoObject)
      reads this, Repr
    {
      && x in Repr && x.Own <= Repr && this !in x.Own && sdo1Lock !in x.Own && x.Own !! queue.Repr
      && x.queue == queue && x.sdo1Lock == sdo1Lock && x.Valid()
    }

    ghost predicate OwnsPdo(x: PdoObject)
      reads this, Repr
    {
      && x in Repr && x.Own <= Repr && this !in x.Own && sdo1Lock !in x.Own && x.Own !! queue.Repr
      && x.queue == queue && x.Valid()
    }

    ghost function SdoConfigs(): (cs: seq<Config>)
      reads this
      ensures |cs| == |sdos|
    {
      seq(|sdos|, i requires 0 <= i < |sdos| reads this => sdos[i].config)
    }

    ghost function PdoConfigs(): (cs: seq<PdoConfig>)
      reads this
      ensures |cs| == |pdos|
    {
      seq(|pdos|, i requires 0 <= i < |pdos| reads this => pdos[i].config)
    }

    ghost function Sdos(): (b: Bank)
      requires Valid()
      reads this, Repr
      ensures ShapedBank(SdoConfigs(), b)
    {
      Bank(seq(|sdos|, i requires 0 <= i < |sdos| && Valid() reads this, Repr => sdos[i].State()), sdo1Lock.isSet)
    }

    ghost function Pdos(): (ps: seq<PdoState>)
      requires Valid()
      reads this, Repr
      ensures ShapedPdos(PdoConfigs(), ps)
    {
      seq(|pdos|, i requires 0 <= i < |pdos| && Valid() reads this, Repr => pdos[i].State())
    }

    ghost function Nmt(): Nmt
      reads this
    {
      Heartbeat.Nmt(nmtState, nmtStateOld, heartBeatCounter)
    }

    constructor (queue: SocketCanWriteBuffer, node: Node)
      requires queue.Valid()
      ensures Valid() && fresh(Repr - queue.Repr)
      ensures this.queue == queue && this.node == node
      ensures sdos == [] && pdos == [] && !sdo1Lock.isSet && Nmt() == FreshNmt(node)
    {
      this.queue, this.node := queue, node;
      var flag := new AtomicFlag();
      sdo1Lock := flag;
      sdos, pdos := [], [];
      nmtState := if node.isMaster then Operational else NotValid;
      nmtStateOld := if node.isMaster then Operational else NotValid;
      heartBeatCounter := 0;
      Repr := {this, flag, queue} + queue.Repr;
    }

    /** The sample time is the device's; all SDOs get the device's lock. */
    method AddSdo(config: Config) returns (error: int)
      requires Valid()
      modifies this
      ensures Valid() && fresh(Repr - old(Repr))
      ensures error == (if |old(sdos)| >= 8 then 1001 else 0)
      ensures error != 0 ==> unchanged(this)
      ensures error == 0 ==>
                var c := config.(exeSampleTimeMs := node.exeSampleTimeMs);
                && SdoConfigs() == old(SdoConfigs()) + [c]
                && Sdos() == Bank(old(Sdos()).sdos + [Fresh(c)], old(Sdos()).lock)
                && Pdos() == old(Pdos()) && Nmt() == old(Nmt())
    {
      hide SocketCanWriteBuffer.Valid;
      if |sdos| >= MAX_SDOS {
        return SDO_INDEX_OUT_OF_RANGE;
      }
      var x := new SdoObject(queue, config.(exeSampleTimeMs := node.exeSampleTimeMs), sdo1Lock);
      sdos := sdos + [x];
      Repr := Repr + x.Own;
      return 0;
    }

    method AddPdo(config: PdoConfig) returns (error: int)
      requires Valid()
      modifies this
      ensures Valid() && fresh(Repr - old(Repr))
      ensures error == (if |old(pdos)| >= 8 then 1000 else 0)
      ensures error != 0 ==> unchanged(this)
      ensures error == 0 ==>
                var c := config.(exeSampleTimeMs := node.exeSampleTimeMs);
                && PdoConfigs() == old(PdoConfigs()) + [c]
                && Pdos() == old(Pdos()) + [FreshPdo(c)]
                && Sdos() == old(Sdos()) && Nmt() == old(Nmt())
    {
      hide SocketCanWriteBuffer.Valid;
      if |pdos| >= MAX_PDOS {
        return PDO_INDEX_OUT_OF_RANGE;
      }
      var x := new PdoObject(queue, config.(exeSampleTimeMs := node.exeSampleTimeMs));
      pdos := pdos + [x];
      Repr := Repr + x.Own;
      return 0;
    }

    // ---- one member of a loop -------------------------------------------------------------

    method CycleSdo(i: nat)
      requires Valid() && i < |sdos|
      modifies sdos[i].Own, sdo1Lock, queue.Repr
      ensures Valid() && Pdos() == old(Pdos())
      ensures var r := BankStep(SdoConfigs(), old(Sdos()), i, Cycle);
              Sdos() == r.bank && queue.offered == old(queue.offered) + r.sent
    {
      hide SocketCanWriteBuffer.Valid, SdoProtocol.Execute;
      sdos[i].Execute();
    }

    method ForwardToSdo(f: CanFrame, i: nat)
      requires Valid() && i < |sdos|
      requires Digestible(SdoConfigs()[i], Sdos().sdos[i], f)
      modifies sdos[i].Own, sdo1Lock, queue.Repr
      ensures Valid() && Pdos() == old(Pdos())
      ensures var r := BankStep(SdoConfigs(), old(Sdos()), i, Frame(f));
              Sdos() == r.bank && queue.offered == old(queue.offered) + r.sent
      ensures forall j :: 0 <= j < |sdos| && j != i ==> Sdos().sdos[j] == old(Sdos()).sdos[j]
    {
      hide SocketCanWriteBuffer.Valid, SdoProtocol.Receive;
      assert SdoConfigs()[i] == sdos[i].config && Sdos().sdos[i] == sdos[i].State();
      sdos[i].NewRxFrame(f);
    }

    method CyclePdo(i: nat)
      requires Valid() && i < |pdos|
      modifies pdos[i].Own, queue.Repr
      ensures Valid() && Sdos() == old(Sdos())
      ensures var r := PdoStep(PdoConfigs()[i], old(Pdos())[i], PdoCycle);
              Pdos() == old(Pdos())[i := r.0] && queue.offered == old(queue.offered) + r.1
    {
      hide SocketCanWriteBuffer.Valid, PdoStep;
      pdos[i].Execute();
    }

    method ForwardToPdo(f: CanFrame, i: nat)
      requires Valid() && i < |pdos|
      modifies pdos[i].Own
      ensures Valid() && Sdos() == old(Sdos())
      ensures Pdos() == old(Pdos())[i := PdoStep(PdoConfigs()[i], old(Pdos())[i], PdoFrame(f)).0]
    {
      hide SocketCanWriteBuffer.Valid, PdoStep;
      pdos[i].NewRxFrame(f);
    }

    // ---- the loops -------------------------------------------------------------------------

    method CyclePdos()
      requires Valid()
      modifies Repr - {this}
      ensures Valid() && Sdos() == old(Sdos())
      ensures var r := CallAll(PdoConfigs(), old(Pdos()), PdoCycle, 0);
              Pdos() == r.0 && queue.offered == old(queue.offered) + r.1
    {
      hide SocketCanWriteBuffer.Valid, PdoStep, CallAll;
      ghost var cs, q := PdoConfigs(), queue.offered;
      ghost var total := CallAll(cs, Pdos(), PdoCycle, 0);
      ghost var sent: seq<CanFrame> := [];
      var i := 0;
      while i < |pdos|
        invariant Valid() && i <= |pdos| && Sdos() == old(Sdos())
        invariant queue.offered == q + sent
        invariant var rest := CallAll(cs, Pdos(), PdoCycle, i);
                  rest.0 == total.0 && sent + rest.1 == total.1
      {
        CallAllUnfolds(cs, Pdos(), PdoCycle, i);
        sent := sent + PdoStep(cs[i], Pdos()[i], PdoCycle).1;
        CyclePdo(i);
        i := i + 1;
      }
      CallAllEnds(cs, Pdos(), PdoCycle);
    }

    method CycleSdos()
      requires Valid()
      modifies Repr - {this}
      ensures Valid() && Pdos() == old(Pdos())
      ensures var r := CycleAll(SdoConfigs(), old(Sdos()), 0);
              Sdos() == r.bank && queue.offered == old(queue.offered) + r.sent
    {
      hide SocketCanWriteBuffer.Valid, BankStep, CycleAll;
      ghost var cs, q := SdoConfigs(), queue.offered;
      ghost var total := CycleAll(cs, Sdos(), 0);
      ghost var sent: seq<CanFrame> := [];
      var i := 0;
      while i < |sdos|
        invariant Valid() && i <= |sdos| && Pdos() == old(Pdos())
        invariant queue.offered == q + sent
        invariant var rest := CycleAll(cs, Sdos(), i);
                  rest.bank == total.bank && sent + rest.sent == total.sent
      {
        CycleAllUnfolds(cs, Sdos(), i);
        sent := sent + BankStep(cs, Sdos(), i, Cycle).sent;
        CycleSdo(i);
        i := i + 1;
      }
      CycleAllEnds(cs, Sdos());
    }

    /** The heartbeat timeout at the end of `execute`. */
    method SuperviseHeartbeat()
      requires Valid()
      modifies this`nmtState, this`nmtStateOld, this`heartBeatCounter
      ensures Valid() && Nmt() == Timeout(node, old(Nmt()))
      ensures SdoConfigs() == old(SdoConfigs()) && PdoConfigs() == old(PdoConfigs())
      ensures Sdos() == old(Sdos()) && Pdos() == old(Pdos())
    {
      hide SocketCanWriteBuffer.Valid;
      if heartBeatCounter * node.exeSampleTimeMs >= node.heartTimeoutMs {
        nmtStateOld := nmtState;
        nmtState := NotValid;
      } else {
        heartBeatCounter := heartBeatCounter + 1;
      }
    }

    /** The real-time cycle: PDOs, then SDOs, then the heartbeat timeout. */
    method Execute()
      requires Valid()
      modifies Repr
      ensures Valid()
      ensures SdoConfigs() == old(SdoConfigs()) && PdoConfigs() == old(PdoConfigs())
      ensures var p := CallAll(old(PdoConfigs()), old(Pdos()), PdoCycle, 0);
              var s := CycleAll(old(SdoConfigs()), old(Sdos()), 0);
              && Pdos() == p.0 && Sdos() == s.bank
              && queue.offered == old(queue.offered) + p.1 + s.sent
      ensures Nmt() == Timeout(node, old(Nmt()))
    {
      hide SocketCanWriteBuffer.Valid, CallAll, CycleAll;
      CyclePdos();
      CycleSdos();
      SuperviseHeartbeat();
    }

    method ValidateFrame(f: CanFrame) returns (valid: bool)
      ensures valid <==> exists code: nat :: f.id == CobId(code, node.nodeId)
    {
      ValidFrameIsOwn(node, f);
      var tempNodeId := f.id % 128;
      valid := tempNodeId == node.nodeId;
    }

    method CheckNmt(f: CanFrame)
      requires Valid()
      modifies this`nmtState, this`nmtStateOld, this`heartBeatCounter
      ensures Valid() && Nmt() == Check(node, old(Nmt()), f)
      ensures f.id != 0x700 + node.nodeId ==> Nmt() == old(Nmt())
      ensures f.id == 0x700 + node.nodeId ==> heartBeatCounter == 0 && nmtStateOld == nmtState
      ensures f.id == 0x700 + node.nodeId && f.dlc == 1 ==>
                && (nmtState == Stopped <==> f.data[0] == 4) && (nmtState == Operational <==> f.data[0] == 5)
                && (nmtState == BootUp <==> f.data[0] in {0, 0x7F}) && nmtState != PreOperational
      ensures SdoConfigs() == old(SdoConfigs()) && PdoConfigs() == old(PdoConfigs())
      ensures Sdos() == old(Sdos()) && Pdos() == old(Pdos())
    {
      hide SocketCanWriteBuffer.Valid;
      if f.id == NMT_BASE + node.nodeId {
        if f.dlc == 1 {
          nmtState := Decode(f.data[0]);
        }
        heartBeatCounter := 0;
        nmtStateOld := nmtState;
      }
    }

    method ForwardToPdos(f: CanFrame)
      requires Valid()
      modifies Repr - {this}
      ensures Valid() && Sdos() == old(Sdos()) && queue.offered == old(queue.offered)
      ensures Pdos() == CallAll(PdoConfigs(), old(Pdos()), PdoFrame(f), 0).0
    {
      hide SocketCanWriteBuffer.Valid, PdoStep, CallAll;
      ghost var cs := PdoConfigs();
      ghost var total := CallAll(cs, Pdos(), PdoFrame(f), 0);
      var i := 0;
      while i < |pdos|
        invariant Valid() && i <= |pdos| && Sdos() == old(Sdos()) && queue.offered == old(queue.offered)
        invariant CallAll(cs, Pdos(), PdoFrame(f), i).0 == total.0
      {
        CallAllUnfolds(cs, Pdos(), PdoFrame(f), i);
        ForwardToPdo(f, i);
        i := i + 1;
      }
      CallAllEnds(cs, Pdos(), PdoFrame(f));
    }

    method ForwardToSdos(f: CanFrame)
      requires Valid()
      requires forall i :: 0 <= i < |sdos| ==> Digestible(SdoConfigs()[i], Sdos().sdos[i], f)
      modifies Repr - {this}
      ensures Valid() && Pdos() == old(Pdos())
      ensures var r := Dispatch(SdoConfigs(), old(Sdos()), f, 0);
              Sdos() == r.bank && queue.offered == old(queue.offered) + r.sent
    {
      hide SocketCanWriteBuffer.Valid, BankStep, Digestible, Dispatch;
      ghost var cs, q := SdoConfigs(), queue.offered;
      ghost var total := Dispatch(cs, Sdos(), f, 0);
      ghost var sent: seq<CanFrame> := [];
      var i := 0;
      while i < |sdos|
        invariant Valid() && i <= |sdos| && Pdos() == old(Pdos())
        invariant queue.offered == q + sent
        invariant forall j :: i <= j < |sdos| ==> Sdos().sdos[j] == old(Sdos()).sdos[j]
        invariant var rest := Dispatch(cs, Sdos(), f, i);
                  rest.bank == total.bank && sent + rest.sent == total.sent
      {
        DispatchUnfolds(cs, Sdos(), f, i);
        sent := sent + BankStep(cs, Sdos(), i, Frame(f)).sent;
        ForwardToSdo(f, i);
        i := i + 1;
      }
      DispatchEnds(cs, Sdos(), f);
    }

    /** A received frame: dropped if it is for another node, unless this is the master;
        otherwise forwarded to all PDOs and SDOs, and checked for a heartbeat. */
    method NewRxFrame(f: CanFrame)
      requires Valid()
      requires forall i :: 0 <= i < |sdos| ==> Digestible(SdoConfigs()[i], Sdos().sdos[i], f)
      modifies Repr
      ensures Valid() && Nmt() == Hear(node, old(Nmt()), f)
      ensures SdoConfigs() == old(SdoConfigs()) && PdoConfigs() == old(PdoConfigs())
      ensures if ValidFrame(node, f) || node.isMaster
              then var r := Dispatch(old(SdoConfigs()), old(Sdos()), f, 0);
                   && Sdos() == r.bank && queue.offered == old(queue.offered) + r.sent
                   && Pdos() == CallAll(old(PdoConfigs()), old(Pdos()), PdoFrame(f), 0).0
              else Sdos() == old(Sdos()) && Pdos() == old(Pdos()) && queue.offered == old(queue.offered)
    {
      hide SocketCanWriteBuffer.Valid, CallAll, Dispatch;
      var valid := ValidateFrame(f);
      ValidFrameIsOwn(node, f);
      if !valid && !node.isMaster {
        return;
      }
      ForwardToPdos(f);
      ForwardToSdos(f);
      if !node.isMaster {
        CheckNmt(f);
      }
    }
  }
}
