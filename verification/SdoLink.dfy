/** A whole device, its link, and a CiA 301 server: all SDOs of the device share one pair of
    FIFO channels that may lose frames. Every transfer that an SDO completes has moved the
    object, in every interleaving of the calls of all SDOs with the deliveries. */
module SdoLink {
  import opened Can
  import opened SdoProtocol
  import opened SdoRuns
  import opened SdoBank
  import opened SdoServer
  import opened SdoTransfer

  // ---- the whole device -----------------------------------------------------------------------

  /** `stale` says of the transfer started last that its SDO took the lock while a frame was
      under way that may be taken for the start of this transfer and lead it astray; `repeated`
      says that it is a read whose object was asked for before, without an answer yet. */
  datatype System = System(bank: Bank, link: Link, stale: bool, repeated: bool)

  datatype Move =
    | Local(sdo: nat, call: Call)    // execute, setValue or writeValue of one SDO
    | ToServer(cut: nat)             // the server takes the next frame and answers it
    | ToClient                       // the device's dispatch loop takes the next frame
    | LoseToServer(at: nat)          // a frame is lost, wherever it is in its channel
    | LoseToClient(at: nat)
    | Noise(f: CanFrame)             // a frame with another identifier

  predicate SameChannel(cs: seq<Config>, rx: nat, tx: nat) {
    forall i :: 0 <= i < |cs| ==> cs[i].cobIdRx == rx && cs[i].cobIdTx == tx
  }

  predicate MoveOk(cs: seq<Config>, tx: nat, m: Move) {
    match m
    case Local(i, call) => i < |cs| && FromPlugin(cs[i], call) && !call.Frame?
    case Noise(f) => f.id != tx
    case _ => true
  }

  /** One move. A local call sends nothing or the frame that opens a transfer; if that is a
      write, the snapshot is taken. */
  function Advance(cs: seq<Config>, tx: nat, y: System, m: Move): (r: System)
    requires ShapedBank(cs, y.bank) && MoveOk(cs, tx, m)
    ensures ShapedBank(cs, r.bank)
  {
    var l := y.link;
    match m
    case Local(i, call) =>
      var r := BankStep(cs, y.bank, i, call);
      if r.sent == [] then y.(bank := r.bank)
      else
        var taken := if cs[i].rw == Write then Offered(cs[i], y.bank.sdos[i], call) else l.snapshot;
        System(r.bank, l.(toServer := l.toServer + r.sent, snapshot := taken),
               !SafeToOpen(cs[i], l), Repeats(cs[i], l))
    case ToServer(cut) => if l.toServer == [] then y else y.(link := Served(l, cut))
    case ToClient =>
      if l.toClient == [] then y
      else
        var r := Dispatch(cs, y.bank, l.toClient[0], 0);
        y.(bank := r.bank, link := Taken(l, r.sent))
    case LoseToServer(i) => if i < |l.toServer| then y.(link := l.(toServer := Without(l.toServer, i))) else y
    case LoseToClient(i) => if i < |l.toClient| then y.(link := l.(toClient := Without(l.toClient, i))) else y
    case Noise(f) =>
      var r := Dispatch(cs, y.bank, f, 0);
      y.(bank := r.bank, link := l.(toServer := l.toServer + r.sent))
  }

  /** The device's own invariant, and a server on its channel. Any frames may be under way. */
  ghost predicate Sane(cs: seq<Config>, tx: nat, y: System) {
    && Exclusive(cs, y.bank) && SameChannel(cs, y.link.server.rxId, tx) && y.link.server.txId == tx
    && (forall i :: 0 <= i < |cs| ==> OneDirection(cs[i], y.bank.sdos[i]))
  }

  ghost predicate Consistent(cs: seq<Config>, tx: nat, y: System) {
    && Sane(cs, tx, y)
    && (!y.stale ==> forall i :: 0 <= i < |cs| && y.bank.sdos[i].busy ==>
          Linked(cs[i], y.bank.sdos[i], y.link, y.repeated))
  }

  /** While no SDO holds the lock, or the transfer under way was not opened safely, nothing is
      asked of the link: a later transfer starts anew. */
  lemma AnyLinkIsConsistent(cs: seq<Config>, tx: nat, y: System)
    requires Sane(cs, tx, y) && (!y.bank.lock || y.stale)
    ensures Consistent(cs, tx, y)
  {
  }

  lemma LocalStaysConsistent(cs: seq<Config>, tx: nat, y: System, i: nat, call: Call)
    requires Consistent(cs, tx, y) && MoveOk(cs, tx, Local(i, call))
    ensures Consistent(cs, tx, Advance(cs, tx, y, Local(i, call)))
  {
    hide Step, Linked, OneDirection, AtRest, SafeToOpen, Repeats, Opening, JustOpened;
    var c, s := cs[i], y.bank.sdos[i];
    var z := Advance(cs, tx, y, Local(i, call));
    ExclusiveStep(cs, y.bank, i, call);
    StepKeepsDirection(c, s, y.bank.lock, call);
    if s.busy && !(call.Cycle? && TimesOut(s)) {
      HolderWaits(c, s, call);
      if !y.stale {
        HolderStaysLinked(c, s, y.link, y.repeated, call);
      }
    } else if y.bank.lock && !s.busy {
      assert z.link == y.link && z.stale == y.stale && z.repeated == y.repeated;
    } else {
      OpensOrRests(c, s, y.bank.lock, call);
      if BankStep(cs, y.bank, i, call).sent != [] && !z.stale {
        assert z.bank.sdos[i].busy by { JustOpenedIsBusy(c, z.bank.sdos[i]); }
        JustOpenedIsLinked(c, z.bank.sdos[i], y.link, z.link.snapshot);
      }
    }
  }

  lemma JustOpenedIsBusy(c: Config, s: SdoState)
    requires JustOpened(c, s)
    ensures s.busy
  {
  }

  /** What a completed transfer leaves under way: nothing, or after a repeated read nothing that
      could start another transfer of its SDO. */
  predicate Ended(c: Config, again: bool, l: Link) {
    if c.rw == Read && again then Resting(c, l) else Quiet(l)
  }

  /** The frame is for the holder, and a transfer that it completes has delivered its object. */
  lemma ToClientStaysConsistent(cs: seq<Config>, tx: nat, y: System, h: nat)
    requires Consistent(cs, tx, y) && h < |cs| && y.bank.sdos[h].busy && y.link.toClient != []
    ensures var z := Advance(cs, tx, y, ToClient);
            && Consistent(cs, tx, z) && z.stale == y.stale && z.repeated == y.repeated
            && z.bank == BankStep(cs, y.bank, h, Frame(y.link.toClient[0])).bank
            && z.link == Taken(y.link, Receive(cs[h], y.bank.sdos[h], true, y.link.toClient[0]).sent)
            && (!y.stale && !z.bank.sdos[h].busy ==>
                  Ended(cs[h], y.repeated, z.link) && Delivered(cs[h], z.bank.sdos[h], z.link))
  {
    hide Receive, DownLinked, UpLinked, AgainLinked, Delivered, Resting, OneDirection, AtRest, Dispatch;
    var c, s, f := cs[h], y.bank.sdos[h], y.link.toClient[0];
    OneFrameOneSdo(cs, y.bank, f);
    StepKeepsDirection(c, s, true, Frame(f));
    if !y.stale {
      if c.rw == Write {
        DeliverDownload(c, s, y.link);
      } else if y.repeated {
        DeliverAgain(c, s, y.link);
      } else {
        DeliverUpload(c, s, y.link);
      }
    }
  }

  lemma ToServerStaysConsistent(cs: seq<Config>, tx: nat, y: System, cut: nat)
    requires Consistent(cs, tx, y) && y.link.toServer != []
    ensures Consistent(cs, tx, Advance(cs, tx, y, ToServer(cut)))
  {
    hide Serve, DownLinked, UpLinked, AgainLinked, OneDirection, Sound;
    ServeKeepsId(y.link.server, y.link.toServer[0], cut);
    if !y.stale {
      forall h | 0 <= h < |cs| && y.bank.sdos[h].busy
        ensures Linked(cs[h], y.bank.sdos[h], Served(y.link, cut), y.repeated)
      {
        SoundIsShaped(cs, y.bank, h);
        if cs[h].rw == Write {
          ServeDownload(cs[h], y.bank.sdos[h], y.link, cut);
        } else if y.repeated {
          ServeAgain(cs[h], y.bank.sdos[h], y.link, cut);
        } else {
          ServeUpload(cs[h], y.bank.sdos[h], y.link, cut);
        }
      }
    }
  }

  lemma SoundIsShaped(cs: seq<Config>, b: Bank, h: nat)
    requires Exclusive(cs, b) && h < |cs|
    ensures ShapedBank(cs, b) && Shaped(cs[h], b.sdos[h])
  {
  }

  lemma ServeKeepsId(v: Server, f: CanFrame, cut: nat)
    ensures Serve(v, f, cut).0.txId == v.txId && Serve(v, f, cut).0.rxId == v.rxId
  {
  }

  lemma LossStaysConsistent(cs: seq<Config>, tx: nat, y: System, m: Move)
    requires Consistent(cs, tx, y) && (m.LoseToServer? || m.LoseToClient?)
    ensures Consistent(cs, tx, Advance(cs, tx, y, m))
  {
    hide OneDirection, Linked;
    var z := Advance(cs, tx, y, m);
    if !y.stale {
      forall h | 0 <= h < |cs| && z.bank.sdos[h].busy ensures Linked(cs[h], z.bank.sdos[h], z.link, z.repeated) {
        assert Linked(cs[h], y.bank.sdos[h], y.link, y.repeated);
        LossStaysLinked(cs[h], y.bank.sdos[h], y.link, y.repeated);
      }
    }
  }

  lemma NoiseChangesNothing(cs: seq<Config>, tx: nat, y: System, f: CanFrame)
    requires Consistent(cs, tx, y) && f.id != tx
    ensures Advance(cs, tx, y, Noise(f)) == y
  {
    DispatchSkips(cs, y.bank, f, 0);
    assert y.link.toServer + [] == y.link.toServer;
  }

  /** With a free lock a frame is dropped by every SDO. */
  lemma NobodyTakes(cs: seq<Config>, tx: nat, y: System)
    requires Consistent(cs, tx, y) && !y.bank.lock && y.link.toClient != []
    ensures Advance(cs, tx, y, ToClient) == y.(link := Taken(y.link, []))
  {
    DispatchSkips(cs, y.bank, y.link.toClient[0], 0);
  }

  lemma AdvanceStaysConsistent(cs: seq<Config>, tx: nat, y: System, m: Move)
    requires Consistent(cs, tx, y) && MoveOk(cs, tx, m)
    ensures Consistent(cs, tx, Advance(cs, tx, y, m))
  {
    match m
    case Local(i, call) => LocalStaysConsistent(cs, tx, y, i, call);
    case ToServer(cut) =>
      if y.link.toServer != [] {
        ToServerStaysConsistent(cs, tx, y, cut);
      }
    case ToClient =>
      if y.link.toClient != [] {
        if h :| 0 <= h < |cs| && y.bank.sdos[h].busy {
          ToClientStaysConsistent(cs, tx, y, h);
        } else {
          NobodyTakes(cs, tx, y);
        }
      }
    case LoseToServer(_) => LossStaysConsistent(cs, tx, y, m);
    case LoseToClient(_) => LossStaysConsistent(cs, tx, y, m);
    case Noise(f) => NoiseChangesNothing(cs, tx, y, f);
  }

  // ---- every run ------------------------------------------------------------------------------

  predicate MovesOk(cs: seq<Config>, tx: nat, ms: seq<Move>) {
    forall k :: 0 <= k < |ms| ==> MoveOk(cs, tx, ms[k])
  }

  function Play(cs: seq<Config>, tx: nat, y: System, ms: seq<Move>): (r: System)
    requires ShapedBank(cs, y.bank) && MovesOk(cs, tx, ms)
    ensures ShapedBank(cs, r.bank)
    decreases |ms|
  {
    if ms == [] then y else Play(cs, tx, Advance(cs, tx, y, ms[0]), ms[1..])
  }

  /** Empty channels, SDOs as constructed, any object dictionary. */
  function Start(cs: seq<Config>, rx: nat, tx: nat, objects: map<Key, Object>): (y: System)
    ensures ShapedBank(cs, y.bank)
    ensures SameChannel(cs, rx, tx) ==> Sane(cs, tx, y) && !y.bank.lock
  {
    System(FreshBank(cs), Link([], [], Server(rx, tx, objects, Idle), []), false, false)
  }

  lemma {:induction false} PlayStaysConsistent(cs: seq<Config>, tx: nat, y: System, ms: seq<Move>)
    requires Consistent(cs, tx, y) && MovesOk(cs, tx, ms)
    ensures Consistent(cs, tx, Play(cs, tx, y, ms))
    decreases |ms|
  {
    hide Advance, Consistent;
    if ms != [] {
      ConsistentIsShaped(cs, tx, y);
      AdvanceStaysConsistent(cs, tx, y, ms[0]);
      PlayStaysConsistent(cs, tx, Advance(cs, tx, y, ms[0]), ms[1..]);
    }
  }

  lemma ConsistentIsShaped(cs: seq<Config>, tx: nat, y: System)
    requires Consistent(cs, tx, y)
    ensures ShapedBank(cs, y.bank)
  {
  }

  lemma {:induction false} PlayOfConcat(cs: seq<Config>, tx: nat, y: System, ms: seq<Move>, ns: seq<Move>)
    requires ShapedBank(cs, y.bank) && MovesOk(cs, tx, ms) && MovesOk(cs, tx, ns)
    ensures Play(cs, tx, y, ms + ns) == Play(cs, tx, Play(cs, tx, y, ms), ns)
    decreases |ms|
  {
    hide Advance;
    if ms == [] {
      assert ms + ns == ns;
    } else {
      assert (ms + ns)[1..] == ms[1..] + ns;
      PlayOfConcat(cs, tx, Advance(cs, tx, y, ms[0]), ms[1..], ns);
    }
  }

  lemma PlayOne(cs: seq<Config>, tx: nat, y: System, m: Move)
    requires ShapedBank(cs, y.bank) && MoveOk(cs, tx, m)
    ensures Play(cs, tx, y, [m]) == Advance(cs, tx, y, m)
  {
    hide Advance;
    assert Play(cs, tx, Advance(cs, tx, y, m), []) == Advance(cs, tx, y, m);
  }

  lemma PlayMore(cs: seq<Config>, tx: nat, y: System, m: Move, ms: seq<Move>)
    requires ShapedBank(cs, y.bank) && MoveOk(cs, tx, m) && MovesOk(cs, tx, ms)
    ensures MovesOk(cs, tx, [m] + ms) && Play(cs, tx, y, [m] + ms) == Play(cs, tx, Advance(cs, tx, y, m), ms)
  {
    hide Advance;
    assert ([m] + ms)[1..] == ms;
  }

  lemma NothingToTake(cs: seq<Config>, tx: nat, y: System)
    requires ShapedBank(cs, y.bank) && y.link.toClient == []
    ensures Advance(cs, tx, y, ToClient) == y
  {
  }

  /** SDO `h` was busy after `ms` and is not any more after the next frame of the server: the
      frame has completed its transfer. */
  predicate CompletesNext(cs: seq<Config>, tx: nat, y: System, ms: seq<Move>, h: nat)
    requires ShapedBank(cs, y.bank) && MovesOk(cs, tx, ms) && h < |cs|
  {
    Play(cs, tx, y, ms).bank.sdos[h].busy && !Play(cs, tx, y, ms + [ToClient]).bank.sdos[h].busy
  }

  /** End-to-end safety of both directions, for every number of SDOs, every size, every cut,
      every interleaving with loss, and whatever earlier transfers and timeouts have left: a
      transfer that was opened with nothing under way that could be taken for its start has
      delivered when it completes. A write leaves the server with the bytes that `writeValue`
      took from the temporary buffer, a read leaves `dataBuffer_` with the server's object. */
  lemma CompletedTransfersDeliver(cs: seq<Config>, tx: nat, y: System, ms: seq<Move>, h: nat)
    requires Consistent(cs, tx, y) && MovesOk(cs, tx, ms) && h < |cs|
    requires !Play(cs, tx, y, ms).stale
    requires CompletesNext(cs, tx, y, ms, h)
    ensures var z := Play(cs, tx, y, ms + [ToClient]);
            && KeyOfConfig(cs[h]) in z.link.server.objects
            && z.link.server.objects[KeyOfConfig(cs[h])] == z.bank.sdos[h].data
            && (cs[h].rw == Write ==> z.bank.sdos[h].data == z.link.snapshot)
            && (cs[h].rw == Write || !z.repeated ==> Quiet(z.link))
  {
    hide Advance, Linked, OneDirection;
    PlayStaysConsistent(cs, tx, y, ms);
    var z := Play(cs, tx, y, ms);
    PlayOfConcat(cs, tx, y, ms, [ToClient]);
    PlayOne(cs, tx, z, ToClient);
    if z.link.toClient == [] {
      NothingToTake(cs, tx, z);
    } else {
      ToClientStaysConsistent(cs, tx, z, h);
    }
  }

  // ---- which transfers are opened safely ----------------------------------------------------

  /** No execute of the run gives up a transfer. */
  predicate Untimed(cs: seq<Config>, tx: nat, y: System, ms: seq<Move>)
    requires ShapedBank(cs, y.bank) && MovesOk(cs, tx, ms)
    decreases |ms|
  {
    ms == [] || (!GivesUp(y, ms[0]) && Untimed(cs, tx, Advance(cs, tx, y, ms[0]), ms[1..]))
  }

  predicate GivesUp(y: System, m: Move) {
    m.Local? && m.call.Cycle? && m.sdo < |y.bank.sdos| && TimesOut(y.bank.sdos[m.sdo])
  }

  /** The lock is free only while nothing is under way. */
  ghost predicate Clean(cs: seq<Config>, tx: nat, y: System) {
    Consistent(cs, tx, y) && !y.stale && if y.bank.lock then !y.repeated else Quiet(y.link)
  }

  lemma CleanStep(cs: seq<Config>, tx: nat, y: System, m: Move)
    requires Clean(cs, tx, y) && MoveOk(cs, tx, m) && !GivesUp(y, m)
    ensures Clean(cs, tx, Advance(cs, tx, y, m))
  {
    hide Step, Linked, OneDirection, AtRest, Delivered, Receive, Dispatch, Opening, Confirmation, Opens;
    AdvanceStaysConsistent(cs, tx, y, m);
    match m
    case Local(i, call) =>
      ExclusiveStep(cs, y.bank, i, call);
      if y.bank.sdos[i].busy {
        HolderWaits(cs[i], y.bank.sdos[i], call);
      } else if !y.bank.lock {
        OpensOrRests(cs[i], y.bank.sdos[i], false, call);
        if BankStep(cs, y.bank, i, call).sent != [] {
          JustOpenedIsBusy(cs[i], BankStep(cs, y.bank, i, call).bank.sdos[i]);
        }
      }
    case ToClient =>
      if h :| 0 <= h < |cs| && y.bank.sdos[h].busy && y.link.toClient != [] {
        ToClientStaysConsistent(cs, tx, y, h);
        OneFrameOneSdo(cs, y.bank, y.link.toClient[0]);
      }
    case Noise(f) => NoiseChangesNothing(cs, tx, y, f);
    case _ =>
  }

  /** Without timeouts every transfer is opened safely, from a device at rest with empty channels
      or in a linked transfer. */
  lemma {:induction false} UntimedIsClean(cs: seq<Config>, tx: nat, y: System, ms: seq<Move>)
    requires Clean(cs, tx, y) && MovesOk(cs, tx, ms) && Untimed(cs, tx, y, ms)
    ensures Clean(cs, tx, Play(cs, tx, y, ms))
    decreases |ms|
  {
    hide Advance, Clean;
    if ms != [] {
      CleanIsShaped(cs, tx, y);
      CleanStep(cs, tx, y, ms[0]);
      UntimedIsClean(cs, tx, Advance(cs, tx, y, ms[0]), ms[1..]);
    }
  }

  lemma CleanIsShaped(cs: seq<Config>, tx: nat, y: System)
    requires Clean(cs, tx, y)
    ensures ShapedBank(cs, y.bank)
  {
  }
}
