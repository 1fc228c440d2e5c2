/** Two runs of the new device, one for each direction, in which frames left under way by earlier
    transfers make a transfer complete that has not delivered. */
module StaleReplies {
  import opened Can
  import opened SdoProtocol
  import opened SdoRuns
  import opened SdoBank
  import opened SdoServer
  import opened SdoTransfer
  import opened SdoLink
  import opened LeftFrames

  // ---- a write that reaches nobody -----------------------------------------------------------

  function Cycling(k: nat): (ms: seq<Move>)
    ensures |ms| == k
    ensures forall i :: 0 <= i < k ==> ms[i] == Local(0, Cycle)
  {
    if k == 0 then [] else [Local(0, Cycle)] + Cycling(k - 1)
  }

  lemma CycleOnlyCounts(c: Config, y: System, s: SdoState)
    requires c.rw == Write && Shaped(c, s) && s.busy && s.busyCounter < REPLY_TIMEOUT && y.bank == Only(s)
    ensures Advance([c], c.cobIdTx, y, Local(0, Cycle))
            == y.(bank := Only(s.(busyCounter := s.busyCounter + 1)))
  {
    var t := s.(busyCounter := s.busyCounter + 1);
    assert Execute(c, s, true) == Outcome(t, true, []);
    assert [s][0 := t] == [t];
  }

  lemma {:induction false} CyclingOnlyCounts(c: Config, y: System, s: SdoState, k: nat)
    requires c.rw == Write && Shaped(c, s) && s.busy && s.busyCounter + k <= REPLY_TIMEOUT && y.bank == Only(s)
    ensures Play([c], c.cobIdTx, y, Cycling(k)) == y.(bank := Only(s.(busyCounter := s.busyCounter + k)))
    decreases k
  {
    hide Advance;
    if k > 0 {
      var t := s.(busyCounter := s.busyCounter + 1);
      CycleOnlyCounts(c, y, s);
      CyclingOnlyCounts(c, y.(bank := Only(t)), t, k - 1);
    }
  }

  /** 1001 executes without an answer end the transfer; what is under way stays under way. */
  lemma Timeout(c: Config, y: System, s: SdoState, k: nat)
    requires c.rw == Write && Shaped(c, s) && s.busy && s.busyCounter == 0 && !s.writePending && y.bank == Only(s)
    requires k == REPLY_TIMEOUT + 1
    ensures var z := Play([c], c.cobIdTx, y, Cycling(k));
            z.link == y.link && z.bank == Only(TimeoutReset(c, s).(busy := false))
  {
    CyclingOnlyCounts(c, y, s, k - 1);
    var t := s.(busyCounter := k - 1);
    var z := y.(bank := Only(t));
    assert Cycling(k) == Cycling(k - 1) + [Local(0, Cycle)];
    PlayOfConcat([c], c.cobIdTx, y, Cycling(k - 1), [Local(0, Cycle)]);
    PlayOne([c], c.cobIdTx, z, Local(0, Cycle));
    var r := TimeoutReset(c, s).(busy := false);
    assert Execute(c, t, true) == Outcome(r, false, []);
    assert [t][0 := r] == [r];
    assert z.link.toServer + [] == z.link.toServer;
  }

  /** The asyn callback of an idle SDO opens a write of `v`. */
  lemma AsynWrite(c: Config, y: System, s: SdoState, v: seq<byte>)
    requires c.rw == Write && Shaped(c, s) && |v| == c.size > 0 && y.bank == Only(s)
    requires !s.busy && AtRest(s) && s.busyCounter == 0
    ensures MovesOk([c], c.cobIdTx, [Local(0, Set(v, c.size)), Local(0, Request)])
    ensures var z := Play([c], c.cobIdTx, y, [Local(0, Set(v, c.size)), Local(0, Request)]);
            && z.bank == Only(s.(temp := v, data := v, busy := true, writePending := false,
                                 writeState := WriteWaitForConf))
            && z.link == y.link.(toServer := y.link.toServer + [WriteReq(c)], snapshot := v)
  {
    var cs, tx := [c], c.cobIdTx;
    var a, b := Local(0, Set(v, c.size)), Local(0, Request);
    assert v[..c.size] == v;
    var s1 := s.(temp := v);
    var y1 := y.(bank := Only(s1));
    assert [s][0 := s1] == [s1];
    assert y.link.toServer + [] == y.link.toServer;
    assert Advance(cs, tx, y, a) == y1;
    assert [a, b] == [a] + [b];
    PlayOne(cs, tx, y, a);
    PlayOne(cs, tx, y1, b);
    PlayOfConcat(cs, tx, y, [a], [b]);
    var s2 := WriteValue(c, s1, false).sdo;
    assert [s1][0 := s2] == [s2];
  }

  predicate Ready(c: Config, s: SdoState) {
    c.rw == Write && 0 < c.size <= 7 && Sound(c, s) && !s.busy && s.busyCounter == 0 && !s.writePending
  }

  /** A write whose answer is still under way when the client gives up. */
  lemma AnswerComesLate(c: Config, y: System, s: SdoState, v: seq<byte>, k: nat)
      returns (ms: seq<Move>, s': SdoState)
    requires Ready(c, s) && |v| == c.size && y.bank == Only(s) && k == REPLY_TIMEOUT + 1
    requires y.link.toServer == [] && y.link.toClient == [] && Connected(c, y.link.server)
    ensures MovesOk([c], c.cobIdTx, ms) && Ready(c, s')
    ensures var z := Play([c], c.cobIdTx, y, ms);
            && z.bank == Only(s') && z.link.toServer == [] && z.link.toClient == [WriteConf(c)]
            && Connected(c, z.link.server)
  {
    hide Advance, Serve;
    AsynWrite(c, y, s, v);
    ms := [Local(0, Set(v, c.size)), Local(0, Request)];
    var y1 := Play([c], c.cobIdTx, y, ms);
    var y2 := Answers(c, y1);
    ServesWriteRequest(c, y1.link.server, 0);
    Timeout(c, y2, y2.bank.sdos[0], k);
    var y3 := Then(c, y, ms, [ToServer(0)]);
    ms := ms + [ToServer(0)];
    var y4 := Then(c, y, ms, Cycling(k));
    ms := ms + Cycling(k);
    s' := y4.bank.sdos[0];
  }

  /** The reply to the request of a write of one segment, fresh or not, makes the SDO send it. */
  lemma SendsOnReply(c: Config, s: SdoState)
    requires c.rw == Write && 0 < c.size <= 7 && Shaped(c, s) && s.busy && s.writeState == WriteWaitForConf
    ensures var r := Receive(c, s, true, WriteConf(c));
            && r.lock && r.sent == [r.sdo.segment] && LastSegment(c, r.sdo)
            && r.sdo == s.(written := c.size, useTg1 := false, segment := r.sdo.segment, writeState := WriteData)
            && r.sdo.segment.dlc - 1 == c.size && r.sdo.segment.id == c.cobIdRx
  {
    hide SegmentFrame;
    NextSegmentIsLast(c, s.(written := 0, useTg1 := false), true);
  }

  /** With one stale reply under way, a second write reaches the server, and the stale reply makes
      the client send its segment. */
  lemma SegmentFollowsStaleReply(c: Config, y: System, s: SdoState, v: seq<byte>)
      returns (ms: seq<Move>, z: System)
    requires Ready(c, s) && |v| == c.size && y.bank == Only(s)
    requires y.link.toServer == [] && y.link.toClient == [WriteConf(c)] && Connected(c, y.link.server)
    ensures MovesOk([c], c.cobIdTx, ms) && z == Play([c], c.cobIdTx, y, ms)
    ensures |z.bank.sdos| == 1 && z.bank == Only(z.bank.sdos[0])
    ensures var t := z.bank.sdos[0];
            && Sound(c, t) && t.busy && t.busyCounter == 0 && !t.writePending && t.data == v
            && LastSegment(c, t) && t.written == c.size && t.segment.dlc - 1 == c.size && !t.useTg1
            && z.link.toServer == [t.segment] && t.segment.id == c.cobIdRx
            && z.link.toClient == [WriteConf(c)] && Connected(c, z.link.server)
            && z.link.server.phase == Download(KeyOfConfig(c), c.size, [], false)
  {
    hide Advance, Serve, Receive, LastSegment;
    AsynWrite(c, y, s, v);
    ms := [Local(0, Set(v, c.size)), Local(0, Request)];
    var y1 := Play([c], c.cobIdTx, y, ms);
    var y2 := Answers(c, y1);
    ServesWriteRequest(c, y1.link.server, 0);
    assert y2.link.toClient == [WriteConf(c), WriteConf(c)];
    var s2 := y2.bank.sdos[0];
    Takes(c, y2, s2);
    SendsOnReply(c, s2);
    z := Then(c, y, ms, [ToServer(0)]);
    ms := ms + [ToServer(0)];
    z := Then(c, y, ms, [ToClient]);
    ms := ms + [ToClient];
  }

  /** Again the answer is late: now two replies are under way. */
  lemma AnswerComesLateAgain(c: Config, y: System, s: SdoState, v: seq<byte>, k: nat)
      returns (ms: seq<Move>, s': SdoState)
    requires Ready(c, s) && |v| == c.size && y.bank == Only(s) && k == REPLY_TIMEOUT + 1
    requires y.link.toServer == [] && y.link.toClient == [WriteConf(c)] && Connected(c, y.link.server)
    ensures MovesOk([c], c.cobIdTx, ms) && Ready(c, s')
    ensures var z := Play([c], c.cobIdTx, y, ms);
            && z.bank == Only(s') && z.link.toServer == []
            && z.link.toClient == [WriteConf(c), WriteSegmentConf(c, false)]
            && KeyOfConfig(c) in z.link.server.objects && z.link.server.objects[KeyOfConfig(c)] == v
  {
    hide Advance, Serve, Receive, LastSegment;
    var z;
    ms, z := SegmentFollowsStaleReply(c, y, s, v);
    var t := z.bank.sdos[0];
    assert t.data[..0] == [];
    ServesSegment(c, t, z.link.server, KeyOfConfig(c), 0);
    var y1 := Answers(c, z);
    assert y1.link.toClient == [WriteConf(c), WriteSegmentConf(c, false)];
    Timeout(c, y1, t, k);
    z := Then(c, y, ms, [ToServer(0)]);
    ms := ms + [ToServer(0)];
    z := Then(c, y, ms, Cycling(k));
    ms := ms + Cycling(k);
    s' := z.bank.sdos[0];
  }

  lemma Loses(c: Config, y: System) returns (z: System)
    requires ShapedBank([c], y.bank) && y.link.toServer != []
    ensures z == Play([c], c.cobIdTx, y, [LoseToServer(0)])
    ensures z == y.(link := y.link.(toServer := y.link.toServer[1..]))
  {
    PlayOne([c], c.cobIdTx, y, LoseToServer(0));
    assert Without(y.link.toServer, 0) == y.link.toServer[1..];
    z := Play([c], c.cobIdTx, y, [LoseToServer(0)]);
  }

  /** With the two stale replies under way, a third write loses both its frames and still waits
      for nothing but the second stale reply. */
  lemma BothFramesAreLost(c: Config, y: System, s: SdoState, v: seq<byte>) returns (ms: seq<Move>, s': SdoState)
    requires Ready(c, s) && |v| == c.size && y.bank == Only(s)
    requires y.link.toServer == [] && y.link.toClient == [WriteConf(c), WriteSegmentConf(c, false)]
    ensures MovesOk([c], c.cobIdTx, ms) && Sound(c, s')
    ensures s'.busy && s'.writeState == WriteData && s'.written == c.size && !s'.useTg1 && s'.data == v
    ensures var z := Play([c], c.cobIdTx, y, ms);
            && z.bank == Only(s') && z.link.toClient == [WriteSegmentConf(c, false)]
            && z.link.server == y.link.server
  {
    hide Advance, Receive;
    AsynWrite(c, y, s, v);
    ms := [Local(0, Set(v, c.size)), Local(0, Request)];
    var y1 := Play([c], c.cobIdTx, y, ms);
    var y2 := Loses(c, y1);
    var s2 := y2.bank.sdos[0];
    Takes(c, y2, s2);
    SendsOnReply(c, s2);
    var z := Then(c, y, ms, [LoseToServer(0)]);
    ms := ms + [LoseToServer(0)];
    z := Then(c, y, ms, [ToClient]);
    ms := ms + [ToClient];
    s' := z.bank.sdos[0];
  }

  /** The write of `d` completes, and the server holds `b`. */
  lemma StaleRepliesBreakDelivery(c: Config, a: seq<byte>, b: seq<byte>, d: seq<byte>) returns (ms: seq<Move>)
    requires c.rw == Write && 0 < c.size <= 7 && |a| == |b| == |d| == c.size && b != d
    ensures MovesOk([c], c.cobIdTx, ms)
    ensures CompletesNext([c], c.cobIdTx, Start([c], c.cobIdRx, c.cobIdTx, map[]), ms, 0)
    ensures var z := Play([c], c.cobIdTx, Start([c], c.cobIdRx, c.cobIdTx, map[]), ms + [ToClient]);
            && z.bank.sdos[0].data == d
            && KeyOfConfig(c) in z.link.server.objects && z.link.server.objects[KeyOfConfig(c)] == b
            && z.stale
  {
    hide Advance, Receive, Serve;
    var k: nat :| k == REPLY_TIMEOUT + 1;
    var y := Start([c], c.cobIdRx, c.cobIdTx, map[]);
    assert y.bank == Only(Fresh(c));
    var m1, s1 := AnswerComesLate(c, y, Fresh(c), a, k);
    var y1 := Play([c], c.cobIdTx, y, m1);
    var m2, s2 := AnswerComesLateAgain(c, y1, s1, b, k);
    var y2 := Play([c], c.cobIdTx, y1, m2);
    var m3, s3 := BothFramesAreLost(c, y2, s2, d);
    var y3 := Then(c, y, m1, m2);
    var y4 := Then(c, y, m1 + m2, m3);
    ms := m1 + m2 + m3;
    Completes(c, s3);
    Takes(c, y4, s3);
    PlayOfConcat([c], c.cobIdTx, y, ms, [ToClient]);
    if !y4.stale {
      AnyLinkIsConsistent([c], c.cobIdTx, y);
      CompletedTransfersDeliver([c], c.cobIdTx, y, ms, 0);
    }
  }

  lemma Completes(c: Config, s: SdoState)
    requires c.rw == Write && s.busy && s.writeState == WriteData && s.written == c.size && !s.useTg1 && Shaped(c, s)
    ensures var r := Receive(c, s, true, WriteSegmentConf(c, false));
            !r.lock && !r.sdo.busy && r.sent == [] && r.sdo.data == s.data
  {
  }

  // ---- a read that takes a confirmation for data ---------------------------------------------

  predicate CyclesOnly(ms: seq<Move>) {
    forall k :: 0 <= k < |ms| ==> ms[k] == Local(0, Cycle)
  }

  lemma CycleMove(c: Config, y: System, s: SdoState) returns (t: SdoState)
    requires c.rw == Read && Sound(c, s) && !s.writePending && y.bank == Only(s)
    ensures var r := Execute(c, s, s.busy);
            && t == r.sdo && r.lock == t.busy && Sound(c, t) && !t.writePending
            && var z := Advance([c], c.cobIdTx, y, Local(0, Cycle));
               z.bank == Only(t) && z.link == y.link.(toServer := y.link.toServer + r.sent)
  {
    hide Execute, SafeToOpen;
    CycleAndLock(c, s, s.busy);
    var r := Execute(c, s, s.busy);
    t := r.sdo;
    assert [s][0 := t] == [t];
    assert y.link.toServer + [] == y.link.toServer;
    StepKeepsPending(c, s);
  }

  lemma StepKeepsPending(c: Config, s: SdoState)
    requires c.rw == Read && Shaped(c, s) && !s.writePending
    ensures !Execute(c, s, s.busy).sdo.writePending
  {
  }

  /** An idle SDO executes until its period has expired, and asks. */
  lemma {:induction false} AsksWhenDue(c: Config, y: System, s: SdoState) returns (ms: seq<Move>, t: SdoState)
    requires c.rw == Read && Sound(c, s) && !s.busy && !s.writePending && y.bank == Only(s)
    ensures MovesOk([c], c.cobIdTx, ms) && CyclesOnly(ms) && Asks(c, t) && t.busyCounter == 0
    ensures var z := Play([c], c.cobIdTx, y, ms);
            z.bank == Only(t) && z.link == y.link.(toServer := y.link.toServer + [ReadReq(c)])
    decreases CeilDiv(c.readSampleTimeMs, c.exeSampleTimeMs) - s.exeCounter
  {
    hide Advance;
    CeilDivIsThreshold(c.readSampleTimeMs, c.exeSampleTimeMs, s.exeCounter);
    t := CycleMove(c, y, s);
    var z := Advance([c], c.cobIdTx, y, Local(0, Cycle));
    var rest: seq<Move> := [];
    if !ReadDue(c, s) {
      assert z.link == y.link by { assert y.link.toServer + [] == y.link.toServer; }
      rest, t := AsksWhenDue(c, z, t);
    }
    ms := [Local(0, Cycle)] + rest;
    assert ms[1..] == rest;
  }

  /** Executes without a reply. */
  lemma {:induction false} AsksOn(c: Config, y: System, s: SdoState, k: nat) returns (ms: seq<Move>, t: SdoState)
    requires Asks(c, s) && y.bank == Only(s) && s.busyCounter + k <= REPLY_TIMEOUT
    ensures MovesOk([c], c.cobIdTx, ms) && CyclesOnly(ms) && Asks(c, t) && t.busyCounter == s.busyCounter + k
    ensures Play([c], c.cobIdTx, y, ms) == y.(bank := Only(t))
    decreases k
  {
    hide Advance;
    ms, t := [], s;
    if k > 0 {
      t := CycleMove(c, y, s);
      HolderWaits(c, s, Cycle);
      CycleWaits(c, y, s);
      var rest;
      rest, t := AsksOn(c, y.(bank := Only(t)), t, k - 1);
      ms := [Local(0, Cycle)] + rest;
      assert ms[1..] == rest;
    }
  }

  lemma CycleWaits(c: Config, y: System, s: SdoState)
    requires Asks(c, s) && y.bank == Only(s) && s.busyCounter < REPLY_TIMEOUT
    ensures var t := Execute(c, s, true).sdo;
            && Advance([c], c.cobIdTx, y, Local(0, Cycle)) == y.(bank := Only(t))
            && Asks(c, t) && t.busyCounter == s.busyCounter + 1
  {
    CycleAndLock(c, s, true);
    var t := Execute(c, s, true).sdo;
    assert [s][0 := t] == [t];
  }

  /** The 1001st execute gives the transfer up, and in time the SDO asks again. */
  lemma AsksAgain(c: Config, y: System, s: SdoState) returns (ms: seq<Move>, t: SdoState)
    requires Asks(c, s) && y.bank == Only(s) && s.busyCounter == REPLY_TIMEOUT
    ensures MovesOk([c], c.cobIdTx, ms) && CyclesOnly(ms) && Asks(c, t) && t.busyCounter == 0
    ensures var z := Play([c], c.cobIdTx, y, ms);
            z.bank == Only(t) && z.link == y.link.(toServer := y.link.toServer + [ReadReq(c)])
  {
    hide Advance;
    t := CycleMove(c, y, s);
    PlayOne([c], c.cobIdTx, y, Local(0, Cycle));
    ms := [Local(0, Cycle)];
    if !t.busy {
      var z := Play([c], c.cobIdTx, y, ms);
      assert z.link == y.link by { assert y.link.toServer + [] == y.link.toServer; }
      var more;
      more, t := AsksWhenDue(c, z, t);
      z := Then(c, y, ms, more);
      ms := ms + more;
    }
  }

  predicate LosesNothing(ms: seq<Move>) {
    forall i :: 0 <= i < |ms| ==> !ms[i].LoseToServer? && !ms[i].LoseToClient?
  }

  /** The first reply is late, or even the first request: a read is given up, and a second one
      asks. */
  lemma AsksTwice(c: Config, y: System, served: bool, k: nat) returns (ms: seq<Move>, s: SdoState)
    requires c.rw == Read && k == REPLY_TIMEOUT && y.bank == Only(Fresh(c)) && Quiet(y.link)
    requires Has(c, y.link.server) && Connected(c, y.link.server)
    ensures MovesOk([c], c.cobIdTx, ms) && LosesNothing(ms) && Asks(c, s)
    ensures var z := Play([c], c.cobIdTx, y, ms);
            && z.bank == Only(s) && z.link.server.objects == y.link.server.objects
            && Connected(c, z.link.server)
            && (served ==> z.link.toServer == [ReadReq(c)] && z.link.toClient == [ReadConf(c)])
            && (!served ==> z.link.toServer == [ReadReq(c), ReadReq(c)] && z.link.toClient == [])
  {
    hide Advance, Play, Serve, Sound, JustOpened, Fresh, ReadConf, ReadReq, Opens;
    FreshIsSound(c);
    OwnRequestOpens(c);
    ms, s := AsksWhenDue(c, y, Fresh(c));
    var z := Play([c], c.cobIdTx, y, ms);
    if served {
      z := ServerAnswers(c, y, ms, z);
      ms := ms + [ToServer(0)];
    }
    var more;
    more, s := AsksOn(c, z, s, k);
    z := Then(c, y, ms, more);
    ms := ms + more;
    more, s := AsksAgain(c, z, s);
    z := Then(c, y, ms, more);
    ms := ms + more;
  }

  /** Both reads have been confirmed, and the second one is waiting. */
  lemma TwoConfirmations(c: Config, y: System, served: bool, k: nat) returns (ms: seq<Move>, s: SdoState)
    requires c.rw == Read && k == REPLY_TIMEOUT && y.bank == Only(Fresh(c)) && Quiet(y.link)
    requires Has(c, y.link.server) && Connected(c, y.link.server)
    ensures MovesOk([c], c.cobIdTx, ms) && LosesNothing(ms) && Asks(c, s)
    ensures var z := Play([c], c.cobIdTx, y, ms);
            && z.bank == Only(s) && z.link.toServer == [] && z.link.toClient == [ReadConf(c), ReadConf(c)]
            && z.link.server.objects == y.link.server.objects
  {
    hide Advance, Play, Serve, Sound, JustOpened, Fresh, ReadConf, ReadReq, Opens;
    OwnRequestOpens(c);
    ms, s := AsksTwice(c, y, served, k);
    var z := Play([c], c.cobIdTx, y, ms);
    if !served {
      z := ServerAnswers(c, y, ms, z);
      ms := ms + [ToServer(0)];
    }
    z := ServerAnswers(c, y, ms, z);
    ms := ms + [ToServer(0)];
  }

  lemma FreshIsSound(c: Config)
    ensures Sound(c, Fresh(c)) && !Fresh(c).busy && !Fresh(c).writePending
  {
  }

  /** One transfer is given up, nothing is lost, and the second read of seven bytes completes
      with a part of the confirmation in place of the server's object. */
  lemma LateReplyIsReadAsData(c: Config, whole: Object, served: bool, k: nat) returns (ms: seq<Move>)
    requires c.rw == Read && |whole| == c.size == 7 && whole != ReadConf(c).data[1..8] && k == REPLY_TIMEOUT
    ensures MovesOk([c], c.cobIdTx, ms) && LosesNothing(ms)
    ensures var y := Start([c], c.cobIdRx, c.cobIdTx, map[KeyOfConfig(c) := whole]);
            && CompletesNext([c], c.cobIdTx, y, ms, 0)
            && var z := Play([c], c.cobIdTx, y, ms + [ToClient]);
               && z.bank.sdos[0].data == ReadConf(c).data[1..8]
               && z.link.server.objects == map[KeyOfConfig(c) := whole] && z.bank.sdos[0].data != whole
  {
    hide Advance, Receive, Sound, JustOpened;
    var y := Start([c], c.cobIdRx, c.cobIdTx, map[KeyOfConfig(c) := whole]);
    FreshAsks(c, y);
    var s;
    ms, s := TwoConfirmations(c, y, served, k);
    var z := Play([c], c.cobIdTx, y, ms);
    JustOpenedIsBusy(c, s);
    ConfirmationAsData(c, s);
    Takes(c, z, s);
    z := Then(c, y, ms, [ToClient]);
    ms := ms + [ToClient];
    Takes(c, z, z.bank.sdos[0]);
    z := Then(c, y, ms, [ToClient]);
  }

  lemma FreshAsks(c: Config, y: System)
    requires y.bank == FreshBank([c])
    ensures y.bank == Only(Fresh(c)) && Sound(c, Fresh(c))
  {
    assert FreshBank([c]).sdos == [Fresh(c)];
  }
}
