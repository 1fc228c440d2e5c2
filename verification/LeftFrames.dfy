/** What frames left under way by an earlier transfer do to the next one. The condition of the
    delivery theorem is exact. Of the replies the SDO's own confirmation does harm. Of the requests
    a repetition does harm to a read of seven bytes or more; to a write, and to a smaller read, it
    does only if another object is opened behind it. */
module LeftFrames {
  import opened Can
  import opened SdoProtocol
  import opened SdoRuns
  import opened SdoBank
  import opened SdoServer
  import opened SdoTransfer
  import opened SdoLink

  /** A device with one SDO. */
  function Only(s: SdoState): Bank {
    Bank([s], s.busy)
  }

  lemma OnlyIsShaped(c: Config, s: SdoState)
    requires Sound(c, s)
    ensures ShapedBank([c], Only(s))
  {
  }

  /** The frame at the head of the channel is taken by the SDO. */
  lemma Takes(c: Config, y: System, s: SdoState)
    requires Sound(c, s) && s.busy && y.bank == Only(s) && y.link.toClient != []
    ensures var r := Receive(c, s, true, y.link.toClient[0]);
            && Sound(c, r.sdo)
            && Advance([c], c.cobIdTx, y, ToClient) == y.(bank := Only(r.sdo), link := Taken(y.link, r.sent))
            && Play([c], c.cobIdTx, y, [ToClient]) == Advance([c], c.cobIdTx, y, ToClient)
  {
    hide Receive;
    var f := y.link.toClient[0];
    var r := Receive(c, s, true, f);
    FrameAndLock(c, s, true, f);
    PlayOne([c], c.cobIdTx, y, ToClient);
    assert [s][0 := r.sdo] == [r.sdo];
    var o := BankStep([c], y.bank, 0, Frame(f));
    assert Dispatch([c], o.bank, f, 1) == BankOutcome(o.bank, []);
    assert Dispatch([c], y.bank, f, 0) == BankOutcome(o.bank, o.sent + []);
    assert r.sent + [] == r.sent;
  }

  lemma Then(c: Config, y: System, ms: seq<Move>, ns: seq<Move>) returns (z: System)
    requires ShapedBank([c], y.bank) && MovesOk([c], c.cobIdTx, ms) && MovesOk([c], c.cobIdTx, ns)
    ensures z == Play([c], c.cobIdTx, Play([c], c.cobIdTx, y, ms), ns)
    ensures MovesOk([c], c.cobIdTx, ms + ns) && Play([c], c.cobIdTx, y, ms + ns) == z
  {
    PlayOfConcat([c], c.cobIdTx, y, ms, ns);
    z := Play([c], c.cobIdTx, y, ms + ns);
  }

  lemma Answers(c: Config, y: System) returns (z: System)
    requires ShapedBank([c], y.bank) && y.link.toServer != []
    ensures z == Play([c], c.cobIdTx, y, [ToServer(0)])
    ensures z == y.(link := Served(y.link, 0))
  {
    hide Serve;
    PlayOne([c], c.cobIdTx, y, ToServer(0));
    z := Play([c], c.cobIdTx, y, [ToServer(0)]);
  }

  // ---- frames left under way -----------------------------------------------------------------

  /** The SDO has just taken the lock and sent its request; `requests` and `replies` are what
      earlier transfers have left under way. The server stands anywhere. */
  predicate LeftBehind(c: Config, y: System, requests: seq<CanFrame>, replies: seq<CanFrame>) {
    && |y.bank.sdos| == 1 && Sound(c, y.bank.sdos[0]) && JustOpened(c, y.bank.sdos[0])
    && y.bank == Only(y.bank.sdos[0])
    && y.link.toServer == requests + [Opening(c)] && y.link.toClient == replies
    && Connected(c, y.link.server)
    && (c.rw == Write ==> y.link.snapshot == y.bank.sdos[0].data)
    && (y.stale <==> !Safe(c, requests, replies)) && (y.repeated <==> AskedBefore(c, requests))
  }

  predicate AskedBefore(c: Config, requests: seq<CanFrame>) {
    c.rw == Read && !NoneOpens(c, requests)
  }

  predicate Safe(c: Config, requests: seq<CanFrame>, replies: seq<CanFrame>) {
    Ordered(c, AskedBefore(c, requests), requests + [Opening(c)]) && Confirmation(c) !in replies
  }

  /** A run without timeout whose last frame completes a transfer that has not delivered. */
  predicate Breaks(c: Config, y: System, ms: seq<Move>)
    requires ShapedBank([c], y.bank)
  {
    && MovesOk([c], c.cobIdTx, ms) && Untimed([c], c.cobIdTx, y, ms) && CompletesNext([c], c.cobIdTx, y, ms, 0)
    && var z := Play([c], c.cobIdTx, y, ms + [ToClient]);
       !Delivered(c, z.bank.sdos[0], z.link)
  }

  ghost predicate AlwaysDelivers(c: Config, requests: seq<CanFrame>, replies: seq<CanFrame>) {
    forall y: System, ms: seq<Move> :: LeftBehind(c, y, requests, replies) ==> !Breaks(c, y, ms)
  }

  /** The transfer under way was opened safely, and between transfers nothing under way could start
      one. */
  ghost predicate Tame(c: Config, y: System) {
    && |y.bank.sdos| == 1 && Consistent([c], c.cobIdTx, y) && !y.stale
    && (!y.bank.lock ==> Resting(c, y.link))
  }

  lemma TameIsShaped(c: Config, y: System)
    requires Tame(c, y)
    ensures ShapedBank([c], y.bank)
  {
  }

  lemma LeftBehindIsTame(c: Config, y: System, requests: seq<CanFrame>, replies: seq<CanFrame>)
    requires LeftBehind(c, y, requests, replies) && Safe(c, requests, replies)
    ensures Tame(c, y)
  {
    hide Linked, Opening, Confirmation, Ordered, Resting;
    var s := y.bank.sdos[0];
    var l := y.link.(toServer := requests);
    JustOpenedIsLinked(c, s, l, y.link.snapshot);
    assert l.(toServer := requests + [Opening(c)], snapshot := y.link.snapshot) == y.link;
  }

  lemma RestingIsSafe(c: Config, l: Link)
    requires Resting(c, l)
    ensures SafeToOpen(c, l) && !Repeats(c, l)
  {
    hide KeyOf, Confirmation, Opening;
    assert NoneOpens(c, l.toServer);
  }

  lemma RestingServes(c: Config, l: Link, cut: nat)
    requires Resting(c, l) && l.toServer != []
    ensures Resting(c, Served(l, cut))
  {
    var r := Serve(l.server, l.toServer[0], cut).1;
    assert r.data[0] < 32 || r.data[0] == 0x80;
    assert Confirmation(c).data[0] == (if c.rw == Write then 0x60 else 0x41);
  }

  lemma QuietRests(c: Config, again: bool, l: Link)
    requires Ended(c, again, l)
    ensures Resting(c, l)
  {
  }

  lemma TameLocal(c: Config, y: System, call: Call)
    requires Tame(c, y) && MoveOk([c], c.cobIdTx, Local(0, call)) && !GivesUp(y, Local(0, call))
    ensures Tame(c, Advance([c], c.cobIdTx, y, Local(0, call)))
  {
    hide Step, Linked, OneDirection, AtRest, Resting, SafeToOpen, Opening, Repeats;
    LocalStaysConsistent([c], c.cobIdTx, y, 0, call);
    ExclusiveStep([c], y.bank, 0, call);
    if y.bank.sdos[0].busy {
      HolderWaits(c, y.bank.sdos[0], call);
    } else {
      RestingIsSafe(c, y.link);
      OpensOrRests(c, y.bank.sdos[0], false, call);
      if BankStep([c], y.bank, 0, call).sent != [] {
        JustOpenedIsBusy(c, BankStep([c], y.bank, 0, call).bank.sdos[0]);
      }
    }
  }

  lemma TameStep(c: Config, y: System, m: Move)
    requires Tame(c, y) && MoveOk([c], c.cobIdTx, m) && !GivesUp(y, m)
    ensures Tame(c, Advance([c], c.cobIdTx, y, m))
  {
    hide Linked, OneDirection, AtRest, Delivered, Receive, Dispatch, Resting, Serve, Ended;
    AdvanceStaysConsistent([c], c.cobIdTx, y, m);
    match m
    case Local(i, call) => TameLocal(c, y, call);
    case ToServer(cut) =>
      if !y.bank.lock && y.link.toServer != [] {
        RestingServes(c, y.link, cut);
      }
    case ToClient =>
      if y.link.toClient != [] {
        if y.bank.sdos[0].busy {
          ToClientStaysConsistent([c], c.cobIdTx, y, 0);
          OneFrameOneSdo([c], y.bank, y.link.toClient[0]);
          var z := Advance([c], c.cobIdTx, y, ToClient);
          if !z.bank.sdos[0].busy {
            QuietRests(c, y.repeated, z.link);
          }
        } else {
          NobodyTakes([c], c.cobIdTx, y);
          RestingTail(c, y.link);
        }
      }
    case Noise(f) => NoiseChangesNothing([c], c.cobIdTx, y, f);
    case LoseToServer(_) => RestingLoses(c, y.link);
    case LoseToClient(_) => RestingLoses(c, y.link);
  }

  lemma RestingTail(c: Config, l: Link)
    requires l.toClient != []
    ensures Resting(c, l) ==> Resting(c, Taken(l, []))
  {
    assert l.toServer + [] == l.toServer;
  }

  lemma RestingLoses(c: Config, l: Link)
    ensures Resting(c, l) ==> forall i :: 0 <= i < |l.toServer| ==> Resting(c, l.(toServer := Without(l.toServer, i)))
    ensures Resting(c, l) ==> forall i :: 0 <= i < |l.toClient| ==> Resting(c, l.(toClient := Without(l.toClient, i)))
  {
  }

  lemma {:induction false} UntimedIsTame(c: Config, y: System, ms: seq<Move>)
    requires Tame(c, y) && ShapedBank([c], y.bank) && MovesOk([c], c.cobIdTx, ms) && Untimed([c], c.cobIdTx, y, ms)
    ensures Tame(c, Play([c], c.cobIdTx, y, ms))
    decreases |ms|
  {
    hide Advance, Tame;
    if ms != [] {
      TameStep(c, y, ms[0]);
      TameIsShaped(c, Advance([c], c.cobIdTx, y, ms[0]));
      UntimedIsTame(c, Advance([c], c.cobIdTx, y, ms[0]), ms[1..]);
    }
  }

  lemma SafeFramesAreHarmless(c: Config, requests: seq<CanFrame>, replies: seq<CanFrame>)
    requires Safe(c, requests, replies)
    ensures AlwaysDelivers(c, requests, replies)
  {
    hide LeftBehind, Safe, Breaks;
    forall y: System, ms: seq<Move> | LeftBehind(c, y, requests, replies)
      ensures ShapedBank([c], y.bank) && !Breaks(c, y, ms)
    {
      LeftBehindIsTame(c, y, requests, replies);
      TameIsShaped(c, y);
      TameRunDelivers(c, y, ms);
    }
  }

  lemma TameRunDelivers(c: Config, y: System, ms: seq<Move>)
    requires Tame(c, y) && ShapedBank([c], y.bank)
    ensures !Breaks(c, y, ms)
  {
    hide Play, CompletesNext;
    if MovesOk([c], c.cobIdTx, ms) && Untimed([c], c.cobIdTx, y, ms) && CompletesNext([c], c.cobIdTx, y, ms, 0) {
      UntimedIsTame(c, y, ms);
      CompletedTransfersDeliver([c], c.cobIdTx, y, ms, 0);
    }
  }

  // ---- an old confirmation -------------------------------------------------------------------

  /** Only frames move: no call of the SDO is made. */
  predicate FramesOnly(ms: seq<Move>) {
    forall k :: 0 <= k < |ms| ==> !ms[k].Local? && !ms[k].Noise?
  }

  lemma {:induction false} FramesOnlyIsUntimed(c: Config, y: System, ms: seq<Move>)
    requires ShapedBank([c], y.bank) && FramesOnly(ms)
    ensures MovesOk([c], c.cobIdTx, ms) && Untimed([c], c.cobIdTx, y, ms)
    decreases |ms|
  {
    hide Advance;
    if ms != [] {
      FramesOnlyIsUntimed(c, Advance([c], c.cobIdTx, y, ms[0]), ms[1..]);
    }
  }

  lemma PlayNothing(c: Config, y: System)
    requires ShapedBank([c], y.bank)
    ensures Play([c], c.cobIdTx, y, []) == y
  {
  }

  /** The first `k` replies are lost. */
  lemma {:induction false} LosesReplies(c: Config, y: System, k: nat) returns (ms: seq<Move>)
    requires ShapedBank([c], y.bank) && k <= |y.link.toClient|
    ensures MovesOk([c], c.cobIdTx, ms) && FramesOnly(ms)
    ensures Play([c], c.cobIdTx, y, ms) == y.(link := y.link.(toClient := y.link.toClient[k..]))
    decreases k
  {
    hide Play;
    ms := [];
    if k == 0 {
      PlayNothing(c, y);
    } else {
      var z := y.(link := y.link.(toClient := y.link.toClient[1..]));
      assert Without(y.link.toClient, 0) == y.link.toClient[1..];
      var rest := LosesReplies(c, z, k - 1);
      PlayMore([c], c.cobIdTx, y, LoseToClient(0), rest);
      ms := [LoseToClient(0)] + rest;
      assert y.link.toClient[1..][k - 1..] == y.link.toClient[k..];
    }
  }

  /** The first `k` requests are lost. */
  lemma {:induction false} LosesRequests(c: Config, y: System, k: nat) returns (ms: seq<Move>)
    requires ShapedBank([c], y.bank) && k <= |y.link.toServer|
    ensures MovesOk([c], c.cobIdTx, ms) && FramesOnly(ms)
    ensures Play([c], c.cobIdTx, y, ms) == y.(link := y.link.(toServer := y.link.toServer[k..]))
    decreases k
  {
    hide Play;
    ms := [];
    if k == 0 {
      PlayNothing(c, y);
    } else {
      var z := y.(link := y.link.(toServer := y.link.toServer[1..]));
      assert Without(y.link.toServer, 0) == y.link.toServer[1..];
      var rest := LosesRequests(c, z, k - 1);
      PlayMore([c], c.cobIdTx, y, LoseToServer(0), rest);
      ms := [LoseToServer(0)] + rest;
      assert y.link.toServer[1..][k - 1..] == y.link.toServer[k..];
    }
  }

  /** The frames of a run lead on to a completed transfer that has not delivered. */
  ghost predicate Misleads(c: Config, y: System, ms: seq<Move>) {
    && ShapedBank([c], y.bank) && MovesOk([c], c.cobIdTx, ms) && FramesOnly(ms)
    && CompletesNext([c], c.cobIdTx, y, ms, 0)
    && var z := Play([c], c.cobIdTx, y, ms + [ToClient]);
       !Delivered(c, z.bank.sdos[0], z.link)
  }

  lemma MisleadsAfter(c: Config, y: System, ms: seq<Move>, ns: seq<Move>)
    requires ShapedBank([c], y.bank) && MovesOk([c], c.cobIdTx, ms) && FramesOnly(ms)
    requires Misleads(c, Play([c], c.cobIdTx, y, ms), ns)
    ensures Misleads(c, y, ms + ns)
  {
    hide Advance, Play, Delivered;
    PlayOfConcat([c], c.cobIdTx, y, ms, ns);
    var last := ns + [ToClient];
    PlayOfConcat([c], c.cobIdTx, y, ms, last);
    assert ms + ns + [ToClient] == ms + last;
  }

  lemma MisleadsNow(c: Config, y: System, ms: seq<Move>)
    requires ShapedBank([c], y.bank) && MovesOk([c], c.cobIdTx, ms) && FramesOnly(ms)
    requires Play([c], c.cobIdTx, y, ms).bank.sdos[0].busy
    requires var z := Play([c], c.cobIdTx, y, ms + [ToClient]);
             !z.bank.sdos[0].busy && !Delivered(c, z.bank.sdos[0], z.link)
    ensures Misleads(c, y, ms)
  {
    hide Play, Delivered;
  }

  /** The transfer goes to the object that the server happens to be downloading. */
  lemma {:induction false} WritesElsewhere(c: Config, y: System, s: SdoState, key: Key) returns (ms: seq<Move>)
    requires c.rw == Write && Sound(c, s) && s.busy && s.writeState == WriteData && s.written <= c.size
    requires y.bank == Only(s) && Connected(c, y.link.server)
    requires y.link.toServer != [] && DownData(c, s, y.link, key)
    requires key != KeyOfConfig(c) && KeyOfConfig(c) !in y.link.server.objects
    ensures Misleads(c, y, ms)
    decreases c.size - s.written
  {
    hide Serve, Receive, DownData;
    OneFrameLeft(c, s, y.link, key);
    ServeDownData(c, s, y.link, key, 0);
    ServeKeepsId(y.link.server, y.link.toServer[0], 0);
    var y1 := y.(link := Served(y.link, 0));
    PlayOne([c], c.cobIdTx, y, ToServer(0));
    ms := [ToServer(0)];
    DeliverDownData(c, s, y1.link, key);
    Takes(c, y1, s);
    PlayOfConcat([c], c.cobIdTx, y, ms, [ToClient]);
    var y2 := Advance([c], c.cobIdTx, y1, ToClient);
    if y2.bank.sdos[0].busy {
      StillWrites(c, s, y1.link, key);
      var rest := WritesElsewhere(c, y2, y2.bank.sdos[0], key);
      ms := ms + [ToClient];
      MisleadsAfter(c, y, ms, rest);
      ms := ms + rest;
    }
  }

  lemma OneFrameLeft(c: Config, s: SdoState, l: Link, key: Key)
    requires DownData(c, s, l, key) && l.toServer != []
    ensures |l.toServer| == 1 && l.toClient == [] && l.toServer[0].id == c.cobIdRx
  {
  }

  lemma StillWrites(c: Config, s: SdoState, l: Link, key: Key)
    requires Sound(c, s) && s.busy && c.rw == Write && s.writeState == WriteData && DownData(c, s, l, key)
    requires l.toServer == [] && l.toClient != [] && Receive(c, s, true, l.toClient[0]).sdo.busy
    ensures var r := Receive(c, s, true, l.toClient[0]); r.sent != [] && s.written < r.sdo.written <= c.size
  {
    hide SegmentFrame;
    if s.written < c.size {
      NextSegmentIsLast(c, s.(useTg1 := !s.useTg1), true);
    }
  }

  /** The transfer reads what the server happens to be uploading. */
  lemma {:induction false} ReadsElsewhere(c: Config, y: System, s: SdoState, whole: seq<byte>) returns (ms: seq<Move>)
    requires c.rw == Read && Sound(c, s) && s.busy && s.readState == ReadWaitForData
    requires y.bank == Only(s) && Connected(c, y.link.server)
    requires y.link.toServer != [] && UpData(c, s, y.link, whole)
    requires KeyOfConfig(c) in y.link.server.objects ==> y.link.server.objects[KeyOfConfig(c)] != whole
    ensures Misleads(c, y, ms)
    decreases |StillToSend(y.link.server)|
  {
    hide Serve, Receive, UpData;
    ServeUpData(c, s, y.link, whole, 0);
    ServeKeepsId(y.link.server, y.link.toServer[0], 0);
    var y1 := y.(link := Served(y.link, 0));
    PlayOne([c], c.cobIdTx, y, ToServer(0));
    ms := [ToServer(0)];
    SegmentIsCut(c, s, y.link, whole);
    DeliverUpData(c, s, y1.link, whole);
    Takes(c, y1, s);
    PlayOfConcat([c], c.cobIdTx, y, ms, [ToClient]);
    var y2 := Advance([c], c.cobIdTx, y1, ToClient);
    if y2.bank.sdos[0].busy {
      StillReads(c, s, y1.link, whole);
      var rest := ReadsElsewhere(c, y2, y2.bank.sdos[0], whole);
      ms := ms + [ToClient];
      MisleadsAfter(c, y, ms, rest);
      ms := ms + rest;
    }
  }

  lemma SegmentIsCut(c: Config, s: SdoState, l: Link, whole: seq<byte>)
    requires UpData(c, s, l, whole) && l.toServer != [] && Connected(c, l.server)
    ensures |l.toServer| == 1 && l.toClient == [] && l.toServer[0].id == c.cobIdRx
    ensures var rest := StillToSend(l.server);
            |StillToSend(Served(l, 0).server)| == (if rest == [] then 0 else |rest| - 1)
  {
    ServesSegmentRequest(c, l.server, !s.useTg1, 0);
  }

  /** A read that goes on has not had its last byte. */
  lemma StillReads(c: Config, s: SdoState, l: Link, whole: seq<byte>)
    requires Sound(c, s) && s.busy && c.rw == Read && s.readState == ReadWaitForData && UpData(c, s, l, whole)
    requires l.toServer == [] && l.toClient != [] && Receive(c, s, true, l.toClient[0]).sdo.busy
    ensures Receive(c, s, true, l.toClient[0]).sent != [] && StillToSend(l.server) != []
  {
    var f := l.toClient[0];
    CollectExtends(c, s, f);
    assert |s.temp[..s.received] + Payload(f) + StillToSend(l.server)| == c.size;
    assert Accepts(c, s, f);
  }

  /** The server is about to take the segments of a write, or to send those of a read, that belong
      to another object. */
  predicate Elsewhere(c: Config, v: Server) {
    if c.rw == Write
    then && KeyOfConfig(c) !in v.objects && v.phase.Download? && v.phase.key != KeyOfConfig(c)
         && v.phase == Download(v.phase.key, c.size, [], false)
    else && v.phase == Upload(Zeros(c.size), false)
         && (KeyOfConfig(c) in v.objects ==> v.objects[KeyOfConfig(c)] != Zeros(c.size))
  }

  /** A confirmation is taken, whatever else is under way is lost, and the server goes on with
      the other object. */
  lemma ConfirmedElsewhere(c: Config, y: System, s: SdoState) returns (ms: seq<Move>)
    requires (c.rw == Write ==> c.size > 0) && Sound(c, s) && JustOpened(c, s) && y.bank == Only(s)
    requires y.link.toClient != [] && y.link.toClient[0] == Confirmation(c)
    requires Connected(c, y.link.server) && Elsewhere(c, y.link.server)
    ensures Misleads(c, y, ms)
  {
    hide Advance, Receive, DownData, UpData, Misleads;
    OnlyIsShaped(c, s);
    ms := LosesRequests(c, y, |y.link.toServer|);
    var y1 := Play([c], c.cobIdTx, y, ms);
    Takes(c, y1, s);
    var y2 := Then(c, y, ms, [ToClient]);
    ms := ms + [ToClient];
    var more := LosesReplies(c, y2, |y2.link.toClient|);
    var y3 := Then(c, y, ms, more);
    ms := ms + more;
    var l := y1.link.(toClient := [Confirmation(c)]);
    var r := Receive(c, s, true, Confirmation(c));
    var rest;
    if c.rw == Write {
      DeliverWriteConf(c, s, l, l.server.phase.key);
      assert y3.link == Taken(l, r.sent);
      rest := WritesElsewhere(c, y3, r.sdo, l.server.phase.key);
    } else {
      DeliverReadConf(c, s, l, Zeros(c.size));
      assert y3.link == Taken(l, r.sent);
      rest := ReadsElsewhere(c, y3, r.sdo, Zeros(c.size));
    }
    MisleadsAfter(c, y, ms, rest);
    ms := ms + rest;
  }

  /** The old confirmation is taken for the new one. */
  lemma OldConfirmationMisleads(c: Config, y: System, requests: seq<CanFrame>, i: nat) returns (ms: seq<Move>)
    requires c.rw == Write ==> c.size > 0
    requires LeftBehind(c, y, requests, y.link.toClient) && i < |y.link.toClient|
    requires y.link.toClient[i] == Confirmation(c) && Elsewhere(c, y.link.server)
    ensures Misleads(c, y, ms)
  {
    hide Advance, Opening, Misleads, Elsewhere, Confirmation, Ordered;
    ms := LosesReplies(c, y, i);
    var y1 := Play([c], c.cobIdTx, y, ms);
    var rest := ConfirmedElsewhere(c, y1, y.bank.sdos[0]);
    MisleadsAfter(c, y, ms, rest);
    ms := ms + rest;
  }

  /** The SDO in the state in which it has just taken the lock for a transfer of zeros. */
  function Asking(c: Config): (s: SdoState)
    ensures Sound(c, s) && JustOpened(c, s)
  {
    if c.rw == Write then Fresh(c).(busy := true, writeState := WriteWaitForConf)
    else Fresh(c).(busy := true, readState := ReadWaitForConf)
  }

  lemma ConfirmationIsHarmful(c: Config, requests: seq<CanFrame>, replies: seq<CanFrame>)
    requires Confirmation(c) in replies && (c.rw == Write ==> c.size > 0)
    ensures !AlwaysDelivers(c, requests, replies)
  {
    hide Misleads, Untimed, CompletesNext, Confirmation, Opening, Ordered;
    var i :| 0 <= i < |replies| && replies[i] == Confirmation(c);
    var elsewhere := (c.odIndex, if c.odSubIndex == 0 then 1 else 0);
    var phase := if c.rw == Write then Download(elsewhere, c.size, [], false) else Upload(Zeros(c.size), false);
    var l := Link(requests + [Opening(c)], replies, Server(c.cobIdRx, c.cobIdTx, map[], phase), Asking(c).data);
    var y := System(Only(Asking(c)), l, true, AskedBefore(c, requests));
    assert LeftBehind(c, y, requests, replies);
    var ms := OldConfirmationMisleads(c, y, requests, i);
    MisleadingBreaks(c, y, ms);
  }

  lemma MisleadingBreaks(c: Config, y: System, ms: seq<Move>)
    requires ShapedBank([c], y.bank) && Misleads(c, y, ms)
    ensures Breaks(c, y, ms)
  {
    hide Play, Advance;
    FramesOnlyIsUntimed(c, y, ms);
  }

  /** Of the replies left under way exactly the SDO's own confirmation does harm: whatever the
      server is doing and whatever is lost, every transfer that completes has delivered, iff no
      such reply is left. */
  lemma OnlyConfirmationsHarm(c: Config, requests: seq<CanFrame>, replies: seq<CanFrame>)
    requires Safe(c, requests, []) && (c.rw == Write ==> c.size > 0)
    ensures AlwaysDelivers(c, requests, replies) <==> Confirmation(c) !in replies
  {
    if Confirmation(c) in replies {
      ConfirmationIsHarmful(c, requests, replies);
    } else {
      SafeFramesAreHarmless(c, requests, replies);
    }
  }

  // ---- an old read request -------------------------------------------------------------------

  /** A read SDO that has sent its request and seen no reply. */
  predicate Asks(c: Config, s: SdoState) {
    c.rw == Read && Sound(c, s) && JustOpened(c, s)
  }

  /** Every read request for an object that the server has in the client's size is answered by
      the confirmation. */
  lemma ServesReadOf(c: Config, v: Server, f: CanFrame)
    requires c.rw == Read && Opens(c, f) && Has(c, v) && Connected(c, v)
    ensures Serve(v, f, 0) == (v.(phase := Upload(v.objects[KeyOfConfig(c)], false)), ReadConf(c))
  {
    OpeningBytes(c, ReadConf(c), c.cobIdTx, 0x41, Le32(c.size));
    assert f.data[1..3] == Le16(c.odIndex);
    assert f.data[1..4] == f.data[1..3] + [f.data[3]];
    assert Reply(v, 0x41, f, Le32(c.size)).data == ReadConf(c).data;
  }

  /** The two confirmations have been taken, the second as data: the buffer starts with it, two
      segment requests are under way, and the server is as many bytes behind. */
  predicate Shifted(c: Config, s: SdoState, l: Link) {
    && c.rw == Read && Sound(c, s) && s.busy && s.readState == ReadWaitForData && 7 <= s.received < c.size
    && s.temp[..7] == ReadConf(c).data[1..8]
    && l.toServer == [ReadSegmentReq(c, s.useTg1), ReadSegmentReq(c, !s.useTg1)] && l.toClient == []
    && Connected(c, l.server) && l.server.phase.Upload? && l.server.phase.toggle == s.useTg1
    && |l.server.phase.rest| == c.size + 7 - s.received
    && Has(c, l.server) && l.server.objects[KeyOfConfig(c)][..7] != ReadConf(c).data[1..8]
  }

  /** The server answers the first of the two requests by one byte of the object. */
  lemma ShiftedServes(c: Config, s: SdoState, l: Link)
    requires Shifted(c, s, l)
    ensures var l1 := Served(l, 0);
            && l1.toServer == [ReadSegmentReq(c, !s.useTg1)] && |l1.toClient| == 1
            && l1.toClient[0].id == c.cobIdTx && l1.toClient[0].dlc == 2
            && l1.server == l.server.(phase := Upload(l.server.phase.rest[1..], !s.useTg1))
  {
    ServesSegmentRequest(c, l.server, s.useTg1, 0);
  }

  /** The client takes the byte and asks again. */
  lemma ShiftedTakes(c: Config, s: SdoState, f: CanFrame)
    requires c.rw == Read && Sound(c, s) && s.busy && s.readState == ReadWaitForData && 7 <= s.received < c.size
    requires s.temp[..7] == ReadConf(c).data[1..8] && f.id == c.cobIdTx && f.dlc == 2
    ensures var r := Receive(c, s, true, f);
            if s.received + 1 < c.size
            then && r.sdo.busy && r.sdo.readState == ReadWaitForData && r.sdo.received == s.received + 1
                 && r.sdo.temp[..7] == ReadConf(c).data[1..8]
                 && r.sent == [ReadSegmentReq(c, s.useTg1)] && r.sdo.useTg1 == !s.useTg1
            else !r.sdo.busy && r.sent == [] && |r.sdo.data| >= 7 && r.sdo.data[..7] == ReadConf(c).data[1..8]
  {
    CollectExtends(c, s, f);
    var t := Collect(c, s, f);
    assert t.temp[..7] == t.temp[..s.received][..7] && s.temp[..7] == s.temp[..s.received][..7];
  }

  /** A byte goes over, and the two stay as far apart as they are. */
  lemma ShiftedStep(c: Config, s: SdoState, l: Link)
    requires Shifted(c, s, l)
    ensures Served(l, 0).toClient != []
    ensures var l1 := Served(l, 0);
            var r := Receive(c, s, true, l1.toClient[0]);
            if s.received + 1 < c.size
            then Shifted(c, r.sdo, Taken(l1, r.sent)) && r.sdo.received == s.received + 1
            else !r.sdo.busy && !Delivered(c, r.sdo, Taken(l1, r.sent))
  {
    hide Serve, Receive, Sound, ReadConf, ReadSegmentReq;
    ShiftedServes(c, s, l);
    var f := Served(l, 0).toClient[0];
    ShiftedTakes(c, s, f);
    FrameAndLock(c, s, true, f);
  }

  lemma ShiftedIsBusy(c: Config, s: SdoState, l: Link)
    requires Shifted(c, s, l)
    ensures Sound(c, s) && s.busy && s.received < c.size && l.toServer != []
  {
  }

  lemma {:induction false} ReadsShifted(c: Config, y: System, s: SdoState) returns (ms: seq<Move>)
    requires Shifted(c, s, y.link) && y.bank == Only(s)
    ensures Misleads(c, y, ms)
    decreases c.size - s.received
  {
    hide Serve, Receive, Delivered, Advance, Play, Shifted, Misleads, Sound;
    ShiftedIsBusy(c, s, y.link);
    OnlyIsShaped(c, s);
    ShiftedStep(c, s, y.link);
    var y1 := Answers(c, y);
    ms := [ToServer(0)];
    Takes(c, y1, s);
    var y2 := Then(c, y, ms, [ToClient]);
    if s.received + 1 < c.size {
      var rest := ReadsShifted(c, y2, y2.bank.sdos[0]);
      ms := ms + [ToClient];
      MisleadsAfter(c, y, ms, rest);
      ms := ms + rest;
    } else {
      MisleadsNow(c, y, ms);
    }
  }

  /** Both requests have been confirmed, and nothing else is under way. */
  predicate TwiceConfirmed(c: Config, y: System, s: SdoState) {
    && c.size >= 7 && Asks(c, s) && y.bank == Only(s)
    && y.link.toServer == [] && y.link.toClient == [ReadConf(c), ReadConf(c)] && Connected(c, y.link.server)
    && Has(c, y.link.server) && y.link.server.objects[KeyOfConfig(c)][..7] != ReadConf(c).data[1..8]
    && y.link.server.phase == Upload(y.link.server.objects[KeyOfConfig(c)], false)
  }

  /** The second confirmation is taken for the first seven bytes. */
  lemma ConfirmationAsData(c: Config, s: SdoState)
    requires c.size >= 7 && Asks(c, s)
    ensures var r := Receive(c, s, true, ReadConf(c));
            && r.sent == [ReadSegmentReq(c, false)] && r.sdo.busy && Sound(c, r.sdo)
            && var q := Receive(c, r.sdo, true, ReadConf(c));
               if c.size == 7 then !q.sdo.busy && q.sdo.data == ReadConf(c).data[1..8] && q.sent == []
               else && q.sent == [ReadSegmentReq(c, true)] && Sound(c, q.sdo)
                    && q.sdo.busy && q.sdo.readState == ReadWaitForData && q.sdo.received == 7 && !q.sdo.useTg1
                    && q.sdo.temp[..7] == ReadConf(c).data[1..8]
  {
    var r := Receive(c, s, true, ReadConf(c));
    CollectExtends(c, r.sdo, ReadConf(c));
    FrameAndLock(c, s, true, ReadConf(c));
    FrameAndLock(c, r.sdo, true, ReadConf(c));
    assert r.sdo.temp[..0] == [];
  }

  lemma TwiceConfirmedMisleads(c: Config, y: System, s: SdoState) returns (ms: seq<Move>)
    requires TwiceConfirmed(c, y, s)
    ensures Misleads(c, y, ms)
  {
    hide Advance, Receive, Sound, JustOpened;
    OnlyIsShaped(c, s);
    JustOpenedIsBusy(c, s);
    ConfirmationAsData(c, s);
    Takes(c, y, s);
    ms := [ToClient];
    var y1 := Play([c], c.cobIdTx, y, ms);
    Takes(c, y1, y1.bank.sdos[0]);
    var y2 := Then(c, y, ms, [ToClient]);
    if c.size > 7 {
      ms := ms + [ToClient];
      assert [ReadSegmentReq(c, false)] + [ReadSegmentReq(c, true)]
          == [ReadSegmentReq(c, false), ReadSegmentReq(c, true)];
      var rest := ReadsShifted(c, y2, y2.bank.sdos[0]);
      MisleadsAfter(c, y, ms, rest);
      ms := ms + rest;
    } else {
      WholeIsNot(c, y2);
    }
  }

  lemma WholeIsNot(c: Config, y: System)
    requires |y.bank.sdos| == 1 && c.size == 7 && Has(c, y.link.server)
    requires y.bank.sdos[0].data == ReadConf(c).data[1..8]
    requires y.link.server.objects[KeyOfConfig(c)][..7] != ReadConf(c).data[1..8]
    ensures !Delivered(c, y.bank.sdos[0], y.link)
  {
    var whole := y.link.server.objects[KeyOfConfig(c)];
    assert whole[..7] == whole;
  }

  /** The server answers an old read request and the new one. */
  lemma OldRequestMisleads(c: Config, y: System, requests: seq<CanFrame>, i: nat) returns (ms: seq<Move>)
    requires c.rw == Read && c.size >= 7 && LeftBehind(c, y, requests, y.link.toClient)
    requires i < |requests| && Opens(c, requests[i])
    requires Has(c, y.link.server) && y.link.server.objects[KeyOfConfig(c)][..7] != ReadConf(c).data[1..8]
    ensures Misleads(c, y, ms)
  {
    hide Advance, Play, Serve, Sound, JustOpened, Opens, Misleads, ReadConf, ReadReq, Ordered;
    OnlyIsShaped(c, y.bank.sdos[0]);
    ms := LosesReplies(c, y, |y.link.toClient|);
    var y1 := Play([c], c.cobIdTx, y, ms);
    var more := LosesRequests(c, y1, i);
    var y2 := Then(c, y, ms, more);
    ms := ms + more;
    assert y2.link.toServer[0] == requests[i];
    var y3 := ServerAnswers(c, y, ms, y2);
    ms := ms + [ToServer(0)];
    more := LosesRequests(c, y3, |requests| - i - 1);
    var y4 := Then(c, y, ms, more);
    ms := ms + more;
    assert y4.link.toServer == [ReadReq(c)];
    OwnRequestOpens(c);
    var y5 := ServerAnswers(c, y, ms, y4);
    ms := ms + [ToServer(0)];
    var rest := TwiceConfirmedMisleads(c, y5, y.bank.sdos[0]);
    MisleadsAfter(c, y, ms, rest);
    ms := ms + rest;
  }

  lemma OpensIsHeard(c: Config, f: CanFrame)
    requires Opens(c, f)
    ensures f.id == c.cobIdRx
  {
  }

  lemma OwnRequestOpens(c: Config)
    requires c.rw == Read
    ensures Opens(c, ReadReq(c))
  {
    OpeningBytes(c, ReadReq(c), c.cobIdRx, 0x40, Zeros(4));
  }

  lemma ServerAnswers(c: Config, y: System, ms: seq<Move>, x: System) returns (z: System)
    requires c.rw == Read && ShapedBank([c], y.bank) && MovesOk([c], c.cobIdTx, ms)
    requires x == Play([c], c.cobIdTx, y, ms) && Has(c, x.link.server) && Connected(c, x.link.server)
    requires x.link.toServer != [] && Opens(c, x.link.toServer[0])
    ensures MovesOk([c], c.cobIdTx, ms + [ToServer(0)]) && z == Play([c], c.cobIdTx, y, ms + [ToServer(0)])
    ensures z == x.(link := x.link.(
                      toServer := x.link.toServer[1..], toClient := x.link.toClient + [ReadConf(c)],
                      server := x.link.server.(phase := Upload(x.link.server.objects[KeyOfConfig(c)], false))))
  {
    hide Serve, Opens;
    OpensIsHeard(c, x.link.toServer[0]);
    PlayOne([c], c.cobIdTx, x, ToServer(0));
    ServesReadOf(c, x.link.server, x.link.toServer[0]);
    z := Then(c, y, ms, [ToServer(0)]);
  }

  lemma RepeatedReadIsUnsafe(c: Config, requests: seq<CanFrame>)
    requires c.rw == Read && c.size >= 7
    ensures Ordered(c, AskedBefore(c, requests), requests + [Opening(c)]) <==> NoneOpens(c, requests)
  {
    hide Opens, Opening;
    var all := requests + [Opening(c)];
    forall k | 0 <= k < |requests| && Opens(c, requests[k])
      ensures !Ordered(c, AskedBefore(c, requests), all)
    {
      assert Opens(c, all[k]) && !MayFollow(c, AskedBefore(c, requests), all[|requests|]);
    }
  }

  lemma RequestIsHarmful(c: Config, requests: seq<CanFrame>, replies: seq<CanFrame>)
    requires c.rw == Read && c.size >= 7 && !NoneOpens(c, requests)
    ensures !AlwaysDelivers(c, requests, replies)
  {
    hide Misleads, Untimed, CompletesNext, Opens, Opening;
    RepeatedReadIsUnsafe(c, requests);
    var i :| 0 <= i < |requests| && Opens(c, requests[i]);
    var other: byte := if ReadConf(c).data[1] == 0 then 1 else 0;
    var whole: Object := seq(c.size, _ => other);
    assert whole[..7][0] != ReadConf(c).data[1..8][0];
    var v := Server(c.cobIdRx, c.cobIdTx, map[KeyOfConfig(c) := whole], Idle);
    var y := System(Only(Asking(c)), Link(requests + [Opening(c)], replies, v, []), true, AskedBefore(c, requests));
    assert LeftBehind(c, y, requests, replies);
    var ms := OldRequestMisleads(c, y, requests, i);
    MisleadingBreaks(c, y, ms);
  }

  /** For a read of seven bytes or more the condition is exact in both channels: whatever the
      server has and whatever is lost, every read that completes has delivered, iff neither a
      confirmation nor a read request of its object was left when it took the lock. */
  lemma ReadsNeedSafeLink(c: Config, requests: seq<CanFrame>, replies: seq<CanFrame>)
    requires c.rw == Read && c.size >= 7
    ensures AlwaysDelivers(c, requests, replies) <==> Safe(c, requests, replies)
  {
    RepeatedReadIsUnsafe(c, requests);
    if Confirmation(c) in replies {
      ConfirmationIsHarmful(c, requests, replies);
    } else if NoneOpens(c, requests) {
      SafeFramesAreHarmless(c, requests, replies);
    } else {
      RequestIsHarmful(c, requests, replies);
    }
  }

  // ---- a request that is repeated ------------------------------------------------------------

  /** Another object is opened in the same way: a write of the same size, or a read. */
  predicate Diverts(c: Config, f: CanFrame) {
    if c.rw == Write then StartsElsewhere(c, f) else ReadsOther(c, f)
  }

  lemma DivertsIsHeard(c: Config, f: CanFrame)
    requires Diverts(c, f)
    ensures f.id == c.cobIdRx
  {
  }

  predicate Diverted(c: Config, requests: seq<CanFrame>) {
    exists i, j :: 0 <= i < j < |requests| && Opens(c, requests[i]) && Diverts(c, requests[j])
  }

  /** Behind a request of this SDO no segment of a download is left, nor, for a read, a request for
      a segment. Such frames are sent only after the request of their transfer is answered. */
  predicate RequestsOnlyBehind(c: Config, requests: seq<CanFrame>) {
    forall i, j :: 0 <= i < j < |requests| && Opens(c, requests[i]) ==>
      !CarriesSegment(c, requests[j]) && (c.rw == Read ==> !RequestsSegment(c, requests[j]))
  }

  /** A write of some bytes, or a read of so few that no reply of eight bytes fits. */
  predicate MayRepeat(c: Config) {
    c.size > 0 && (c.rw == Read ==> c.size < 7)
  }

  lemma OwnRequestMayFollow(c: Config)
    requires MayRepeat(c)
    ensures MayFollow(c, true, Opening(c)) && Opens(c, Opening(c))
  {
    if c.rw == Write {
      OpeningBytes(c, WriteReq(c), c.cobIdRx, 0x21, Le32(c.size));
    } else {
      OpeningBytes(c, ReadReq(c), c.cobIdRx, 0x40, Zeros(4));
    }
  }

  lemma RepetitionIsOrdered(c: Config, requests: seq<CanFrame>)
    requires MayRepeat(c) && RequestsOnlyBehind(c, requests)
    ensures Ordered(c, AskedBefore(c, requests), requests + [Opening(c)]) <==> !Diverted(c, requests)
  {
    hide Opens, StartsElsewhere, CarriesSegment, RequestsSegment, ReadsOther, Opening;
    var all := requests + [Opening(c)];
    OwnRequestMayFollow(c);
    if i, j :| 0 <= i < j < |requests| && Opens(c, requests[i]) && Diverts(c, requests[j]) {
      assert Opens(c, all[i]) && !MayFollow(c, AskedBefore(c, requests), all[j]);
    }
  }

  /** The server holds the object that a read asks for, ones, and the other one, zeros; before a
      write it holds nothing. */
  function ServerBefore(c: Config, other: Key): (v: Server) {
    var objects := map[other := Zeros(c.size), KeyOfConfig(c) := Ones(c.size)];
    Server(c.cobIdRx, c.cobIdTx, if c.rw == Write then map[] else objects, Idle)
  }

  function Ones(n: nat): seq<byte> {
    seq(n, _ => 1)
  }

  /** The server answers an own request by the confirmation. */
  lemma ServesOwn(c: Config, v: Server, other: Key, f: CanFrame)
    requires MayRepeat(c) && Opens(c, f) && v == ServerBefore(c, other).(phase := v.phase)
    ensures var r := Serve(v, f, 0); r.1 == Confirmation(c) && r.0 == v.(phase := r.0.phase)
  {
    if c.rw == Read {
      ServesReadOf(c, v, f);
    } else {
      OpeningBytes(c, WriteConf(c), c.cobIdTx, 0x60, Zeros(4));
      assert f.data[1..3] == Le16(c.odIndex);
      assert f.data[1..4] == f.data[1..3] + [f.data[3]];
      assert Reply(v, 0x60, f, Zeros(4)).data == WriteConf(c).data;
    }
  }

  lemma ServesDiverting(c: Config, v: Server, f: CanFrame)
    requires MayRepeat(c) && Diverts(c, f) && v == ServerBefore(c, KeyOf(f)).(phase := v.phase)
    ensures var r := Serve(v, f, 0); Elsewhere(c, r.0) && Connected(c, r.0)
  {
    assert c.rw == Read ==> Ones(c.size)[0] != Zeros(c.size)[0];
  }

  /** The server answers the old request and opens the other object; the new request is lost. */
  lemma DivertedMisleads(c: Config, y: System, requests: seq<CanFrame>, i: nat, j: nat) returns (ms: seq<Move>)
    requires MayRepeat(c) && LeftBehind(c, y, requests, y.link.toClient)
    requires i < j < |requests| && Opens(c, requests[i]) && Diverts(c, requests[j])
    requires y.link.server == ServerBefore(c, KeyOf(requests[j]))
    ensures Misleads(c, y, ms)
  {
    hide Advance, Play, Serve, Sound, JustOpened, Misleads, Confirmation, Opening, Ordered, KeyOf, Opens, Diverts;
    hide Elsewhere, ServerBefore;
    OnlyIsShaped(c, y.bank.sdos[0]);
    ms := LosesReplies(c, y, |y.link.toClient|);
    var y1 := Play([c], c.cobIdTx, y, ms);
    var more := LosesRequests(c, y1, i);
    var y2 := Then(c, y, ms, more);
    ms := ms + more;
    assert y2.link.toServer[0] == requests[i];
    OpensIsHeard(c, requests[i]);
    DivertsIsHeard(c, requests[j]);
    ServesOwn(c, y2.link.server, KeyOf(requests[j]), requests[i]);
    var y3 := Answers(c, y2);
    y3 := Then(c, y, ms, [ToServer(0)]);
    ms := ms + [ToServer(0)];
    more := LosesRequests(c, y3, j - i - 1);
    var y4 := Then(c, y, ms, more);
    ms := ms + more;
    assert y4.link.toServer[0] == requests[j];
    ServesDiverting(c, y4.link.server, requests[j]);
    var y5 := Answers(c, y4);
    y5 := Then(c, y, ms, [ToServer(0)]);
    ms := ms + [ToServer(0)];
    assert y5.link.toClient[0] == y4.link.toClient[0] == Confirmation(c);
    var rest := ConfirmedElsewhere(c, y5, y.bank.sdos[0]);
    MisleadsAfter(c, y, ms, rest);
    ms := ms + rest;
  }

  lemma DiversionIsHarmful(c: Config, requests: seq<CanFrame>, replies: seq<CanFrame>, i: nat, j: nat)
    requires MayRepeat(c) && i < j < |requests| && Opens(c, requests[i]) && Diverts(c, requests[j])
    ensures !AlwaysDelivers(c, requests, replies)
  {
    hide Misleads, Untimed, CompletesNext, Opens, Opening, StartsElsewhere, ReadsOther, CarriesSegment, RequestsSegment;
    var all := requests + [Opening(c)];
    assert Opens(c, all[i]) && !MayFollow(c, AskedBefore(c, requests), all[j]);
    var l := Link(all, replies, ServerBefore(c, KeyOf(requests[j])), Asking(c).data);
    var y := System(Only(Asking(c)), l, true, AskedBefore(c, requests));
    assert LeftBehind(c, y, requests, replies);
    var ms := DivertedMisleads(c, y, requests, i, j);
    MisleadingBreaks(c, y, ms);
  }

  /** For a write of n > 0 bytes, and for a read of n > 0 bytes below seven, the condition is exact
      in both channels: whatever the server is doing and whatever is lost, every transfer that
      completes has delivered, iff no confirmation was left when the SDO took the lock, and no
      request of its own followed by one that opens another object in the same way. */
  lemma RepetitionsNeedSafeLink(c: Config, requests: seq<CanFrame>, replies: seq<CanFrame>)
    requires MayRepeat(c) && RequestsOnlyBehind(c, requests)
    ensures AlwaysDelivers(c, requests, replies) <==> Confirmation(c) !in replies && !Diverted(c, requests)
  {
    RepetitionIsOrdered(c, requests);
    if Confirmation(c) in replies {
      ConfirmationIsHarmful(c, requests, replies);
    } else if i, j :| 0 <= i < j < |requests| && Opens(c, requests[i]) && Diverts(c, requests[j]) {
      DiversionIsHarmful(c, requests, replies, i, j);
    } else {
      SafeFramesAreHarmless(c, requests, replies);
    }
  }

  /** Asking again as often as one likes is safe. */
  lemma RetriesDeliver(c: Config, requests: seq<CanFrame>)
    requires MayRepeat(c) && forall k :: 0 <= k < |requests| ==> requests[k] == Opening(c)
    ensures AlwaysDelivers(c, requests, [])
  {
    hide AlwaysDelivers, Opening, CarriesSegment, RequestsSegment, StartsElsewhere, ReadsOther, Opens;
    OwnRequestMayFollow(c);
    RepetitionsNeedSafeLink(c, requests, []);
  }

  /** It is not if another SDO of the same direction and, for a write, of the same size has asked
      in between. */
  lemma RetryIsDiverted(c: Config, d: Config)
    requires MayRepeat(c) && d.rw == c.rw && d.cobIdRx == c.cobIdRx
    requires KeyOfConfig(d) != KeyOfConfig(c) && (c.rw == Write ==> d.size == c.size)
    ensures !AlwaysDelivers(c, [Opening(c), Opening(d)], [])
  {
    OwnRequestMayFollow(c);
    if c.rw == Write {
      OpeningBytes(d, WriteReq(d), d.cobIdRx, 0x21, Le32(d.size));
      Le32RoundTrip(d.size);
    } else {
      OpeningBytes(d, ReadReq(d), d.cobIdRx, 0x40, Zeros(4));
    }
    DiversionIsHarmful(c, [Opening(c), Opening(d)], [], 0, 1);
  }
}
