/** Progress on a loss-free link: in every interleaving without timeout, a transfer takes one
    client frame and one server frame for the request and one of each for every segment, no
    fewer and no more; whatever else is called or arrives in between. */
module SdoProgress {
  import opened Can
  import opened SdoProtocol
  import opened SdoRuns
  import opened SdoBank
  import opened SdoServer
  import opened SdoSegments
  import opened SdoTransfer
  import opened SdoLink

  predicate WaitsForConf(c: Config, s: SdoState) {
    if c.rw == Write then s.writeState == WriteWaitForConf else s.readState == ReadWaitForConf
  }

  /** Exactly one frame is under way, the SDO's own or the answer, and the server stands where the
      transfer stands. */
  predicate InStep(c: Config, s: SdoState, l: Link) {
    if WaitsForConf(c, s) then
      || (l.toServer == [Opening(c)] && l.toClient == [])
      || (l.toServer == [] && l.toClient == [Confirmation(c)] && ServerOpened(c, l.server))
    else |l.toServer| + |l.toClient| == 1 && (c.rw == Write ==> DownData(c, s, l, KeyOfConfig(c)))
  }

  /** SDO `h` is in a transfer, in step with the server. A read is for an object that the server
      has in the client's size. */
  ghost predicate Going(cs: seq<Config>, tx: nat, y: System, h: nat) {
    && Consistent(cs, tx, y) && !y.stale && !y.repeated
    && h < |cs| && cs[h].size > 0 && y.bank.sdos[h].busy
    && InStep(cs[h], y.bank.sdos[h], y.link)
    && (cs[h].rw == Read ==> Has(cs[h], y.link.server))
  }

  /** Its request has just been sent. */
  ghost predicate Opened(cs: seq<Config>, tx: nat, y: System, h: nat) {
    Going(cs, tx, y, h) && y.link.toServer != [] && WaitsForConf(cs[h], y.bank.sdos[h])
  }

  ghost predicate Finished(cs: seq<Config>, tx: nat, y: System, h: nat) {
    && Consistent(cs, tx, y) && !y.stale
    && h < |cs| && !y.bank.sdos[h].busy && Quiet(y.link) && Delivered(cs[h], y.bank.sdos[h], y.link)
  }

  // ---- opening --------------------------------------------------------------------------------

  /** The call by which an SDO takes the lock on a quiet link. */
  lemma TakingOpens(cs: seq<Config>, tx: nat, y: System, h: nat, call: Call)
    requires Consistent(cs, tx, y) && Quiet(y.link) && MoveOk(cs, tx, Local(h, call)) && cs[h].size > 0
    requires !y.bank.lock && BankStep(cs, y.bank, h, call).sent != []
    requires cs[h].rw == Read ==> Has(cs[h], y.link.server)
    ensures var z := Advance(cs, tx, y, Local(h, call));
            Opened(cs, tx, z, h) && (cs[h].rw == Write ==> z.link.snapshot == Offered(cs[h], y.bank.sdos[h], call))
  {
    hide Step, Linked, OneDirection, AtRest, Opens, Confirmation, Opening, Offered;
    LocalStaysConsistent(cs, tx, y, h, call);
    assert !y.bank.sdos[h].busy;
    OpensOrRests(cs[h], y.bank.sdos[h], false, call);
  }

  /** A request that finds the lock free opens a write of the bytes set before. */
  lemma RequestOpensWrite(cs: seq<Config>, tx: nat, y: System, h: nat)
    requires Consistent(cs, tx, y) && Quiet(y.link) && !y.bank.lock
    requires h < |cs| && cs[h].rw == Write && cs[h].size > 0
    ensures var z := Advance(cs, tx, y, Local(h, Request));
            Opened(cs, tx, z, h) && z.link.snapshot == y.bank.sdos[h].temp
  {
    assert !y.bank.sdos[h].busy;
    TakingOpens(cs, tx, y, h, Request);
  }

  /** So does an execute that finds a write pending. */
  lemma PendingOpensWrite(cs: seq<Config>, tx: nat, y: System, h: nat)
    requires Consistent(cs, tx, y) && Quiet(y.link) && !y.bank.lock
    requires h < |cs| && cs[h].rw == Write && cs[h].size > 0 && y.bank.sdos[h].writePending
    ensures var z := Advance(cs, tx, y, Local(h, Cycle));
            Opened(cs, tx, z, h) && z.link.snapshot == y.bank.sdos[h].temp
  {
    assert !y.bank.sdos[h].busy;
    CycleOfFree(cs[h], y.bank.sdos[h]);
    TakingOpens(cs, tx, y, h, Cycle);
  }

  /** An execute that finds the lock free and the period expired opens a read. */
  lemma ExpiredPeriodOpensRead(cs: seq<Config>, tx: nat, y: System, h: nat)
    requires Consistent(cs, tx, y) && Quiet(y.link) && !y.bank.lock
    requires h < |cs| && cs[h].rw == Read && cs[h].size > 0 && Has(cs[h], y.link.server)
    requires ReadDue(cs[h], y.bank.sdos[h])
    ensures var z := Advance(cs, tx, y, Local(h, Cycle));
            Opened(cs, tx, z, h) && z.bank.sdos[h].readState == ReadWaitForConf
  {
    assert !y.bank.sdos[h].busy;
    CycleOfFree(cs[h], y.bank.sdos[h]);
    TakingOpens(cs, tx, y, h, Cycle);
  }

  // ---- one frame ------------------------------------------------------------------------------

  /** Frames that a write has still to take from the server. */
  function DownToGo(c: Config, s: SdoState): nat
    requires s.written <= c.size
  {
    if s.writeState == WriteWaitForConf then 1 + SegmentCount(c.size)
    else 1 + SegmentCount(c.size - s.written)
  }

  /** Bytes that the server has still to send to a read. */
  function UpToGo(c: Config, s: SdoState, v: Server): nat {
    if s.readState == ReadWaitForConf then c.size else |StillToSend(v)|
  }

  /** The frame under way to the client is the last of its transfer. */
  predicate LastTaken(c: Config, s: SdoState, v: Server)
    requires s.written <= c.size
  {
    if c.rw == Write then DownToGo(c, s) == 1 else !WaitsForConf(c, s) && UpToGo(c, s, v) == 0
  }

  lemma OneSegmentLess(n: nat, part: nat)
    requires 0 < part <= n && (part == 7 || (part == n && n <= 7))
    ensures SegmentCount(n - part) == SegmentCount(n) - 1
  {
  }

  lemma NoSegmentIsLeft(n: nat)
    ensures SegmentCount(n) == 0 <==> n == 0
  {
  }

  lemma TakesSegmentConf(c: Config, s: SdoState)
    requires Sound(c, s) && s.busy && c.rw == Write && s.writeState == WriteData
    ensures var r := Receive(c, s, true, WriteSegmentConf(c, s.useTg1));
            if s.written == c.size then !r.sdo.busy
            else |r.sent| == 1 && r.sdo.busy && r.sdo.writeState == WriteData
                 && s.written < r.sdo.written <= c.size && (r.sdo.written == s.written + 7
                                                            || (r.sdo.written == c.size <= s.written + 7))
  {
    hide SegmentFrame;
    if s.written < c.size {
      NextSegmentIsLast(c, s.(useTg1 := !s.useTg1), true);
    }
  }

  lemma TakesDown(c: Config, s: SdoState, l: Link)
    requires Sound(c, s) && s.busy && c.rw == Write && c.size > 0 && InStep(c, s, l)
    requires s.writeState != WriteIdle && l.toClient != []
    ensures var r := Receive(c, s, true, l.toClient[0]);
            if LastTaken(c, s, l.server) then !r.sdo.busy
            else |r.sent| == 1 && r.sdo.busy && r.sdo.writeState == WriteData && InStep(c, r.sdo, Taken(l, r.sent))
                 && DownToGo(c, r.sdo) == DownToGo(c, s) - 1
  {
    hide Receive, LastSegment, SegmentCount;
    var r := Receive(c, s, true, l.toClient[0]);
    NoSegmentIsLeft(c.size);
    NoSegmentIsLeft(c.size - s.written);
    if s.writeState == WriteWaitForConf {
      FirstTaken(c, s);
      DeliverWriteConf(c, s, l, KeyOfConfig(c));
      OneSegmentLess(c.size, r.sdo.written);
    } else {
      TakesSegmentConf(c, s);
      DeliverDownData(c, s, l, KeyOfConfig(c));
      if s.written < c.size {
        OneSegmentLess(c.size - s.written, r.sdo.written - s.written);
      }
    }
  }

  lemma TakesUp(c: Config, s: SdoState, l: Link)
    requires Sound(c, s) && s.busy && c.rw == Read && c.size > 0 && UpLinked(c, s, l) && InStep(c, s, l)
    requires l.toClient != []
    ensures var r := Receive(c, s, true, l.toClient[0]);
            if LastTaken(c, s, l.server) then !r.sdo.busy
            else |r.sent| == 1 && r.sdo.busy && r.sdo.readState == ReadWaitForData && InStep(c, r.sdo, Taken(l, r.sent))
                 && UpToGo(c, r.sdo, l.server) == UpToGo(c, s, l.server)
  {
    if s.readState == ReadWaitForData {
      var f := l.toClient[0];
      var whole := l.server.objects[KeyOfConfig(c)];
      assert |s.temp[..s.received] + Payload(f) + StillToSend(l.server)| == c.size;
      assert Accepts(c, s, f);
    }
  }

  lemma ServesUp(c: Config, s: SdoState, l: Link, cut: nat)
    requires Sound(c, s) && c.rw == Read && c.size > 0 && UpLinked(c, s, l) && Connected(c, l.server)
    requires l.toServer != [] && s.readState == ReadWaitForData
    ensures UpToGo(c, s, l.server) > 0
    ensures UpToGo(c, s, Served(l, cut).server) == UpToGo(c, s, l.server) - CutLength(UpToGo(c, s, l.server), cut)
  {
    var whole := l.server.objects[KeyOfConfig(c)];
    assert |s.temp[..s.received] + l.server.phase.rest| == |whole|;
    ServesSegmentRequest(c, l.server, !s.useTg1, cut);
  }

  /** What the SDO sends has the identifier of the server. */
  lemma HeadIsHeard(c: Config, s: SdoState, l: Link)
    requires s.busy && Linked(c, s, l, false) && InStep(c, s, l) && l.toServer != []
    ensures l.toServer[0].id == c.cobIdRx
  {
    hide Awaiting, DownSafe;
  }

  /** The server's answer keeps the transfer in step. */
  lemma ServesInStep(c: Config, s: SdoState, l: Link, cut: nat)
    requires Shaped(c, s) && InStep(c, s, l) && l.toServer != [] && Connected(c, l.server)
    requires l.toServer[0].id == c.cobIdRx
    requires c.rw == Read ==> Has(c, l.server)
    ensures InStep(c, s, Served(l, cut)) && Served(l, cut).toServer == [] && |Served(l, cut).toClient| == 1
    ensures WaitsForConf(c, s) ==> Served(l, cut).server.objects == l.server.objects
  {
    hide Serve, Opening, Confirmation, DownData, ServerOpened;
    if WaitsForConf(c, s) {
      ServesOpening(c, l.server, cut);
      assert [] + [Confirmation(c)] == [Confirmation(c)];
    } else if c.rw == Write {
      ServeDownData(c, s, l, KeyOfConfig(c), cut);
    }
  }

  // ---- one move -------------------------------------------------------------------------------

  predicate Loses(m: Move) {
    m.LoseToServer? || m.LoseToClient?
  }

  /** The move takes a frame from the channel to the server, or to the client. */
  predicate ServerTakes(y: System, m: Move) {
    m.ToServer? && y.link.toServer != []
  }

  predicate ClientTakes(y: System, m: Move) {
    m == ToClient && y.link.toClient != []
  }

  /** A move that takes no frame leaves the transfer as it is. */
  lemma OtherMoves(cs: seq<Config>, tx: nat, y: System, h: nat, m: Move)
    requires Going(cs, tx, y, h) && MoveOk(cs, tx, m) && !Loses(m) && !GivesUp(y, m)
    requires !ServerTakes(y, m) && !ClientTakes(y, m)
    ensures var z := Advance(cs, tx, y, m);
            && Going(cs, tx, z, h) && z.link == y.link
            && var s, t := y.bank.sdos[h], z.bank.sdos[h];
               t.writeState == s.writeState && t.readState == s.readState && t.written == s.written
  {
    hide Linked, Step, Confirmation, OneDirection, AtRest;
    AdvanceStaysConsistent(cs, tx, y, m);
    match m
    case Local(i, call) =>
      ExclusiveStep(cs, y.bank, i, call);
      if i == h {
        HolderWaits(cs[h], y.bank.sdos[h], call);
      } else {
        assert !y.bank.sdos[i].busy;
      }
    case Noise(f) => NoiseChangesNothing(cs, tx, y, f);
    case _ =>
  }

  lemma ServerMove(cs: seq<Config>, tx: nat, y: System, h: nat, cut: nat)
    requires Going(cs, tx, y, h) && ServerTakes(y, ToServer(cut))
    ensures var z := Advance(cs, tx, y, ToServer(cut));
            && Going(cs, tx, z, h) && z.bank == y.bank && z.link.toServer == [] && |z.link.toClient| == 1
            && z.link.snapshot == y.link.snapshot
            && (cs[h].rw == Read ==> z.link.server.objects == y.link.server.objects)
    ensures cs[h].rw == Read ==>
              var z := Advance(cs, tx, y, ToServer(cut));
              var left := UpToGo(cs[h], y.bank.sdos[h], y.link.server);
              var left' := UpToGo(cs[h], z.bank.sdos[h], z.link.server);
              left > 0 && left' == (if WaitsForConf(cs[h], y.bank.sdos[h]) then left else left - CutLength(left, cut))
  {
    hide Serve, DownSafe, UpData, Awaiting, OneDirection, Sound, InStep;
    var c, s := cs[h], y.bank.sdos[h];
    ToServerStaysConsistent(cs, tx, y, cut);
    SoundIsShaped(cs, y.bank, h);
    assert Linked(c, s, y.link, false);
    HeadIsHeard(c, s, y.link);
    ServesInStep(c, s, y.link, cut);
    if c.rw == Read && !WaitsForConf(c, s) {
      ServeUpload(c, s, y.link, cut);
      ServesUp(c, s, y.link, cut);
    }
  }

  lemma ClientMove(cs: seq<Config>, tx: nat, y: System, h: nat)
    requires Going(cs, tx, y, h) && ClientTakes(y, ToClient)
    ensures var z := Advance(cs, tx, y, ToClient);
            var c, s, t := cs[h], y.bank.sdos[h], z.bank.sdos[h];
            && z.link.server == y.link.server && z.link.snapshot == y.link.snapshot
            && s.written <= c.size && t.written <= c.size
            && if LastTaken(c, s, y.link.server) then Finished(cs, tx, z, h)
               else && Going(cs, tx, z, h) && !WaitsForConf(c, t) && z.link.toClient == []
                    && (c.rw == Write ==> DownToGo(c, t) == DownToGo(c, s) - 1)
                    && (c.rw == Read ==> UpToGo(c, t, y.link.server) == UpToGo(c, s, y.link.server))
  {
    hide Receive, Linked, Delivered, OneDirection, AtRest, Dispatch, SegmentCount, DownData, DownSafe, Awaiting;
    var c, s := cs[h], y.bank.sdos[h];
    ToClientStaysConsistent(cs, tx, y, h);
    LinkedIs(cs, tx, y, h);
    if c.rw == Write {
      TakesDown(c, s, y.link);
    } else {
      TakesUp(c, s, y.link);
    }
  }

  lemma LinkedIs(cs: seq<Config>, tx: nat, y: System, h: nat)
    requires Going(cs, tx, y, h)
    ensures var s := y.bank.sdos[h];
            Sound(cs[h], s) && if cs[h].rw == Write then DownLinked(cs[h], s, y.link) else UpLinked(cs[h], s, y.link)
  {
    hide DownLinked, UpLinked;
    assert Linked(cs[h], y.bank.sdos[h], y.link, false);
  }

  // ---- every run of one transfer --------------------------------------------------------------

  /** A run without loss and without timeout. Everything else is free: executes, set and write
      calls of every SDO, frames of other identifiers, moves that find no frame. */
  predicate Calm(cs: seq<Config>, tx: nat, y: System, ms: seq<Move>)
    requires ShapedBank(cs, y.bank)
    decreases |ms|
  {
    ms == [] ||
    var n := |ms| - 1;
    Calm(cs, tx, y, ms[..n]) && MovesOk(cs, tx, ms) && !Loses(ms[n]) && !GivesUp(Play(cs, tx, y, ms[..n]), ms[n])
  }

  /** SDO `h` is busy before each move: the run lies in one transfer. */
  predicate Within(cs: seq<Config>, tx: nat, y: System, ms: seq<Move>, h: nat)
    requires ShapedBank(cs, y.bank) && MovesOk(cs, tx, ms) && h < |cs|
  {
    forall k :: 0 <= k < |ms| ==> Play(cs, tx, y, ms[..k]).bank.sdos[h].busy
  }

  /** Frames that the client has taken. */
  function Received(cs: seq<Config>, tx: nat, y: System, ms: seq<Move>): nat
    requires ShapedBank(cs, y.bank) && MovesOk(cs, tx, ms)
    decreases |ms|
  {
    if ms == [] then 0
    else
      var n := |ms| - 1;
      Received(cs, tx, y, ms[..n]) + (if ClientTakes(Play(cs, tx, y, ms[..n]), ms[n]) then 1 else 0)
  }

  /** The cuts offered with the frames that the server has taken, one for each frame. */
  function Cuts(cs: seq<Config>, tx: nat, y: System, ms: seq<Move>): seq<nat>
    requires ShapedBank(cs, y.bank) && MovesOk(cs, tx, ms)
    decreases |ms|
  {
    if ms == [] then []
    else
      var n := |ms| - 1;
      Cuts(cs, tx, y, ms[..n]) + (if ServerTakes(Play(cs, tx, y, ms[..n]), ms[n]) then [ms[n].cut] else [])
  }

  lemma PlayLast(cs: seq<Config>, tx: nat, y: System, ms: seq<Move>)
    requires ShapedBank(cs, y.bank) && MovesOk(cs, tx, ms) && ms != []
    ensures var n := |ms| - 1;
            Play(cs, tx, y, ms) == Advance(cs, tx, Play(cs, tx, y, ms[..n]), ms[n])
  {
    hide Advance;
    var n := |ms| - 1;
    assert ms == ms[..n] + [ms[n]];
    PlayOfConcat(cs, tx, y, ms[..n], [ms[n]]);
    PlayOne(cs, tx, Play(cs, tx, y, ms[..n]), ms[n]);
  }

  lemma GoingIsShaped(cs: seq<Config>, tx: nat, y: System, h: nat)
    requires Going(cs, tx, y, h)
    ensures ShapedBank(cs, y.bank) && y.bank.sdos[h].busy && y.bank.sdos[h].written <= cs[h].size
  {
  }

  /** What is known after a run of a write that has taken `r` frames and given `k` to the server. */
  ghost predicate WriteTrack(cs: seq<Config>, tx: nat, z: System, h: nat, snapshot: seq<byte>, r: nat, k: nat)
    requires h < |cs|
  {
    && z.link.snapshot == snapshot
    && if Going(cs, tx, z, h)
       then z.bank.sdos[h].written <= cs[h].size
            && r + DownToGo(cs[h], z.bank.sdos[h]) == 1 + SegmentCount(cs[h].size) && k == r + |z.link.toClient|
       else Finished(cs, tx, z, h) && r == k == 1 + SegmentCount(cs[h].size)
  }

  lemma WriteTrackStep(cs: seq<Config>, tx: nat, y: System, h: nat, snapshot: seq<byte>, r: nat, k: nat, m: Move)
    requires h < |cs| && cs[h].rw == Write && Going(cs, tx, y, h) && WriteTrack(cs, tx, y, h, snapshot, r, k)
    requires MoveOk(cs, tx, m) && !Loses(m) && !GivesUp(y, m)
    ensures WriteTrack(cs, tx, Advance(cs, tx, y, m), h, snapshot,
                       r + (if ClientTakes(y, m) then 1 else 0), k + (if ServerTakes(y, m) then 1 else 0))
  {
    hide Advance, Consistent, SegmentCount, Delivered, Confirmation;
    if ServerTakes(y, m) {
      ServerMove(cs, tx, y, h, m.cut);
    } else if ClientTakes(y, m) {
      ClientMove(cs, tx, y, h);
      GoingIsShaped(cs, tx, y, h);
      FinishedIsNotGoing(cs, tx, Advance(cs, tx, y, m), h);
    } else {
      OtherMoves(cs, tx, y, h, m);
    }
  }

  lemma FinishedIsNotGoing(cs: seq<Config>, tx: nat, y: System, h: nat)
    ensures !(Finished(cs, tx, y, h) && Going(cs, tx, y, h))
  {
  }

  lemma {:induction false} WriteTrackRun(cs: seq<Config>, tx: nat, y: System, h: nat, ms: seq<Move>)
    requires Opened(cs, tx, y, h) && cs[h].rw == Write
    requires ShapedBank(cs, y.bank) && MovesOk(cs, tx, ms) && Calm(cs, tx, y, ms) && Within(cs, tx, y, ms, h)
    ensures WriteTrack(cs, tx, Play(cs, tx, y, ms), h, y.link.snapshot,
                       Received(cs, tx, y, ms), |Cuts(cs, tx, y, ms)|)
    decreases |ms|
  {
    hide Advance, Consistent, SegmentCount, Delivered, Confirmation, MoveOk, GivesUp, DownToGo;
    if ms == [] {
      OpenedToGo(cs, tx, y, h);
    } else {
      var n := |ms| - 1;
      WithinPrefix(cs, tx, y, ms, h, n);
      WriteTrackRun(cs, tx, y, h, ms[..n]);
      PlayLast(cs, tx, y, ms);
      WriteTrackStep(cs, tx, Play(cs, tx, y, ms[..n]), h, y.link.snapshot,
                     Received(cs, tx, y, ms[..n]), |Cuts(cs, tx, y, ms[..n])|, ms[n]);
    }
  }

  lemma OpenedToGo(cs: seq<Config>, tx: nat, y: System, h: nat)
    requires Opened(cs, tx, y, h)
    ensures y.bank.sdos[h].written <= cs[h].size
    ensures cs[h].rw == Write ==> DownToGo(cs[h], y.bank.sdos[h]) == 1 + SegmentCount(cs[h].size)
  {
  }

  lemma WithinPrefix(cs: seq<Config>, tx: nat, y: System, ms: seq<Move>, h: nat, k: nat)
    requires ShapedBank(cs, y.bank) && MovesOk(cs, tx, ms) && h < |cs| && k <= |ms| && Within(cs, tx, y, ms, h)
    ensures Within(cs, tx, y, ms[..k], h)
  {
    assert forall i :: 0 <= i < k ==> ms[..k][..i] == ms[..i];
  }

  lemma WithinNothing(cs: seq<Config>, tx: nat, y: System, h: nat)
    requires ShapedBank(cs, y.bank) && h < |cs|
    ensures Within(cs, tx, y, [], h)
  {
  }

  lemma WithinExtends(cs: seq<Config>, tx: nat, y: System, ms: seq<Move>, h: nat)
    requires ShapedBank(cs, y.bank) && MovesOk(cs, tx, ms) && h < |cs| && ms != []
    requires Within(cs, tx, y, ms[..|ms| - 1], h) && Play(cs, tx, y, ms[..|ms| - 1]).bank.sdos[h].busy
    ensures Within(cs, tx, y, ms, h)
  {
    hide Play;
    assert forall i :: 0 <= i < |ms| - 1 ==> ms[..|ms| - 1][..i] == ms[..i];
  }

  /** The part of a run that lies in the transfer under way: all of it, or up to the move after
      which the SDO is not busy any more. */
  lemma {:induction false} UpToItsEnd(cs: seq<Config>, tx: nat, y: System, h: nat, ms: seq<Move>) returns (k: nat)
    requires ShapedBank(cs, y.bank) && MovesOk(cs, tx, ms) && Calm(cs, tx, y, ms) && h < |cs|
    ensures k <= |ms| && Calm(cs, tx, y, ms[..k]) && Within(cs, tx, y, ms[..k], h)
    ensures k < |ms| ==> !Play(cs, tx, y, ms[..k]).bank.sdos[h].busy
    decreases |ms|
  {
    hide Play, MoveOk, GivesUp, Within;
    k := 0;
    if ms == [] {
      assert Within(cs, tx, y, ms[..k], h) by { WithinNothing(cs, tx, y, h); }
    } else {
      var n := |ms| - 1;
      k := UpToItsEnd(cs, tx, y, h, ms[..n]);
      assert ms[..n][..k] == ms[..k];
      if k == n && Play(cs, tx, y, ms[..n]).bank.sdos[h].busy {
        assert ms[..n][..n] == ms[..n];
        WithinExtends(cs, tx, y, ms, h);
        k := |ms|;
        assert ms[..k] == ms;
      }
    }
  }

  /** In every run without loss and timeout that starts with a write of n > 0 bytes, the write
      ends, delivered, exactly when the client has taken its 1 + ceil(n/7)-th frame; by then the
      server has taken as many. Until then exactly one frame is under way. */
  lemma WriteCompletes(cs: seq<Config>, tx: nat, y: System, h: nat, ms: seq<Move>) returns (k: nat)
    requires Opened(cs, tx, y, h) && cs[h].rw == Write
    requires ShapedBank(cs, y.bank) && MovesOk(cs, tx, ms) && Calm(cs, tx, y, ms)
    ensures k <= |ms| && Within(cs, tx, y, ms[..k], h)
    ensures var z := Play(cs, tx, y, ms[..k]);
            var r, a := Received(cs, tx, y, ms[..k]), |Cuts(cs, tx, y, ms[..k])|;
            if r < 1 + SegmentCount(cs[h].size) then k == |ms| && Going(cs, tx, z, h) && a == r + |z.link.toClient|
            else && r == a == 1 + SegmentCount(cs[h].size)
                 && Finished(cs, tx, z, h)
                 && z.link.server.objects[KeyOfConfig(cs[h])] == z.bank.sdos[h].data == y.link.snapshot
  {
    hide Advance, Consistent, SegmentCount, Confirmation, Within;
    k := UpToItsEnd(cs, tx, y, h, ms);
    WriteTrackRun(cs, tx, y, h, ms[..k]);
  }

  // ---- every run of one read ------------------------------------------------------------------

  /** Bytes left after the server has cut as `cuts` says. */
  function LeftAfter(size: nat, cuts: seq<nat>): nat
    decreases |cuts|
  {
    if cuts == [] then size
    else
      var left := LeftAfter(size, cuts[..|cuts| - 1]);
      left - CutLength(left, cuts[|cuts| - 1])
  }

  /** The cuts use up the object, and the last one does not fall behind its end. */
  predicate Exhausts(size: nat, cuts: seq<nat>) {
    cuts != [] && LeftAfter(size, cuts) == 0 && LeftAfter(size, cuts[..|cuts| - 1]) > 0
  }

  /** What is known after a run of a read: the first frame to the server was the request, the
      others have cut the object. */
  ghost predicate ReadTrack(cs: seq<Config>, tx: nat, z: System, h: nat, objects: map<Key, Object>, r: nat,
                            cuts: seq<nat>)
    requires h < |cs|
  {
    && z.link.server.objects == objects
    && if Going(cs, tx, z, h)
       then && |cuts| == r + |z.link.toClient|
            && (r == 0 <==> WaitsForConf(cs[h], z.bank.sdos[h]))
            && (cuts != [] ==> UpToGo(cs[h], z.bank.sdos[h], z.link.server) == LeftAfter(cs[h].size, cuts[1..]))
            && (|cuts| > 1 ==> z.link.toClient == [] ==> LeftAfter(cs[h].size, cuts[1..]) > 0)
            && (|cuts| > 1 ==> LeftAfter(cs[h].size, cuts[1..|cuts| - 1]) > 0)
       else Finished(cs, tx, z, h) && r == |cuts| > 1 && Exhausts(cs[h].size, cuts[1..])
  }

  lemma OneMoreCut(size: nat, cuts: seq<nat>, cut: nat)
    ensures var all := cuts + [cut];
            if cuts == [] then LeftAfter(size, all[1..]) == size
            else all[1..|all| - 1] == cuts[1..]
                 && var left := LeftAfter(size, cuts[1..]); LeftAfter(size, all[1..]) == left - CutLength(left, cut)
  {
    if cuts != [] {
      assert (cuts + [cut])[1..] == cuts[1..] + [cut];
      assert (cuts[1..] + [cut])[..|cuts| - 1] == cuts[1..];
      assert (cuts + [cut])[1..|cuts|] == cuts[1..];
    }
  }

  lemma ReadTrackServes(cs: seq<Config>, tx: nat, y: System, h: nat, objects: map<Key, Object>, r: nat,
                        cuts: seq<nat>, cut: nat)
    requires h < |cs| && cs[h].rw == Read && Going(cs, tx, y, h) && ReadTrack(cs, tx, y, h, objects, r, cuts)
    requires ServerTakes(y, ToServer(cut))
    ensures ReadTrack(cs, tx, Advance(cs, tx, y, ToServer(cut)), h, objects, r, cuts + [cut])
  {
    hide Advance, Consistent, Delivered, Confirmation, Has, LeftAfter;
    ServerMove(cs, tx, y, h, cut);
    OneMoreCut(cs[h].size, cuts, cut);
  }

  lemma ReadTrackTakes(cs: seq<Config>, tx: nat, y: System, h: nat, objects: map<Key, Object>, r: nat, cuts: seq<nat>)
    requires h < |cs| && cs[h].rw == Read && Going(cs, tx, y, h) && ReadTrack(cs, tx, y, h, objects, r, cuts)
    requires ClientTakes(y, ToClient)
    ensures ReadTrack(cs, tx, Advance(cs, tx, y, ToClient), h, objects, r + 1, cuts)
  {
    hide Advance, Consistent, Delivered, Confirmation, Has;
    ClientMove(cs, tx, y, h);
    GoingIsShaped(cs, tx, y, h);
    FinishedIsNotGoing(cs, tx, Advance(cs, tx, y, ToClient), h);
    if |cuts| > 1 {
      assert cuts[1..][..|cuts[1..]| - 1] == cuts[1..|cuts| - 1];
    }
  }

  lemma {:induction false} ReadTrackRun(cs: seq<Config>, tx: nat, y: System, h: nat, ms: seq<Move>)
    requires Opened(cs, tx, y, h) && cs[h].rw == Read
    requires ShapedBank(cs, y.bank) && MovesOk(cs, tx, ms) && Calm(cs, tx, y, ms) && Within(cs, tx, y, ms, h)
    ensures ReadTrack(cs, tx, Play(cs, tx, y, ms), h, y.link.server.objects,
                      Received(cs, tx, y, ms), Cuts(cs, tx, y, ms))
    decreases |ms|
  {
    hide Advance, Consistent, Delivered, Confirmation, MoveOk, GivesUp, Has, UpToGo, LeftAfter;
    if ms != [] {
      var n := |ms| - 1;
      WithinPrefix(cs, tx, y, ms, h, n);
      ReadTrackRun(cs, tx, y, h, ms[..n]);
      PlayLast(cs, tx, y, ms);
      var x := Play(cs, tx, y, ms[..n]);
      var r, cuts := Received(cs, tx, y, ms[..n]), Cuts(cs, tx, y, ms[..n]);
      if ServerTakes(x, ms[n]) {
        ReadTrackServes(cs, tx, x, h, y.link.server.objects, r, cuts, ms[n].cut);
      } else if ClientTakes(x, ms[n]) {
        ReadTrackTakes(cs, tx, x, h, y.link.server.objects, r, cuts);
        assert Cuts(cs, tx, y, ms) == cuts;
      } else {
        OtherMoves(cs, tx, x, h, ms[n]);
        var z := Play(cs, tx, y, ms);
        UpToGoDepends(cs[h], x.bank.sdos[h], z.bank.sdos[h], x.link.server);
        assert Going(cs, tx, z, h) && z.link == x.link;
        assert Cuts(cs, tx, y, ms) == cuts;
      }
    }
  }

  lemma UpToGoDepends(c: Config, s: SdoState, t: SdoState, v: Server)
    requires s.readState == t.readState
    ensures UpToGo(c, s, v) == UpToGo(c, t, v)
  {
  }

  /** In every such run that starts with a read, the read ends, delivered, exactly when the
      client has taken the confirmation and every segment of the cuts that use up the object:
      1 + k frames each way for k segments, for every way to cut. Until then exactly one frame
      is under way. */
  lemma ReadCompletes(cs: seq<Config>, tx: nat, y: System, h: nat, ms: seq<Move>) returns (k: nat)
    requires Opened(cs, tx, y, h) && cs[h].rw == Read
    requires ShapedBank(cs, y.bank) && MovesOk(cs, tx, ms) && Calm(cs, tx, y, ms)
    ensures k <= |ms| && Within(cs, tx, y, ms[..k], h)
    ensures var z := Play(cs, tx, y, ms[..k]);
            var r, cuts := Received(cs, tx, y, ms[..k]), Cuts(cs, tx, y, ms[..k]);
            if r == |cuts| > 1 && Exhausts(cs[h].size, cuts[1..])
            then Finished(cs, tx, z, h) && z.bank.sdos[h].data == y.link.server.objects[KeyOfConfig(cs[h])]
            else k == |ms| && Going(cs, tx, z, h) && |cuts| == r + |z.link.toClient|
  {
    hide Advance, Consistent, Confirmation, Has, LeftAfter, Within;
    k := UpToItsEnd(cs, tx, y, h, ms);
    ReadTrackRun(cs, tx, y, h, ms[..k]);
  }

  // ---- and it does end ------------------------------------------------------------------------

  /** Moves that take a frame and are still to come, if the server cuts single bytes. */
  function ToGo(c: Config, s: SdoState, l: Link): int
    requires s.written <= c.size
  {
    if c.rw == Write then 2 * DownToGo(c, s) - |l.toClient|
    else if s.readState == ReadWaitForConf then 2 * c.size + 4 - |l.toClient|
    else 2 * UpToGo(c, s, l.server) + |l.toClient|
  }

  /** From everywhere in a transfer the frames under way alone bring it to its end. */
  lemma {:induction false} EveryTransferCanFinish(cs: seq<Config>, tx: nat, y: System, h: nat) returns (ms: seq<Move>)
    requires Going(cs, tx, y, h) && y.bank.sdos[h].written <= cs[h].size
    ensures ShapedBank(cs, y.bank) && MovesOk(cs, tx, ms) && Finished(cs, tx, Play(cs, tx, y, ms), h)
    ensures forall k :: 0 <= k < |ms| ==> ms[k] == ToServer(0) || ms[k] == ToClient
    decreases ToGo(cs[h], y.bank.sdos[h], y.link)
  {
    hide Advance, Consistent, Delivered, Confirmation, Has, SegmentCount;
    GoingIsShaped(cs, tx, y, h);
    var m := if y.link.toServer != [] then ToServer(0) else ToClient;
    var z := Advance(cs, tx, y, m);
    if y.link.toServer != [] {
      ServerMove(cs, tx, y, h, 0);
    } else {
      ClientMove(cs, tx, y, h);
    }
    var rest: seq<Move> := [];
    if Going(cs, tx, z, h) {
      rest := EveryTransferCanFinish(cs, tx, z, h);
    }
    ms := [m] + rest;
    assert ms[1..] == rest;
  }
}
