/** One client, the link to the server and the server: what holds of the frames under way while a
    transfer waits for its confirmation and while it moves its data, and that it is kept by every
    frame that the server or the client takes and by every loss. */
module SdoTransfer {
  import opened Can
  import opened SdoProtocol
  import opened SdoRuns
  import opened SdoServer

  /** Frames under way in both directions, the server, and the bytes that the write transfer
      started last took from its temporary buffer. */
  datatype Link = Link(toServer: seq<CanFrame>, toClient: seq<CanFrame>, server: Server, snapshot: seq<byte>)

  predicate Quiet(l: Link) {
    l.toServer == [] && l.toClient == []
  }

  // ---- the opening of a transfer ----------------------------------------------------------

  /** The frame that opens a transfer of this SDO, and the answer it waits for. */
  function Opening(c: Config): CanFrame {
    if c.rw == Write then WriteReq(c) else ReadReq(c)
  }

  function Confirmation(c: Config): CanFrame {
    if c.rw == Write then WriteConf(c) else ReadConf(c)
  }

  /** The server may answer this frame by the confirmation that the SDO waits for. */
  predicate Opens(c: Config, f: CanFrame) {
    && f.id == c.cobIdRx && KeyOf(f) == KeyOfConfig(c)
    && (if c.rw == Write then f.data[0] == 0x21 else f.data[0] / 32 == 2)
  }

  predicate NoneOpens(c: Config, fs: seq<CanFrame>) {
    forall k :: 0 <= k < |fs| ==> !Opens(c, fs[k])
  }

  /** A segment of a download, the only frame whose answer confirms a segment. */
  predicate CarriesSegment(c: Config, f: CanFrame) {
    f.id == c.cobIdRx && f.data[0] / 32 == 0
  }

  /** A download request for another object of the same size. */
  predicate StartsElsewhere(c: Config, f: CanFrame) {
    f.id == c.cobIdRx && f.data[0] == 0x21 && KeyOf(f) != KeyOfConfig(c) && FromLe32(f.data[4..8]) == c.size
  }

  /** A request for a segment of an upload, and a read request for another object. */
  predicate RequestsSegment(c: Config, f: CanFrame) {
    f.id == c.cobIdRx && f.data[0] / 32 == 3
  }

  predicate ReadsOther(c: Config, f: CanFrame) {
    f.id == c.cobIdRx && f.data[0] / 32 == 2 && KeyOf(f) != KeyOfConfig(c)
  }

  /** What may be under way behind a frame that the server may answer by the confirmation. For a
      write: whatever neither confirms a segment nor makes the server take the segments of this
      write for another object. For a read nothing, unless it is `again` a read of an object whose
      request is still under way, and so small that no reply of eight bytes fits: then whatever
      neither changes nor moves the server's copy nor makes it send another one. */
  predicate MayFollow(c: Config, again: bool, f: CanFrame) {
    if c.rw == Write then !CarriesSegment(c, f) && !StartsElsewhere(c, f)
    else again && 0 < c.size < 7 && !CarriesSegment(c, f) && !RequestsSegment(c, f) && !ReadsOther(c, f)
  }

  predicate AllMayFollow(c: Config, again: bool, fs: seq<CanFrame>) {
    forall k :: 0 <= k < |fs| ==> MayFollow(c, again, fs[k])
  }

  predicate Ordered(c: Config, again: bool, requests: seq<CanFrame>) {
    forall i, j :: 0 <= i < j < |requests| && Opens(c, requests[i]) ==> MayFollow(c, again, requests[j])
  }

  /** Behind a confirmation there is, for a write, no reply that confirms the first segment, and
      for a read none at all, or in a repeated one none that carries fewer than seven bytes. */
  predicate ReplyMayFollow(c: Config, again: bool, f: CanFrame) {
    if c.rw == Write then f != WriteSegmentConf(c, false) else again && 0 < c.size < 7 && f.dlc == 8
  }

  predicate RepliesOrdered(c: Config, again: bool, replies: seq<CanFrame>) {
    forall i, j :: 0 <= i < j < |replies| && replies[i] == Confirmation(c) ==> ReplyMayFollow(c, again, replies[j])
  }

  /** A read whose object was asked for before, and the server has not answered. */
  predicate Repeats(c: Config, l: Link) {
    c.rw == Read && !NoneOpens(c, l.toServer)
  }

  /** Nothing left under way can be taken for the start of a transfer of this SDO and lead it
      astray: no old reply is its confirmation, and no old request that will be answered by it is
      followed by a frame that it must not be followed by. So a write may repeat its request, and
      so may a read of fewer than seven bytes. */
  predicate SafeToOpen(c: Config, l: Link) {
    Ordered(c, Repeats(c, l), l.toServer + [Opening(c)]) && Confirmation(c) !in l.toClient
  }

  /** The server has an object of the client's size. */
  predicate Has(c: Config, v: Server) {
    KeyOfConfig(c) in v.objects && |v.objects[KeyOfConfig(c)]| == c.size
  }

  /** The server has taken the request. */
  predicate ServerOpened(c: Config, v: Server) {
    if c.rw == Write then v.phase == Download(KeyOfConfig(c), c.size, [], false)
    else Has(c, v) && v.phase == Upload(v.objects[KeyOfConfig(c)], false)
  }

  /** The server has `got` so far, or it takes no segment of this write at all; it can store an
      object of this size under the key of this SDO only. */
  predicate Fits(c: Config, p: Phase, got: seq<byte>, toggle: bool) {
    p.Download? ==> p.got == got && p.toggle == toggle && (p.size == c.size ==> p.key == KeyOfConfig(c))
  }

  /** The server has answered by the confirmation, and what it has taken since may follow. */
  predicate Accepting(c: Config, again: bool, v: Server) {
    if c.rw == Write then Fits(c, v.phase, [], false)
    else if !again then ServerOpened(c, v)
    else Has(c, v) && (v.phase.Upload? ==> v.phase.rest == v.objects[KeyOfConfig(c)])
  }

  /** A transfer waits for its confirmation. Every part of this holds of fewer frames too, so no
      loss can hurt. */
  predicate Awaiting(c: Config, again: bool, l: Link) {
    && Ordered(c, again, l.toServer) && RepliesOrdered(c, again, l.toClient)
    && (Confirmation(c) in l.toClient ==> AllMayFollow(c, again, l.toServer) && Accepting(c, again, l.server))
  }

  // ---- one client and the link -----------------------------------------------------------

  /** The segment sent last is `s.segment`: it carries the bytes before `written`. */
  predicate LastSegment(c: Config, s: SdoState) {
    && s.segment.id == c.cobIdRx && 2 <= s.segment.dlc && s.segment.dlc - 1 <= s.written <= |s.data|
    && var n := s.segment.dlc - 1;
       && s.segment.data[0] == SegmentCommand(s.useTg1, 7 - n, s.written >= c.size)
       && s.segment.data[1..n + 1] == s.data[s.written - n..s.written]
  }

  /** The data phase of a write in step with the server: at most one frame is under way, and the
      server, which downloads to `key`, stands where the transfer stands. */
  predicate DownData(c: Config, s: SdoState, l: Link, key: Key) {
    || Quiet(l)
    || (l.toServer == [s.segment] && l.toClient == [] && LastSegment(c, s)
        && l.server.phase == Download(key, c.size, s.data[..s.written - (s.segment.dlc - 1)], s.useTg1))
    || (l.toServer == [] && l.toClient == [WriteSegmentConf(c, s.useTg1)] && s.written <= |s.data|
        && if s.written < c.size
           then l.server.phase == Download(key, c.size, s.data[..s.written], !s.useTg1)
           else key in l.server.objects && l.server.objects[key] == s.data)
  }

  /** The data phase of a write that no frame can complete any more. */
  predicate Stuck(c: Config, s: SdoState, l: Link) {
    AllMayFollow(c, false, l.toServer) && WriteSegmentConf(c, s.useTg1) !in l.toClient
  }

  /** The segment sent last is under way to the server, which stands where the transfer stands or
      will not store it. Ahead of the first segment there may be what may follow the request. */
  predicate SegmentUnderWay(c: Config, s: SdoState, l: Link) {
    var n := |l.toServer|;
    && n > 0 && l.toServer[n - 1] == s.segment && LastSegment(c, s)
    && AllMayFollow(c, false, l.toServer[..n - 1])
    && (n > 1 ==> s.written == s.segment.dlc - 1 && !s.useTg1)
    && WriteSegmentConf(c, s.useTg1) !in l.toClient
    && Fits(c, l.server.phase, s.data[..s.written - (s.segment.dlc - 1)], s.useTg1)
  }

  /** The confirmation of the segment sent last is under way to the client, behind what may be
      ahead of it; that of the last segment means that the object is stored. */
  predicate AnswerUnderWay(c: Config, s: SdoState, l: Link) {
    var m := |l.toClient|;
    && m > 0 && l.toClient[m - 1] == WriteSegmentConf(c, s.useTg1)
    && WriteSegmentConf(c, s.useTg1) !in l.toClient[..m - 1]
    && l.toServer == [] && s.written <= |s.data|
    && if s.written < c.size then Fits(c, l.server.phase, s.data[..s.written], !s.useTg1)
       else KeyOfConfig(c) in l.server.objects && l.server.objects[KeyOfConfig(c)] == s.data
  }

  predicate DownSafe(c: Config, s: SdoState, l: Link) {
    Stuck(c, s, l) || SegmentUnderWay(c, s, l) || AnswerUnderWay(c, s, l)
  }

  predicate DownLinked(c: Config, s: SdoState, l: Link) {
    && s.readState == ReadIdle && s.data == l.snapshot
    && match s.writeState
       case WriteIdle => false
       case WriteWaitForConf => Awaiting(c, false, l)
       case WriteData => DownSafe(c, s, l)
  }

  /** What the server has still to send. */
  function StillToSend(v: Server): seq<byte> {
    if v.phase.Upload? then v.phase.rest else []
  }

  /** The data phase of a read: the bytes received, the segment under way and the rest at the
      server make up `whole`. */
  predicate UpData(c: Config, s: SdoState, l: Link, whole: seq<byte>) {
    && |whole| == c.size && s.received <= |s.temp|
    && (|| Quiet(l)
        || (l.toServer == [ReadSegmentReq(c, !s.useTg1)] && l.toClient == []
            && l.server.phase.Upload? && l.server.phase.toggle == !s.useTg1
            && (s.received < c.size || c.size == 0)
            && s.temp[..s.received] + l.server.phase.rest == whole)
        || (l.toServer == [] && |l.toClient| == 1 && l.toClient[0].id == c.cobIdTx && l.toClient[0].dlc > 0
            && (l.server.phase.Upload? ==> l.server.phase.toggle == s.useTg1 && l.server.phase.rest != [])
            && s.temp[..s.received] + Payload(l.toClient[0]) + StillToSend(l.server) == whole))
  }

  predicate UpLinked(c: Config, s: SdoState, l: Link) {
    && s.writeState == WriteIdle && !s.writePending
    && match s.readState
       case ReadIdle => false
       case ReadWaitForConf => s.received == 0 && Awaiting(c, false, l)
       case ReadWaitForData => Has(c, l.server) && UpData(c, s, l, l.server.objects[KeyOfConfig(c)])
  }

  /** A reply that is too short for anything but a data segment, or a segment of fewer than seven
      bytes; such are all segments of a small object. */
  predicate Short(c: Config, f: CanFrame) {
    f.id == c.cobIdTx && f.dlc < 8
  }

  /** The bytes in short replies, in their order. */
  function Bytes(c: Config, fs: seq<CanFrame>): seq<byte> {
    if fs == [] then [] else (if Short(c, fs[0]) then Payload(fs[0]) else []) + Bytes(c, fs[1..])
  }

  /** The bytes received, those under way and those still at the server. */
  function Supply(c: Config, s: SdoState, l: Link): seq<byte>
    requires s.received <= |s.temp|
  {
    s.temp[..s.received] + Bytes(c, l.toClient) + StillToSend(l.server)
  }

  /** Once only requests for segments are under way, what can still come is the object, or too
      little to complete the read. */
  predicate Supplied(c: Config, s: SdoState, l: Link) {
    && Has(c, l.server) && s.received <= |s.temp|
    && (Supply(c, s, l) == l.server.objects[KeyOfConfig(c)] || |Supply(c, s, l)| < c.size)
  }

  predicate SegmentRequestsLast(c: Config, fs: seq<CanFrame>) {
    && (forall k :: 0 <= k < |fs| ==> RequestsSegment(c, fs[k]) || MayFollow(c, true, fs[k]))
    && (forall i, j :: 0 <= i < j < |fs| && RequestsSegment(c, fs[i]) ==> RequestsSegment(c, fs[j]))
  }

  predicate NoConfirmationBehind(c: Config, fs: seq<CanFrame>) {
    forall i, j :: 0 <= i < j < |fs| && Short(c, fs[i]) ==> fs[j] != Confirmation(c)
  }

  /** The data phase of a repeated read of a small object: the repetitions under way make the server
      start anew, then it takes the requests for segments. */
  predicate UpAgain(c: Config, s: SdoState, l: Link) {
    && s.received < c.size && SegmentRequestsLast(c, l.toServer) && NoConfirmationBehind(c, l.toClient)
    && if l.toServer != [] && !RequestsSegment(c, l.toServer[0])
       then s.received == 0 && Accepting(c, true, l.server) && forall f :: f in l.toClient ==> !Short(c, f)
       else Supplied(c, s, l)
  }

  predicate AgainLinked(c: Config, s: SdoState, l: Link) {
    && 0 < c.size < 7 && s.writeState == WriteIdle && !s.writePending
    && match s.readState
       case ReadIdle => false
       case ReadWaitForConf => s.received == 0 && Awaiting(c, true, l)
       case ReadWaitForData => UpAgain(c, s, l)
  }

  predicate Linked(c: Config, s: SdoState, l: Link, again: bool) {
    if c.rw == Write then DownLinked(c, s, l) else if again then AgainLinked(c, s, l) else UpLinked(c, s, l)
  }

  /** What a completed transfer has achieved. */
  predicate Delivered(c: Config, s: SdoState, l: Link) {
    && KeyOfConfig(c) in l.server.objects
    && l.server.objects[KeyOfConfig(c)] == s.data
    && (c.rw == Write ==> s.data == l.snapshot)
  }

  function Without(fs: seq<CanFrame>, i: nat): (r: seq<CanFrame>)
    requires i < |fs|
    ensures |r| == |fs| - 1
    ensures forall k :: 0 <= k < |r| ==> r[k] == fs[if k < i then k else k + 1]
  {
    fs[..i] + fs[i + 1..]
  }

  // ---- fewer frames under way ---------------------------------------------------------------

  /** `gs` is what is left of `fs`; `at` says where it was. */
  ghost predicate Rest(fs: seq<CanFrame>, gs: seq<CanFrame>, at: int -> int) {
    && (forall k :: 0 <= k < |gs| ==> 0 <= at(k) < |fs| && gs[k] == fs[at(k)])
    && (forall i, j :: 0 <= i < j < |gs| ==> at(i) < at(j))
  }

  lemma FewerRepliesAwait(c: Config, again: bool, l: Link, replies: seq<CanFrame>, at: int -> int)
    requires Awaiting(c, again, l) && Rest(l.toClient, replies, at)
    ensures Awaiting(c, again, l.(toClient := replies))
  {
    hide Accepting, Opens, MayFollow, Confirmation, ReplyMayFollow;
    forall i, j | 0 <= i < j < |replies| && replies[i] == Confirmation(c)
      ensures ReplyMayFollow(c, again, replies[j])
    {
      assert l.toClient[at(i)] == Confirmation(c) && at(i) < at(j);
    }
    if k :| 0 <= k < |replies| && replies[k] == Confirmation(c) {
      assert l.toClient[at(k)] == Confirmation(c);
    }
  }

  lemma FewerRequestsAwait(c: Config, again: bool, l: Link, requests: seq<CanFrame>, at: int -> int)
    requires Awaiting(c, again, l) && Rest(l.toServer, requests, at)
    ensures Awaiting(c, again, l.(toServer := requests))
  {
    hide Accepting, Opens, MayFollow, Confirmation, RepliesOrdered;
    forall i, j | 0 <= i < j < |requests| && Opens(c, requests[i])
      ensures MayFollow(c, again, requests[j])
    {
      assert Opens(c, l.toServer[at(i)]) && at(i) < at(j);
    }
    if AllMayFollow(c, again, l.toServer) {
      forall k | 0 <= k < |requests|
        ensures MayFollow(c, again, requests[k])
      {
        assert MayFollow(c, again, l.toServer[at(k)]);
      }
    }
  }

  // ---- the server takes a frame ------------------------------------------------------------

  /** The link after the server has taken the next frame: a frame with its identifier is answered,
      any other is ignored. */
  function Served(l: Link, cut: nat): Link
    requires l.toServer != []
  {
    if l.toServer[0].id != l.server.rxId then l.(toServer := l.toServer[1..])
    else
      var r := Serve(l.server, l.toServer[0], cut);
      l.(toServer := l.toServer[1..], toClient := l.toClient + [r.1], server := r.0)
  }

  /** An ignored frame is as good as lost. */
  lemma IgnoredIsLost(l: Link, cut: nat)
    requires l.toServer != [] && l.toServer[0].id != l.server.rxId
    ensures Served(l, cut) == l.(toServer := Without(l.toServer, 0))
  {
    assert Without(l.toServer, 0) == l.toServer[1..];
  }

  /** The confirmation answers nothing but a request of the SDO's own object and direction. */
  lemma ConfirmationAnswers(c: Config, again: bool, v: Server, f: CanFrame, cut: nat)
    requires Serve(v, f, cut).1 == Confirmation(c) && f.id == c.cobIdRx
    ensures Opens(c, f) && Accepting(c, again, Serve(v, f, cut).0)
  {
    hide KeyOf;
    var r := Serve(v, f, cut).1;
    if c.rw == Write {
      OpeningBytes(c, WriteConf(c), c.cobIdTx, 0x60, Zeros(4));
    } else {
      OpeningBytes(c, ReadConf(c), c.cobIdTx, 0x41, Le32(c.size));
      if KeyOf(f) in v.objects {
        assert Reply(v, 0x41, f, Le32(|v.objects[KeyOf(f)]|)).data[4..8] == Le32(|v.objects[KeyOf(f)]|);
        Le32RoundTrip(|v.objects[KeyOf(f)]|);
        Le32RoundTrip(c.size);
      }
    }
    assert r.data[1..4] == f.data[1..4];
    KeyIsInBytes(f, r);
  }

  /** A frame that carries no segment gets no confirmation of one, and if it may follow it leaves
      the server where it cannot store a segment of this write under another key. */
  lemma ServesFollower(c: Config, v: Server, f: CanFrame, cut: nat)
    requires !CarriesSegment(c, f) && f.id == c.cobIdRx
    ensures forall toggle :: Serve(v, f, cut).1 != WriteSegmentConf(c, toggle)
    ensures MayFollow(c, false, f) && c.rw == Write && Fits(c, v.phase, [], false) ==>
              Fits(c, Serve(v, f, cut).0.phase, [], false)
  {
    var r := Serve(v, f, cut);
    assert r.1.data[0] < 32 || r.1.data[0] > 48;
  }

  /** The server takes the request of the SDO. */
  lemma ServesOpening(c: Config, v: Server, cut: nat)
    requires Connected(c, v)
    ensures var r := Serve(v, Opening(c), cut);
            && (r.1 == Confirmation(c) <==> c.rw == Write || Has(c, v))
            && (r.1 == Confirmation(c) ==> ServerOpened(c, r.0))
            && r.0.objects == v.objects && r.0.txId == v.txId && r.1.id == c.cobIdTx
  {
    if c.rw == Write {
      ServesWriteRequest(c, v, cut);
    } else {
      ServesReadRequest(c, v, cut);
    }
  }

  lemma FollowerAccepted(c: Config, again: bool, v: Server, f: CanFrame, cut: nat)
    requires MayFollow(c, again, f) && Accepting(c, again, v) && f.id == c.cobIdRx
    ensures Accepting(c, again, Serve(v, f, cut).0) && ReplyMayFollow(c, again, Serve(v, f, cut).1)
    ensures c.rw == Read ==> Serve(v, f, cut).1.dlc == 8
  {
    ServesFollower(c, v, f, cut);
  }

  lemma ServeAwaiting(c: Config, again: bool, l: Link, cut: nat)
    requires Awaiting(c, again, l) && l.toServer != [] && Connected(c, l.server)
    ensures Awaiting(c, again, Served(l, cut))
  {
    hide Serve, Opens, Confirmation, Accepting, MayFollow, ReplyMayFollow;
    var f := l.toServer[0];
    if f.id != c.cobIdRx {
      FewerRequestsAwait(c, again, l, l.toServer[1..], i => i + 1);
      return;
    }
    var r := Serve(l.server, f, cut);
    if Confirmation(c) in l.toClient {
      assert MayFollow(c, again, f);
      FollowerAccepted(c, again, l.server, f, cut);
    } else if r.1 == Confirmation(c) {
      ConfirmationAnswers(c, again, l.server, f, cut);
    }
  }

  /** The server takes the segment it expects: it confirms, and the last one stores the object. */
  lemma ServesSegment(c: Config, s: SdoState, v: Server, key: Key, cut: nat)
    requires Shaped(c, s) && LastSegment(c, s) && Connected(c, v)
    requires v.phase == Download(key, c.size, s.data[..s.written - (s.segment.dlc - 1)], s.useTg1)
    ensures Serve(v, s.segment, cut) ==
            (if s.written < c.size
             then v.(phase := Download(key, c.size, s.data[..s.written], !s.useTg1))
             else v.(phase := Idle, objects := v.objects[key := s.data]),
             WriteSegmentConf(c, s.useTg1))
  {
    var n := s.segment.dlc - 1;
    CommandBits(s.useTg1, 7 - n, s.written >= c.size, s.segment);
    assert s.data[..s.written] == s.data[..s.written - n] + s.data[s.written - n..s.written];
    if s.written >= c.size {
      assert s.data[..s.written] == s.data;
    }
  }

  lemma ServeDownData(c: Config, s: SdoState, l: Link, key: Key, cut: nat)
    requires Shaped(c, s) && DownData(c, s, l, key) && Connected(c, l.server) && l.toServer != []
    ensures DownData(c, s, Served(l, cut), key)
    ensures forall k :: k in Served(l, cut).server.objects && k != key ==> k in l.server.objects
  {
    ServesSegment(c, s, l.server, key, cut);
  }

  /** A segment is confirmed only by a download with its toggle, which it continues or completes. */
  lemma ConfirmsSegment(c: Config, v: Server, f: CanFrame, cut: nat, toggle: bool)
    requires f.data[0] / 32 == 0 && Serve(v, f, cut).1 == WriteSegmentConf(c, toggle)
    ensures var r := Serve(v, f, cut).0;
            && v.phase.Download? && ToggleBit(f) == v.phase.toggle
            && var got := v.phase.got + f.data[1..8 - UnusedBits(f)];
               if !LastBit(f) then r == v.(phase := v.phase.(got := got, toggle := !v.phase.toggle))
               else |got| == v.phase.size && |got| < 0x1_0000_0000
                    && r == v.(phase := Idle, objects := v.objects[v.phase.key := got])
  {
    assert Serve(v, f, cut).1.data[0] < 0x80;
  }

  /** The server takes a segment that fits: it confirms it and still fits, it has stored the
      object under the right key, or it refuses. */
  lemma ServesFittingSegment(c: Config, s: SdoState, v: Server, cut: nat)
    requires Shaped(c, s) && LastSegment(c, s) && Connected(c, v)
    requires Fits(c, v.phase, s.data[..s.written - (s.segment.dlc - 1)], s.useTg1)
    ensures var r := Serve(v, s.segment, cut);
            r.1 == WriteSegmentConf(c, s.useTg1) ==>
              if s.written < c.size then Fits(c, r.0.phase, s.data[..s.written], !s.useTg1)
              else KeyOfConfig(c) in r.0.objects && r.0.objects[KeyOfConfig(c)] == s.data
  {
    hide Serve, WriteSegmentConf;
    var n := s.segment.dlc - 1;
    CommandBits(s.useTg1, 7 - n, s.written >= c.size, s.segment);
    if Serve(v, s.segment, cut).1 == WriteSegmentConf(c, s.useTg1) {
      ConfirmsSegment(c, v, s.segment, cut, s.useTg1);
      assert s.data[..s.written] == s.data[..s.written - n] + s.data[s.written - n..s.written];
      if s.written >= c.size {
        assert s.data[..s.written] == s.data;
      }
    }
  }

  lemma ServeDownSafe(c: Config, s: SdoState, l: Link, cut: nat)
    requires Shaped(c, s) && DownSafe(c, s, l) && Connected(c, l.server) && l.toServer != []
    ensures DownSafe(c, s, Served(l, cut))
  {
    hide Serve, Fits, CarriesSegment, StartsElsewhere, LastSegment, WriteSegmentConf;
    var n, f := |l.toServer|, l.toServer[0];
    if f.id != c.cobIdRx {
      IgnoredIsLost(l, cut);
      RequestLossKeepsDownSafe(c, s, l, 0);
      return;
    }
    var r := Serve(l.server, f, cut);
    var l' := Served(l, cut);
    if Stuck(c, s, l) {
      ServesFollower(c, l.server, f, cut);
      assert Stuck(c, s, l');
    } else if n > 1 {
      assert MayFollow(c, false, l.toServer[..n - 1][0]);
      ServesFollower(c, l.server, f, cut);
      FirstSegmentHasNothingBefore(s);
      assert l'.toServer[..n - 2] == l.toServer[..n - 1][1..];
      assert SegmentUnderWay(c, s, l');
    } else {
      SegmentHasBytes(c, s);
      ServesFittingSegment(c, s, l.server, cut);
      assert l'.toServer == [] && l'.toClient[..|l.toClient|] == l.toClient;
      if r.1 == WriteSegmentConf(c, s.useTg1) {
        assert AnswerUnderWay(c, s, l');
      } else {
        assert Stuck(c, s, l');
      }
    }
  }

  lemma SegmentHasBytes(c: Config, s: SdoState)
    requires LastSegment(c, s)
    ensures s.segment.dlc - 1 <= s.written <= |s.data|
  {
  }

  lemma FirstSegmentHasNothingBefore(s: SdoState)
    ensures s.written == s.segment.dlc - 1 && |s.data| > 0 ==> s.data[..s.written - (s.segment.dlc - 1)] == []
  {
  }

  lemma ServeDownload(c: Config, s: SdoState, l: Link, cut: nat)
    requires Shaped(c, s) && c.rw == Write && DownLinked(c, s, l) && Connected(c, l.server)
    requires l.toServer != []
    ensures DownLinked(c, s, Served(l, cut))
  {
    hide Serve, Awaiting, DownSafe;
    if s.writeState == WriteWaitForConf {
      ServeAwaiting(c, false, l, cut);
    } else {
      ServeDownSafe(c, s, l, cut);
    }
  }

  lemma ServeUpData(c: Config, s: SdoState, l: Link, whole: seq<byte>, cut: nat)
    requires Shaped(c, s) && UpData(c, s, l, whole) && Connected(c, l.server) && l.toServer != []
    ensures UpData(c, s, Served(l, cut), whole) && Served(l, cut).server.objects == l.server.objects
  {
    ServesSegmentRequest(c, l.server, !s.useTg1, cut);
    var rest := l.server.phase.rest;
    var n := CutLength(|rest|, cut);
    var r := ServeUploadSegment(l.server, l.toServer[0], cut);
    assert r.1.data[1..n + 1] == rest[..n];
    assert Payload(r.1) == rest[..n];
    assert rest == rest[..n] + rest[n..];
    assert StillToSend(r.0) == rest[n..];
    assert s.temp[..s.received] + Payload(r.1) + rest[n..] == whole;
  }

  lemma ServeUpload(c: Config, s: SdoState, l: Link, cut: nat)
    requires Shaped(c, s) && c.rw == Read && UpLinked(c, s, l) && Connected(c, l.server)
    requires l.toServer != []
    ensures UpLinked(c, s, Served(l, cut))
    ensures s.readState == ReadWaitForData ==> Served(l, cut).server.objects == l.server.objects
  {
    hide Serve, Awaiting, UpData;
    if s.readState == ReadWaitForConf {
      ServeAwaiting(c, false, l, cut);
    } else {
      ServeUpData(c, s, l, l.server.objects[KeyOfConfig(c)], cut);
    }
  }

  // ---- the client takes a frame --------------------------------------------------------------

  /** The link after the client has taken the next frame and sent its answer. */
  function Taken(l: Link, sent: seq<CanFrame>): Link
    requires l.toClient != []
  {
    l.(toServer := l.toServer + sent, toClient := l.toClient[1..])
  }

  lemma NextSegmentIsLast(c: Config, s: SdoState, lock: bool)
    requires Shaped(c, s) && s.written < c.size
    ensures var r := WriteNext(c, s, s.useTg1, lock);
            && r.lock == lock && r.sent == [r.sdo.segment] && LastSegment(c, r.sdo)
            && r.sdo.written - (r.sdo.segment.dlc - 1) == s.written
            && r.sdo == s.(segment := r.sdo.segment, written := r.sdo.written)
            && (r.sdo.written == s.written + 7 || r.sdo.written == c.size)
  {
    hide SegmentFrame;
  }

  /** What is ahead of the confirmation changes nothing. */
  lemma DeliverOld(c: Config, again: bool, s: SdoState, l: Link)
    requires Sound(c, s) && s.busy && Awaiting(c, again, l) && l.toClient != [] && l.toClient[0] != Confirmation(c)
    requires if c.rw == Write then s.writeState == WriteWaitForConf else s.readState == ReadWaitForConf
    ensures var r := Receive(c, s, true, l.toClient[0]);
            && r.sent == [] && r.lock && r.sdo.busy && Awaiting(c, again, Taken(l, []))
            && r.sdo == (if c.rw == Write && l.toClient[0].id == c.cobIdTx then s.(written := 0, useTg1 := false)
                         else s)
  {
    hide Accepting, Opens, MayFollow;
    FewerRepliesAwait(c, again, l, l.toClient[1..], i => i + 1);
    assert l.toServer + [] == l.toServer;
  }

  lemma NothingFollowsRead(c: Config, fs: seq<CanFrame>)
    requires c.rw == Read
    ensures AllMayFollow(c, false, fs) <==> fs == []
  {
    assert fs != [] ==> !MayFollow(c, false, fs[0]);
  }

  lemma NoReplyFollowsRead(c: Config, fs: seq<CanFrame>)
    requires c.rw == Read && fs != [] && fs[0] == ReadConf(c)
    ensures RepliesOrdered(c, false, fs) ==> fs == [ReadConf(c)]
  {
    hide ReadConf;
    var second := if |fs| > 1 then fs[1] else fs[0];
    assert second in fs;
  }

  lemma ReadConfIsAlone(c: Config, l: Link)
    requires c.rw == Read && Awaiting(c, false, l) && l.toClient != [] && l.toClient[0] == ReadConf(c)
    ensures l.toServer == [] && l.toClient == [ReadConf(c)] && ServerOpened(c, l.server)
  {
    hide ServerOpened, AllMayFollow, RepliesOrdered, ReadConf;
    NothingFollowsRead(c, l.toServer);
    NoReplyFollowsRead(c, l.toClient);
  }

  /** What the client does when it takes the confirmation. */
  lemma FirstTaken(c: Config, s: SdoState)
    requires Sound(c, s) && s.busy && c.rw == Write && s.writeState == WriteWaitForConf
    ensures var r := Receive(c, s, true, WriteConf(c));
            && r.lock && r.sdo.busy && r.sdo.writeState == WriteData && r.sdo.data == s.data
            && r.sdo.readState == s.readState && !r.sdo.useTg1
            && (if c.size > 0 then && r.sent == [r.sdo.segment] && LastSegment(c, r.sdo)
                                   && r.sdo.written == r.sdo.segment.dlc - 1
                                   && (r.sdo.written == 7 || r.sdo.written == c.size)
                else r.sent == [])
  {
    hide SegmentFrame;
    if c.size > 0 {
      NextSegmentIsLast(c, s.(written := 0, useTg1 := false), true);
    }
  }

  /** The confirmation opens the data phase, whatever may follow the request. */
  lemma DeliverConfirmation(c: Config, s: SdoState, l: Link)
    requires Sound(c, s) && s.busy && c.rw == Write && s.writeState == WriteWaitForConf
    requires Awaiting(c, false, l) && l.toClient != [] && l.toClient[0] == WriteConf(c)
    ensures var r := Receive(c, s, true, WriteConf(c));
            && r.sdo.busy && r.sdo.writeState == WriteData && r.sdo.data == s.data
            && r.sdo.readState == s.readState && DownSafe(c, r.sdo, Taken(l, r.sent))
  {
    hide Opens, MayFollow, Fits, WriteConf, WriteSegmentConf, LastSegment, WriteNext;
    FirstTaken(c, s);
    var r := Receive(c, s, true, WriteConf(c));
    var l' := Taken(l, r.sent);
    assert l.toClient[0] == Confirmation(c);
    assert forall j :: 0 < j < |l.toClient| ==> l.toClient[j] != WriteSegmentConf(c, false);
    if c.size > 0 {
      SegmentHasBytes(c, r.sdo);
      assert r.sdo.data[..r.sdo.written - (r.sdo.segment.dlc - 1)] == [];
      assert l'.toServer[..|l.toServer|] == l.toServer;
      assert SegmentUnderWay(c, r.sdo, l');
    } else {
      assert l'.toServer == l.toServer;
      assert Stuck(c, r.sdo, l');
    }
  }

  /** The awaited confirmation brings the next segment or the end, anything else nothing. */
  lemma DeliverDownSafe(c: Config, s: SdoState, l: Link)
    requires Sound(c, s) && s.busy && c.rw == Write && s.writeState == WriteData && DownSafe(c, s, l)
    requires l.toClient != []
    ensures var r := Receive(c, s, true, l.toClient[0]);
            && r.sdo.data == s.data && r.sdo.readState == s.readState
            && if r.sdo.busy then r.sdo.writeState == WriteData && DownSafe(c, r.sdo, Taken(l, r.sent))
               else Quiet(Taken(l, r.sent))
                    && KeyOfConfig(c) in l.server.objects && l.server.objects[KeyOfConfig(c)] == s.data
  {
    hide Fits, MayFollow;
    var f, m := l.toClient[0], |l.toClient|;
    if f == WriteSegmentConf(c, s.useTg1) {
      assert AnswerUnderWay(c, s, l) && f !in l.toClient[..m - 1];
      if s.written < c.size {
        NextSegmentIsLast(c, s.(useTg1 := !s.useTg1), true);
        var r := Receive(c, s, true, f);
        assert SegmentUnderWay(c, r.sdo, Taken(l, r.sent));
      }
    } else {
      DeliverOtherReply(c, s, l);
    }
  }

  lemma DeliverOtherReply(c: Config, s: SdoState, l: Link)
    requires s.busy && c.rw == Write && s.writeState == WriteData && DownSafe(c, s, l)
    requires l.toClient != [] && l.toClient[0] != WriteSegmentConf(c, s.useTg1) && Shaped(c, s)
    ensures Receive(c, s, true, l.toClient[0]) == Outcome(s, true, []) && DownSafe(c, s, Taken(l, []))
  {
    hide Fits, MayFollow, LastSegment, WriteSegmentConf;
    var l', m := Taken(l, []), |l.toClient|;
    assert l'.toServer == l.toServer;
    if m > 1 {
      assert l'.toClient[..m - 2] == l.toClient[..m - 1][1..];
    }
  }

  /** The confirmation opens the data phase. */
  lemma DeliverWriteConf(c: Config, s: SdoState, l: Link, key: Key)
    requires Sound(c, s) && s.busy && c.rw == Write && s.writeState == WriteWaitForConf && l.toServer == []
    requires l.toClient == [WriteConf(c)] && l.server.phase == Download(key, c.size, [], false)
    ensures var r := Receive(c, s, true, WriteConf(c));
            && r.lock && r.sdo.busy && r.sdo.writeState == WriteData && r.sdo.data == s.data
            && r.sdo.readState == s.readState && DownData(c, r.sdo, Taken(l, r.sent), key)
            && r.sent == (if c.size > 0 then [r.sdo.segment] else [])
  {
    hide WriteNext, SegmentFrame;
    FirstTaken(c, s);
    assert s.data[..0] == [];
  }

  lemma DeliverDownData(c: Config, s: SdoState, l: Link, key: Key)
    requires Sound(c, s) && s.busy && c.rw == Write && s.writeState == WriteData && DownData(c, s, l, key)
    requires l.toClient != []
    ensures var r := Receive(c, s, true, l.toClient[0]);
            && r.sdo.data == s.data && r.sdo.readState == s.readState
            && if r.sdo.busy then r.sdo.writeState == WriteData && DownData(c, r.sdo, Taken(l, r.sent), key)
               else Quiet(Taken(l, r.sent)) && key in l.server.objects && l.server.objects[key] == s.data
  {
    if s.written < c.size {
      NextSegmentIsLast(c, s.(useTg1 := !s.useTg1), true);
    }
  }

  lemma DeliverDownload(c: Config, s: SdoState, l: Link)
    requires Sound(c, s) && s.busy && c.rw == Write && DownLinked(c, s, l) && l.toClient != []
    ensures var r := Receive(c, s, true, l.toClient[0]);
            var l' := Taken(l, r.sent);
            if r.sdo.busy then DownLinked(c, r.sdo, l') else Quiet(l') && Delivered(c, r.sdo, l')
  {
    hide Receive, Awaiting, DownSafe;
    if s.writeState == WriteData {
      DeliverDownSafe(c, s, l);
    } else if l.toClient[0] == Confirmation(c) {
      DeliverConfirmation(c, s, l);
    } else {
      DeliverOld(c, false, s, l);
    }
  }

  lemma DeliverReadConf(c: Config, s: SdoState, l: Link, whole: seq<byte>)
    requires Sound(c, s) && s.busy && c.rw == Read && s.readState == ReadWaitForConf && s.received == 0
    requires l.toServer == [] && l.toClient == [ReadConf(c)] && l.server.phase == Upload(whole, false)
    requires |whole| == c.size
    ensures var r := Receive(c, s, true, ReadConf(c));
            && r.lock && r.sdo.busy && r.sent == [ReadSegmentReq(c, false)]
            && r.sdo == s.(readState := ReadWaitForData, useTg1 := true)
            && UpData(c, r.sdo, Taken(l, r.sent), whole)
  {
    assert s.temp[..0] + whole == whole;
  }

  lemma DeliverUpData(c: Config, s: SdoState, l: Link, whole: seq<byte>)
    requires Sound(c, s) && s.busy && c.rw == Read && s.readState == ReadWaitForData && UpData(c, s, l, whole)
    requires l.toClient != []
    ensures var r := Receive(c, s, true, l.toClient[0]);
            && r.sdo.writePending == s.writePending && r.sdo.writeState == s.writeState
            && if r.sdo.busy then r.sdo.readState == ReadWaitForData && UpData(c, r.sdo, Taken(l, r.sent), whole)
               else Quiet(Taken(l, r.sent)) && r.sdo.data == whole
  {
    var f := l.toClient[0];
    var rest := StillToSend(l.server);
    CollectExtends(c, s, f);
    var t := Collect(c, s, f);
    assert |s.temp[..s.received] + Payload(f) + rest| == c.size;
    assert t.temp[..t.received] + rest == whole;
    if t.received >= c.size {
      assert rest == [] && t.temp == whole;
    }
  }

  lemma DeliverUpload(c: Config, s: SdoState, l: Link)
    requires Sound(c, s) && s.busy && c.rw == Read && UpLinked(c, s, l) && l.toClient != []
    ensures var r := Receive(c, s, true, l.toClient[0]);
            var l' := Taken(l, r.sent);
            if r.sdo.busy then UpLinked(c, r.sdo, l') else Quiet(l') && Delivered(c, r.sdo, l')
  {
    hide Receive, Awaiting, UpData;
    if s.readState == ReadWaitForData {
      DeliverUpData(c, s, l, l.server.objects[KeyOfConfig(c)]);
    } else if l.toClient[0] == Confirmation(c) {
      ReadConfIsAlone(c, l);
      DeliverReadConf(c, s, l, l.server.objects[KeyOfConfig(c)]);
    } else {
      DeliverOld(c, false, s, l);
    }
  }

  // ---- a repeated read ------------------------------------------------------------------------

  lemma {:induction false} BytesOfConcat(c: Config, fs: seq<CanFrame>, f: CanFrame)
    ensures Bytes(c, fs + [f]) == Bytes(c, fs) + (if Short(c, f) then Payload(f) else [])
  {
    hide Payload;
    if fs == [] {
      assert (fs + [f])[1..] == [];
    } else {
      assert (fs + [f])[1..] == fs[1..] + [f];
      BytesOfConcat(c, fs[1..], f);
    }
  }

  lemma {:induction false} BytesOfLong(c: Config, fs: seq<CanFrame>)
    requires forall f :: f in fs ==> !Short(c, f)
    ensures Bytes(c, fs) == []
  {
    hide Payload, Short;
    if fs != [] {
      BytesOfLong(c, fs[1..]);
    }
  }

  lemma {:induction false} BytesOfFewer(c: Config, fs: seq<CanFrame>, i: nat)
    requires i < |fs|
    ensures Bytes(c, Without(fs, i)) == Bytes(c, fs) || |Bytes(c, Without(fs, i))| < |Bytes(c, fs)|
    decreases i
  {
    hide Payload, Short;
    var gs := Without(fs, i);
    if i == 0 {
      assert gs == fs[1..];
    } else {
      assert gs[0] == fs[0] && gs[1..] == Without(fs[1..], i - 1);
      BytesOfFewer(c, fs[1..], i - 1);
    }
  }

  /** The server takes a request for a segment: it sends the next bytes of what it has left, or it
      drops them. */
  lemma ServesRequestForSegment(c: Config, v: Server, f: CanFrame, cut: nat)
    requires c.rw == Read && RequestsSegment(c, f) && |StillToSend(v)| < 7 && Connected(c, v)
    ensures var r := Serve(v, f, cut);
            && r.0.objects == v.objects && r.0.txId == v.txId && r.1 != Confirmation(c)
            && if Short(c, r.1) then Payload(r.1) + StillToSend(r.0) == StillToSend(v)
               else StillToSend(r.0) == []
  {
    var r := Serve(v, f, cut);
    if v.phase.Upload? && ToggleBit(f) == v.phase.toggle {
      var rest := v.phase.rest;
      var n := CutLength(|rest|, cut);
      assert r.1.data[1..n + 1] == rest[..n];
      assert rest == rest[..n] + rest[n..];
    }
    assert r.1.data[0] < 32 || r.1.data[0] == 0x80;
    assert ReadConf(c).data[0] == 0x41;
  }

  lemma ServeAgainRequest(c: Config, s: SdoState, l: Link, cut: nat)
    requires Shaped(c, s) && UpAgain(c, s, l) && c.size < 7 && Connected(c, l.server)
    requires c.rw == Read && l.toServer != [] && RequestsSegment(c, l.toServer[0]) && l.toServer[0].id == c.cobIdRx
    ensures UpAgain(c, s, Served(l, cut))
  {
    hide Serve, Payload, Short, RequestsSegment, MayFollow, Has, Confirmation, Accepting, StillToSend, Bytes;
    var l' := Served(l, cut);
    var r := Serve(l.server, l.toServer[0], cut);
    HasSize(c, l.server);
    ServesRequestForSegment(c, l.server, l.toServer[0], cut);
    BytesOfConcat(c, l.toClient, r.1);
    HasDepends(c, l.server, r.0);
    var a, b := s.temp[..s.received], Bytes(c, l.toClient);
    Regroup(a, Payload(r.1), b, StillToSend(r.0));
    assert Supply(c, s, l') == (if Short(c, r.1) then Supply(c, s, l) else a + b);
  }

  lemma HasSize(c: Config, v: Server)
    requires Has(c, v)
    ensures KeyOfConfig(c) in v.objects && |v.objects[KeyOfConfig(c)]| == c.size
  {
  }

  lemma HasDepends(c: Config, v: Server, w: Server)
    requires v.objects == w.objects
    ensures Has(c, v) <==> Has(c, w)
  {
  }

  lemma ServeAgainOther(c: Config, s: SdoState, l: Link, cut: nat)
    requires Shaped(c, s) && UpAgain(c, s, l) && c.size < 7 && Connected(c, l.server)
    requires c.rw == Read && l.toServer != [] && !RequestsSegment(c, l.toServer[0]) && l.toServer[0].id == c.cobIdRx
    ensures UpAgain(c, s, Served(l, cut))
  {
    hide Serve, RequestsSegment, MayFollow, Confirmation, Accepting;
    var l', f := Served(l, cut), l.toServer[0];
    FollowerAccepted(c, true, l.server, f, cut);
    assert forall g :: g in l'.toClient ==> !Short(c, g);
    if l'.toServer == [] || RequestsSegment(c, l'.toServer[0]) {
      AcceptingSupplies(c, s, l');
    }
  }

  /** The server is about to send the object or nothing. */
  lemma AcceptingSupplies(c: Config, s: SdoState, l: Link)
    requires c.rw == Read && Accepting(c, true, l.server) && s.received == 0
    requires forall f :: f in l.toClient ==> !Short(c, f)
    ensures Supplied(c, s, l)
  {
    BytesOfLong(c, l.toClient);
    assert Supply(c, s, l) == StillToSend(l.server);
  }

  lemma ServeAgain(c: Config, s: SdoState, l: Link, cut: nat)
    requires Shaped(c, s) && c.rw == Read && AgainLinked(c, s, l) && Connected(c, l.server) && l.toServer != []
    ensures AgainLinked(c, s, Served(l, cut))
  {
    hide Serve, Awaiting, UpAgain;
    if s.readState == ReadWaitForConf {
      ServeAwaiting(c, true, l, cut);
    } else if l.toServer[0].id != c.cobIdRx {
      IgnoredIsLost(l, cut);
      RequestLossKeepsUpAgain(c, s, l, 0);
    } else if RequestsSegment(c, l.toServer[0]) {
      ServeAgainRequest(c, s, l, cut);
    } else {
      ServeAgainOther(c, s, l, cut);
    }
  }

  lemma DeliverConfirmationAgain(c: Config, s: SdoState, l: Link)
    requires Sound(c, s) && s.busy && c.rw == Read && s.readState == ReadWaitForConf && s.received == 0
    requires 0 < c.size < 7
    requires Awaiting(c, true, l) && l.toClient != [] && l.toClient[0] == ReadConf(c)
    ensures var r := Receive(c, s, true, ReadConf(c));
            && r.sdo == s.(readState := ReadWaitForData, useTg1 := true) && r.lock
            && UpAgain(c, r.sdo, Taken(l, r.sent))
  {
    hide MayFollow, Accepting, Short;
    var r := Receive(c, s, true, ReadConf(c));
    var l' := Taken(l, r.sent);
    assert l.toClient[0] == Confirmation(c);
    LongReplies(c, l.toClient);
    NoneRequestsSegment(c, l.toServer);
    assert RequestsSegment(c, ReadSegmentReq(c, false));
    if l.toServer == [] {
      AcceptingSupplies(c, r.sdo, l');
    }
  }

  lemma LongReplies(c: Config, fs: seq<CanFrame>)
    requires c.rw == Read && RepliesOrdered(c, true, fs) && fs != [] && fs[0] == Confirmation(c)
    ensures forall f :: f in fs[1..] ==> !Short(c, f)
  {
    hide Confirmation;
    assert forall j :: 0 < j < |fs| ==> ReplyMayFollow(c, true, fs[j]);
  }

  lemma NoneRequestsSegment(c: Config, fs: seq<CanFrame>)
    requires c.rw == Read && AllMayFollow(c, true, fs)
    ensures forall k :: 0 <= k < |fs| ==> !RequestsSegment(c, fs[k])
  {
    hide ReadsOther, CarriesSegment;
  }

  /** Nothing under way can start another transfer of the SDO. */
  predicate Resting(c: Config, l: Link) {
    && (forall k :: 0 <= k < |l.toServer| ==> RequestsSegment(c, l.toServer[k]))
    && Confirmation(c) !in l.toClient
  }

  /** A short reply that fits is appended, and with the last byte the read is complete. */
  lemma TakesShort(c: Config, s: SdoState, f: CanFrame)
    requires Sound(c, s) && s.busy && c.rw == Read && s.readState == ReadWaitForData && s.received < c.size
    requires Short(c, f) && s.received + |Payload(f)| <= c.size
    ensures var r := Receive(c, s, true, f);
            && r.sdo.writePending == s.writePending && r.sdo.writeState == s.writeState && Shaped(c, r.sdo)
            && r.sdo.temp[..r.sdo.received] == s.temp[..s.received] + Payload(f)
            && if r.sdo.received < c.size
               then && r.sdo.busy && r.sdo.readState == ReadWaitForData
                    && (r.sent == [ReadSegmentReq(c, false)] || r.sent == [ReadSegmentReq(c, true)])
               else !r.sdo.busy && r.sent == [] && r.sdo.data == s.temp[..s.received] + Payload(f)
  {
    hide ReadSegmentReq;
    CollectExtends(c, s, f);
  }

  lemma Regroup(a: seq<byte>, p: seq<byte>, b: seq<byte>, rest: seq<byte>)
    ensures (a + p) + b + rest == a + (p + b) + rest
    ensures a + (b + p) + rest == a + b + (p + rest)
  {
  }

  /** A short reply is a part of the object; when it is the last one the read has delivered. */
  lemma DeliverShort(c: Config, s: SdoState, l: Link)
    requires Sound(c, s) && s.busy && c.rw == Read && s.readState == ReadWaitForData
    requires UpAgain(c, s, l) && c.size < 7 && l.toClient != [] && Short(c, l.toClient[0])
    ensures var r := Receive(c, s, true, l.toClient[0]);
            && r.sdo.writePending == s.writePending && r.sdo.writeState == s.writeState
            && if r.sdo.busy then r.sdo.readState == ReadWaitForData && UpAgain(c, r.sdo, Taken(l, r.sent))
               else r.sdo.data == l.server.objects[KeyOfConfig(c)] && Resting(c, Taken(l, r.sent))
  {
    hide MayFollow, Confirmation, Receive, Payload, Short, Accepting, RequestsSegment, ReadSegmentReq;
    var f := l.toClient[0];
    assert f in l.toClient;
    var r := Receive(c, s, true, f);
    var a, b, rest := s.temp[..s.received], Bytes(c, l.toClient[1..]), StillToSend(l.server);
    Regroup(a, Payload(f), b, rest);
    assert Supply(c, s, l) == (a + Payload(f)) + b + rest;
    HasSize(c, l.server);
    TakesShort(c, s, f);
    AllRequestSegments(c, l.toServer);
    OneMoreRequest(c, l.toServer, r.sent);
    if r.sdo.received >= c.size {
      assert |b + rest| == 0 && Supply(c, s, l) == a + Payload(f);
    }
  }

  lemma AllRequestSegments(c: Config, fs: seq<CanFrame>)
    requires SegmentRequestsLast(c, fs) && (fs != [] ==> RequestsSegment(c, fs[0]))
    ensures forall k :: 0 <= k < |fs| ==> RequestsSegment(c, fs[k])
  {
    hide MayFollow;
  }

  /** Any other reply does not fit into a small object; the client just asks again. */
  lemma DeliverLong(c: Config, s: SdoState, l: Link)
    requires Sound(c, s) && s.busy && c.rw == Read && s.readState == ReadWaitForData && UpAgain(c, s, l) && c.size < 7
    requires l.toClient != [] && !Short(c, l.toClient[0])
    ensures var r := Receive(c, s, true, l.toClient[0]);
            && r.sdo.busy && r.sdo.writePending == s.writePending && r.sdo.writeState == s.writeState
            && r.sdo.readState == ReadWaitForData && UpAgain(c, r.sdo, Taken(l, r.sent))
  {
    hide MayFollow, Confirmation, Accepting;
    var r := Receive(c, s, true, l.toClient[0]);
    var l' := Taken(l, r.sent);
    assert r.sdo == s.(useTg1 := r.sdo.useTg1);
    OneMoreRequest(c, l.toServer, r.sent);
    if l.toServer == [] || RequestsSegment(c, l.toServer[0]) {
      assert Bytes(c, l.toClient) == Bytes(c, l.toClient[1..]);
    }
  }

  lemma OneMoreRequest(c: Config, fs: seq<CanFrame>, sent: seq<CanFrame>)
    requires SegmentRequestsLast(c, fs)
    requires sent == [] || sent == [ReadSegmentReq(c, false)] || sent == [ReadSegmentReq(c, true)]
    ensures SegmentRequestsLast(c, fs + sent)
    ensures fs == [] && sent != [] ==> RequestsSegment(c, (fs + sent)[0])
  {
    hide MayFollow;
    assert RequestsSegment(c, ReadSegmentReq(c, false)) && RequestsSegment(c, ReadSegmentReq(c, true));
  }

  lemma DeliverAgain(c: Config, s: SdoState, l: Link)
    requires Sound(c, s) && s.busy && c.rw == Read && AgainLinked(c, s, l) && l.toClient != []
    ensures var r := Receive(c, s, true, l.toClient[0]);
            var l' := Taken(l, r.sent);
            if r.sdo.busy then AgainLinked(c, r.sdo, l') else Delivered(c, r.sdo, l') && Resting(c, l')
  {
    hide Receive, Awaiting, UpAgain, Resting;
    if s.readState == ReadWaitForData {
      if Short(c, l.toClient[0]) {
        SuppliedHas(c, s, l);
        DeliverShort(c, s, l);
      } else {
        DeliverLong(c, s, l);
      }
    } else if l.toClient[0] == Confirmation(c) {
      DeliverConfirmationAgain(c, s, l);
    } else {
      DeliverOld(c, true, s, l);
    }
  }

  lemma SuppliedHas(c: Config, s: SdoState, l: Link)
    requires UpAgain(c, s, l) && c.rw == Read
    ensures Has(c, l.server)
  {
  }

  // ---- calls on the holder --------------------------------------------------------------------

  /** A call that does not end the transfer changes nothing that the transfer depends on. */
  lemma HolderWaits(c: Config, s: SdoState, call: Call)
    requires Sound(c, s) && s.busy && FromPlugin(c, call) && !call.Frame? && !(call.Cycle? && TimesOut(s))
    ensures var r := Step(c, s, true, call);
            && r.lock && r.sent == []
            && r.sdo == s.(busyCounter := r.sdo.busyCounter, exeCounter := r.sdo.exeCounter,
                           writePending := r.sdo.writePending, temp := r.sdo.temp)
            && (c.rw == Read ==> r.sdo.temp == s.temp && r.sdo.writePending == s.writePending)
  {
  }

  lemma HolderStaysLinked(c: Config, s: SdoState, l: Link, again: bool, call: Call)
    requires Sound(c, s) && s.busy && Linked(c, s, l, again)
    requires FromPlugin(c, call) && !call.Frame? && !(call.Cycle? && TimesOut(s))
    ensures Linked(c, Step(c, s, true, call).sdo, l, again)
  {
    hide Step, Awaiting;
    HolderWaits(c, s, call);
  }

  /** What `writeValue`, called within `call`, finds in the temporary buffer: the value set
      last, unless the same execute has given up a transfer and zeroed it. */
  function Offered(c: Config, s: SdoState, call: Call): seq<byte> {
    if call.Cycle? && TimesOut(s) then Zeros(c.size) else s.temp
  }

  /** Each SDO uses the state machine of its direction only. */
  predicate OneDirection(c: Config, s: SdoState) {
    if c.rw == Write then s.readState == ReadIdle else s.writeState == WriteIdle && !s.writePending
  }

  lemma StepKeepsDirection(c: Config, s: SdoState, lock: bool, call: Call)
    requires Shaped(c, s) && OneDirection(c, s) && FromPlugin(c, call)
    ensures OneDirection(c, Step(c, s, lock, call).sdo)
  {
    if call.Cycle? {
      var h := ExecuteHead(c, s, lock);
      var p := ExecutePending(c, h.sdo, h.lock);
      assert OneDirection(c, p.sdo);
    }
  }

  /** The SDO waits for the confirmation of the request it has just sent. */
  predicate JustOpened(c: Config, s: SdoState) {
    s.busy && if c.rw == Write then s.writeState == WriteWaitForConf && s.readState == ReadIdle
              else s.readState == ReadWaitForConf && s.received == 0 && s.writeState == WriteIdle && !s.writePending
  }

  /** An SDO that does not hold the lock, or gives it up by a timeout, either stays silent and
      not busy or opens a transfer with one frame. */
  lemma OpensOrRests(c: Config, s: SdoState, lock: bool, call: Call)
    requires Sound(c, s) && FromPlugin(c, call) && !call.Frame? && OneDirection(c, s)
    requires if s.busy then lock && call.Cycle? && TimesOut(s) else !lock
    ensures var r := Step(c, s, lock, call);
            if r.sent == [] then !r.sdo.busy
            else && r.sent == [Opening(c)] && JustOpened(c, r.sdo)
                 && (c.rw == Write ==> r.sdo.data == Offered(c, s, call))
  {
    if call.Cycle? {
      var h := ExecuteHead(c, s, lock);
      assert !h.sdo.busy && !h.lock && AtRest(h.sdo);
      var p := ExecutePending(c, h.sdo, h.lock);
      if c.rw == Write {
        assert Step(c, s, lock, call).sdo == p.sdo;
      } else {
        assert p == Outcome(h.sdo, h.lock, []);
      }
    }
  }

  lemma JustOpenedIsLinked(c: Config, s: SdoState, l: Link, snapshot: seq<byte>)
    requires JustOpened(c, s) && SafeToOpen(c, l) && (c.rw == Write ==> s.data == snapshot)
    ensures Linked(c, s, l.(toServer := l.toServer + [Opening(c)], snapshot := snapshot), Repeats(c, l))
  {
    hide Opens, MayFollow, Opening, Confirmation, Accepting;
    if Repeats(c, l) {
      var k :| 0 <= k < |l.toServer| && Opens(c, l.toServer[k]);
      var all := l.toServer + [Opening(c)];
      assert Opens(c, all[k]) && MayFollow(c, true, all[|l.toServer|]);
      SmallMayRepeat(c, Opening(c));
    }
  }

  lemma SmallMayRepeat(c: Config, f: CanFrame)
    requires c.rw == Read && MayFollow(c, true, f)
    ensures 0 < c.size < 7
  {
  }

  // ---- a frame is lost ------------------------------------------------------------------------

  lemma LossKeepsAwaiting(c: Config, again: bool, l: Link)
    requires Awaiting(c, again, l)
    ensures forall i :: 0 <= i < |l.toServer| ==> Awaiting(c, again, l.(toServer := Without(l.toServer, i)))
    ensures forall i :: 0 <= i < |l.toClient| ==> Awaiting(c, again, l.(toClient := Without(l.toClient, i)))
  {
    hide Awaiting;
    forall i | 0 <= i < |l.toServer|
      ensures Awaiting(c, again, l.(toServer := Without(l.toServer, i)))
    {
      FewerRequestsAwait(c, again, l, Without(l.toServer, i), k => if k < i then k else k + 1);
    }
    forall i | 0 <= i < |l.toClient|
      ensures Awaiting(c, again, l.(toClient := Without(l.toClient, i)))
    {
      FewerRepliesAwait(c, again, l, Without(l.toClient, i), k => if k < i then k else k + 1);
    }
  }

  lemma LossKeepsDownSafe(c: Config, s: SdoState, l: Link)
    requires DownSafe(c, s, l)
    ensures forall i :: 0 <= i < |l.toServer| ==> DownSafe(c, s, l.(toServer := Without(l.toServer, i)))
    ensures forall i :: 0 <= i < |l.toClient| ==> DownSafe(c, s, l.(toClient := Without(l.toClient, i)))
  {
    hide Fits, MayFollow, LastSegment, WriteSegmentConf;
    forall i | 0 <= i < |l.toServer|
      ensures DownSafe(c, s, l.(toServer := Without(l.toServer, i)))
    {
      RequestLossKeepsDownSafe(c, s, l, i);
    }
    forall i | 0 <= i < |l.toClient|
      ensures DownSafe(c, s, l.(toClient := Without(l.toClient, i)))
    {
      ReplyLossKeepsDownSafe(c, s, l, i);
    }
  }

  lemma RequestLossKeepsDownSafe(c: Config, s: SdoState, l: Link, i: nat)
    requires DownSafe(c, s, l) && i < |l.toServer|
    ensures DownSafe(c, s, l.(toServer := Without(l.toServer, i)))
  {
    hide Fits, MayFollow, LastSegment, WriteSegmentConf;
    var l', n := l.(toServer := Without(l.toServer, i)), |l.toServer|;
    if Stuck(c, s, l) {
      assert Stuck(c, s, l');
    } else if i == n - 1 {
      assert l'.toServer == l.toServer[..n - 1];
      assert Stuck(c, s, l');
    } else {
      assert l'.toServer[..n - 2] == Without(l.toServer[..n - 1], i);
      assert SegmentUnderWay(c, s, l');
    }
  }

  lemma ReplyLossKeepsDownSafe(c: Config, s: SdoState, l: Link, i: nat)
    requires DownSafe(c, s, l) && i < |l.toClient|
    ensures DownSafe(c, s, l.(toClient := Without(l.toClient, i)))
  {
    hide Fits, MayFollow, LastSegment, WriteSegmentConf;
    var l', m := l.(toClient := Without(l.toClient, i)), |l.toClient|;
    if Stuck(c, s, l) {
      assert Stuck(c, s, l');
    } else if SegmentUnderWay(c, s, l) {
      assert SegmentUnderWay(c, s, l');
    } else if i == m - 1 {
      assert l'.toClient == l.toClient[..m - 1];
      assert Stuck(c, s, l');
    } else {
      assert l'.toClient[..m - 2] == Without(l.toClient[..m - 1], i);
      assert AnswerUnderWay(c, s, l');
    }
  }

  lemma LossKeepsUpAgain(c: Config, s: SdoState, l: Link)
    requires c.rw == Read && UpAgain(c, s, l)
    ensures forall i :: 0 <= i < |l.toServer| ==> UpAgain(c, s, l.(toServer := Without(l.toServer, i)))
    ensures forall i :: 0 <= i < |l.toClient| ==> UpAgain(c, s, l.(toClient := Without(l.toClient, i)))
  {
    hide UpAgain;
    forall i | 0 <= i < |l.toServer|
      ensures UpAgain(c, s, l.(toServer := Without(l.toServer, i)))
    {
      RequestLossKeepsUpAgain(c, s, l, i);
    }
    forall i | 0 <= i < |l.toClient|
      ensures UpAgain(c, s, l.(toClient := Without(l.toClient, i)))
    {
      ReplyLossKeepsUpAgain(c, s, l, i);
    }
  }

  lemma RequestLossKeepsUpAgain(c: Config, s: SdoState, l: Link, i: nat)
    requires c.rw == Read && UpAgain(c, s, l) && i < |l.toServer|
    ensures UpAgain(c, s, l.(toServer := Without(l.toServer, i)))
  {
    hide MayFollow, Confirmation, Accepting, RequestsSegment, Short;
    var l' := l.(toServer := Without(l.toServer, i));
    if RequestsSegment(c, l.toServer[0]) {
      assert Supplied(c, s, l') by { SupplyDepends(c, s, l, l'); }
    } else if l'.toServer == [] || RequestsSegment(c, l'.toServer[0]) {
      AcceptingSupplies(c, s, l');
    }
  }

  lemma SupplyDepends(c: Config, s: SdoState, l: Link, l': Link)
    requires Supplied(c, s, l) && l'.toClient == l.toClient && l'.server == l.server
    ensures Supplied(c, s, l')
  {
  }

  lemma ReplyLossKeepsUpAgain(c: Config, s: SdoState, l: Link, i: nat)
    requires c.rw == Read && UpAgain(c, s, l) && i < |l.toClient|
    ensures UpAgain(c, s, l.(toClient := Without(l.toClient, i)))
  {
    hide MayFollow, Confirmation, Accepting, RequestsSegment, Short;
    var l' := l.(toClient := Without(l.toClient, i));
    if l.toServer == [] || RequestsSegment(c, l.toServer[0]) {
      BytesOfFewer(c, l.toClient, i);
    }
  }

  lemma LossStaysLinked(c: Config, s: SdoState, l: Link, again: bool)
    requires Linked(c, s, l, again)
    ensures forall i :: 0 <= i < |l.toServer| ==> Linked(c, s, l.(toServer := Without(l.toServer, i)), again)
    ensures forall i :: 0 <= i < |l.toClient| ==> Linked(c, s, l.(toClient := Without(l.toClient, i)), again)
  {
    hide Awaiting, DownSafe, UpAgain;
    var mode := again && c.rw == Read;
    if Awaiting(c, mode, l) {
      LossKeepsAwaiting(c, mode, l);
    }
    if c.rw == Write && DownSafe(c, s, l) {
      LossKeepsDownSafe(c, s, l);
    }
    if c.rw == Read && UpAgain(c, s, l) {
      LossKeepsUpAgain(c, s, l);
    }
  }
}
