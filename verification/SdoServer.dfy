/** A server for the segmented transfers of section 7.2.4.3 of CiA 301, as the other end of the
    link. It answers every frame by one frame. Its data segments are as long as their payload
    needs; CiA 301 wants SDO frames of eight bytes, see `SdoSegments.PaddedReadDelivers`. */
module SdoServer {
  import opened Can
  import opened SdoProtocol

  /** Index and subindex in the object dictionary. */
  type Key = (nat, nat)

  /** An object whose length fits the four-byte length field. */
  type Object = d: seq<byte> | |d| < 0x1_0000_0000 witness []

  datatype Phase =
    | Idle
    | Download(key: Key, size: nat, got: seq<byte>, toggle: bool)
    | Upload(rest: seq<byte>, toggle: bool)

  /** It takes the frames with one identifier and answers with another. */
  datatype Server = Server(rxId: nat, txId: nat, objects: map<Key, Object>, phase: Phase)

  /** Client and server use the same pair of identifiers. */
  predicate Connected(c: Config, v: Server) {
    v.rxId == c.cobIdRx && v.txId == c.cobIdTx
  }

  function KeyOf(f: CanFrame): Key {
    (FromLe16(f.data[1..3]), f.data[3])
  }

  function KeyOfConfig(c: Config): Key {
    (c.odIndex, c.odSubIndex)
  }

  function Reply(v: Server, cmd: byte, f: CanFrame, tail: seq<byte>): CanFrame
    requires |tail| == 4
  {
    RawFrame(v.txId, 8, [cmd] + f.data[1..4] + tail)
  }

  /** An abort ends the transfer; the reason is one of the codes of CiA 301. */
  function Abort(v: Server, f: CanFrame, reason: nat): (Server, CanFrame)
    requires reason < 0x1_0000_0000
  {
    (v.(phase := Idle), Reply(v, 0x80, f, Le32(reason)))
  }

  function ToggleBit(f: CanFrame): bool { (f.data[0] / 16) % 2 == 1 }
  function UnusedBits(f: CanFrame): nat { (f.data[0] / 2) % 8 }
  function LastBit(f: CanFrame): bool { f.data[0] % 2 == 1 }

  function ServeDownloadSegment(v: Server, f: CanFrame): (Server, CanFrame) {
    if !v.phase.Download? then Abort(v, f, 0x0504_0001)
    else if ToggleBit(f) != v.phase.toggle then Abort(v, f, 0x0503_0000)
    else
      var got := v.phase.got + f.data[1..8 - UnusedBits(f)];
      var conf: CanFrame := RawFrame(v.txId, 8, [if ToggleBit(f) then 0x30 else 0x20] + Zeros(7));
      if !LastBit(f) then
        (v.(phase := v.phase.(got := got, toggle := !v.phase.toggle)), conf)
      else if |got| == v.phase.size && |got| < 0x1_0000_0000 then
        (v.(phase := Idle, objects := v.objects[v.phase.key := got]), conf)
      else Abort(v, f, 0x0607_0010)
  }

  /** The server cuts what is left of the object as it likes: `cut` bytes, but at least one, at most
      seven, and not more than there are. The data length code counts the command byte too. */
  function CutLength(left: nat, cut: nat): (n: nat)
    ensures n <= 7 && n <= left && (left > 0 ==> n > 0)
  {
    if left == 0 then 0 else if cut == 0 then 1 else Min(cut, Min(7, left))
  }

  function UploadSegment(txId: nat, part: seq<byte>, toggle: bool, last: bool): CanFrame
    requires |part| <= 7
  {
    RawFrame(txId, |part| + 1, [SegmentCommand(toggle, 7 - |part|, last)] + part + Zeros(7 - |part|))
  }

  function ServeUploadSegment(v: Server, f: CanFrame, cut: nat): (Server, CanFrame) {
    if !v.phase.Upload? then Abort(v, f, 0x0504_0001)
    else if ToggleBit(f) != v.phase.toggle then Abort(v, f, 0x0503_0000)
    else
      var n := CutLength(|v.phase.rest|, cut);
      var rest := v.phase.rest[n..];
      (v.(phase := if rest == [] then Idle else Upload(rest, !v.phase.toggle)),
       UploadSegment(v.txId, v.phase.rest[..n], v.phase.toggle, rest == []))
  }

  /** What the server makes of a frame that is for it. The command specifier is in the upper three
      bits of the first byte. */
  function Serve(v: Server, f: CanFrame, cut: nat): (Server, CanFrame) {
    var specifier := f.data[0] / 32;
    if specifier == 0 then ServeDownloadSegment(v, f)
    else if f.data[0] == 0x21 then
      (v.(phase := Download(KeyOf(f), FromLe32(f.data[4..8]), [], false)), Reply(v, 0x60, f, Zeros(4)))
    else if specifier == 2 then
      if KeyOf(f) in v.objects then
        (v.(phase := Upload(v.objects[KeyOf(f)], false)),
         Reply(v, 0x41, f, Le32(|v.objects[KeyOf(f)]|)))
      else Abort(v, f, 0x0602_0000)
    else if specifier == 3 then ServeUploadSegment(v, f, cut)
    else Abort(v, f, 0x0504_0001)
  }

  // ---- server and client speak the same encoding ----------------------------------------

  lemma CommandBits(toggle: bool, unused: nat, last: bool, f: CanFrame)
    requires unused <= 7 && f.data[0] == SegmentCommand(toggle, unused, last)
    ensures f.data[0] / 32 == 0
    ensures ToggleBit(f) == toggle && UnusedBits(f) == unused && LastBit(f) == last
  {
  }

  lemma KeyIsInBytes(f: CanFrame, g: CanFrame)
    requires f.data[1..4] == g.data[1..4]
    ensures KeyOf(f) == KeyOf(g)
  {
    assert f.data[1..3] == f.data[1..4][..2] && g.data[1..3] == g.data[1..4][..2];
    assert f.data[3] == f.data[1..4][2] && g.data[3] == g.data[1..4][2];
  }

  lemma OpeningBytes(c: Config, f: CanFrame, id: nat, cmd: byte, tail: seq<byte>)
    requires |tail| == 4 && f == OdFrame(id, cmd, c, tail)
    ensures f.data[0] == cmd && KeyOf(f) == KeyOfConfig(c) && f.data[4..8] == tail
    ensures f.data[1..4] == Le16(c.odIndex) + [c.odSubIndex]
  {
    assert f.data[1..3] == Le16(c.odIndex);
  }

  lemma ServesWriteRequest(c: Config, v: Server, cut: nat)
    requires Connected(c, v)
    ensures Serve(v, WriteReq(c), cut)
            == (v.(phase := Download(KeyOfConfig(c), c.size, [], false)), WriteConf(c))
  {
    OpeningBytes(c, WriteReq(c), c.cobIdRx, 0x21, Le32(c.size));
    Le32RoundTrip(c.size);
    assert Reply(v, 0x60, WriteReq(c), Zeros(4)).data == WriteConf(c).data;
  }

  /** The announced length is the client's only if the object has the client's size. */
  lemma ServesReadRequest(c: Config, v: Server, cut: nat)
    requires Connected(c, v)
    ensures var r := Serve(v, ReadReq(c), cut);
            && r.1.id == c.cobIdTx && r.0 == v.(phase := r.0.phase)
            && (r.1 == ReadConf(c) <==> KeyOfConfig(c) in v.objects && |v.objects[KeyOfConfig(c)]| == c.size)
            && (r.1 == ReadConf(c) ==> r.0.phase == Upload(v.objects[KeyOfConfig(c)], false))
  {
    OpeningBytes(c, ReadReq(c), c.cobIdRx, 0x40, Zeros(4));
    OpeningBytes(c, ReadConf(c), c.cobIdTx, 0x41, Le32(c.size));
    var r := Serve(v, ReadReq(c), cut);
    if KeyOfConfig(c) in v.objects {
      var n := |v.objects[KeyOfConfig(c)]|;
      Le32RoundTrip(c.size);
      Le32RoundTrip(n);
      assert r.1.data[4..8] == Le32(n);
      if n == c.size {
        assert r.1.data == ReadConf(c).data;
      }
    } else {
      assert r.1.data[0] == 0x80;
    }
  }

  lemma ServesSegmentRequest(c: Config, v: Server, toggle: bool, cut: nat)
    requires v.phase.Upload? && v.phase.toggle == toggle
    ensures Serve(v, ReadSegmentReq(c, toggle), cut) == ServeUploadSegment(v, ReadSegmentReq(c, toggle), cut)
    ensures ToggleBit(ReadSegmentReq(c, toggle)) == toggle
  {
  }
}
