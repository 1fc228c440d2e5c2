/** The frames of the SDO client byte by byte, as they are seen on the bus. */
module SdoFrames {
  import opened Can
  import opened SdoProtocol

  /** The four requests go to the server: command, index low byte first, subindex, and for a write
      the length, low byte first. */
  lemma RequestBytes(c: Config)
    ensures var lo, hi, sub := c.odIndex % 0x100, c.odIndex / 0x100, c.odSubIndex;
            && ReadReq(c) == RawFrame(c.cobIdRx, 8, [0x40, lo, hi, sub, 0, 0, 0, 0])
            && ReadSegmentReq(c, false) == RawFrame(c.cobIdRx, 8, [0x61, lo, hi, sub, 0, 0, 0, 0])
            && ReadSegmentReq(c, true) == RawFrame(c.cobIdRx, 8, [0x71, lo, hi, sub, 0, 0, 0, 0])
            && WriteReq(c) == RawFrame(c.cobIdRx, 8, [0x21, lo, hi, sub,
                                                      c.size % 0x100, c.size / 0x100 % 0x100,
                                                      c.size / 0x1_0000 % 0x100, c.size / 0x100_0000])
  {
    LengthBytes(c.size);
  }

  /** The replies that are waited for come from the server. */
  lemma ReplyBytes(c: Config)
    ensures var lo, hi, sub := c.odIndex % 0x100, c.odIndex / 0x100, c.odSubIndex;
            && WriteConf(c) == RawFrame(c.cobIdTx, 8, [0x60, lo, hi, sub, 0, 0, 0, 0])
            && WriteSegmentConf(c, false) == RawFrame(c.cobIdTx, 8, [0x20, 0, 0, 0, 0, 0, 0, 0])
            && WriteSegmentConf(c, true) == RawFrame(c.cobIdTx, 8, [0x30, 0, 0, 0, 0, 0, 0, 0])
            && ReadConf(c) == RawFrame(c.cobIdTx, 8, [0x41, lo, hi, sub,
                                                      c.size % 0x100, c.size / 0x100 % 0x100,
                                                      c.size / 0x1_0000 % 0x100, c.size / 0x100_0000])
  {
    LengthBytes(c.size);
  }

  lemma LengthBytes(n: nat)
    requires n < 0x1_0000_0000
    ensures Le32(n) == [n % 0x100, n / 0x100 % 0x100, n / 0x1_0000 % 0x100, n / 0x100_0000]
  {
    MiddleByte(n / 0x1_0000, n % 0x1_0000 / 0x100, n % 0x100, n);
    HighByte(n / 0x100_0000, n / 0x1_0000 % 0x100, n % 0x1_0000, n);
  }

  lemma MiddleByte(high: nat, b: nat, low: nat, n: nat)
    requires n == 0x1_0000 * high + 0x100 * b + low && b < 0x100 && low < 0x100
    ensures n / 0x100 % 0x100 == b
  {
    assert n / 0x100 == 0x100 * high + b;
  }

  lemma HighByte(high: nat, b: nat, low: nat, n: nat)
    requires n == 0x100_0000 * high + 0x1_0000 * b + low && b < 0x100 && low < 0x1_0000
    ensures n / 0x1_0000 / 0x100 == high
  {
    assert n / 0x1_0000 == 0x100 * high + b;
  }

  /** The frames that the comments of the source show for object 0x2640 of 56 bytes of node 3. */
  lemma ExampleOfTheSource(c: Config)
    requires c.cobIdRx == 0x603 && c.cobIdTx == 0x583 && c.odIndex == 0x2640 && c.odSubIndex == 0 && c.size == 56
    ensures ReadReq(c) == RawFrame(0x603, 8, [0x40, 0x40, 0x26, 0, 0, 0, 0, 0])
    ensures ReadConf(c) == RawFrame(0x583, 8, [0x41, 0x40, 0x26, 0, 0x38, 0, 0, 0])
    ensures ReadSegmentReq(c, false) == RawFrame(0x603, 8, [0x61, 0x40, 0x26, 0, 0, 0, 0, 0])
    ensures ReadSegmentReq(c, true) == RawFrame(0x603, 8, [0x71, 0x40, 0x26, 0, 0, 0, 0, 0])
  {
    RequestBytes(c);
    ReplyBytes(c);
  }
}
