/** CAN frames as the plugin handles them (`struct can_frame`), and the little-endian
    fields that the SDO frames carry. */
module Can {

  type byte = n: nat | n < 256

  /** The payload always has eight slots; `dlc` says how many of them are on the wire. */
  datatype RawFrame = RawFrame(id: nat, dlc: nat, data: seq<byte>)

  type CanFrame = f: RawFrame | f.dlc <= 8 && |f.data| == 8
    witness RawFrame(0, 0, [0, 0, 0, 0, 0, 0, 0, 0])

  /** What a receiver sees: identifier and the first `dlc` bytes. Slots beyond `dlc` may hold
      stale bytes of an earlier frame. */
  datatype Wire = Wire(id: nat, bytes: seq<byte>)

  function OnWire(f: CanFrame): Wire {
    Wire(f.id, f.data[..f.dlc])
  }

  function Wires(fs: seq<CanFrame>): (ws: seq<Wire>)
    ensures |ws| == |fs|
    ensures forall k :: 0 <= k < |fs| ==> ws[k] == OnWire(fs[k])
  {
    seq(|fs|, k requires 0 <= k < |fs| => OnWire(fs[k]))
  }

  function Zeros(n: nat): (z: seq<byte>)
    ensures |z| == n && forall k :: 0 <= k < n ==> z[k] == 0
  {
    seq(n, _ => 0)
  }

  /** `memcpy(dst + at, src, |src|)`. */
  function Overwrite(dst: seq<byte>, at: nat, src: seq<byte>): (r: seq<byte>)
    requires at + |src| <= |dst|
    ensures |r| == |dst|
    ensures r[at..at + |src|] == src
    ensures r[..at] == dst[..at]
    ensures r[at + |src|..] == dst[at + |src|..]
    ensures r[..at + |src|] == dst[..at] + src
  {
    dst[..at] + src + dst[at + |src|..]
  }

  function Min(a: int, b: int): int {
    if a <= b then a else b
  }

  // ---- little-endian fields ----------------------------------------------------------

  function Le16(x: nat): (b: seq<byte>)
    requires x < 0x1_0000
    ensures |b| == 2
  {
    [x % 0x100, x / 0x100]
  }

  function FromLe16(b: seq<byte>): (x: nat)
    requires |b| == 2
    ensures x < 0x1_0000
  {
    (b[0] as nat) + 0x100 * (b[1] as nat)
  }

  function Le32(x: nat): (b: seq<byte>)
    requires x < 0x1_0000_0000
    ensures |b| == 4
  {
    Le16(x % 0x1_0000) + Le16(x / 0x1_0000)
  }

  function FromLe32(b: seq<byte>): (x: nat)
    requires |b| == 4
    ensures x < 0x1_0000_0000
  {
    FromLe16(b[..2]) + 0x1_0000 * FromLe16(b[2..])
  }

  /** A four-byte length survives the trip over the wire, so two lengths with the same
      encoding are the same length. */
  lemma Le32RoundTrip(x: nat)
    requires x < 0x1_0000_0000
    ensures FromLe32(Le32(x)) == x
  {
    var b := Le32(x);
    assert b[..2] == Le16(x % 0x1_0000) && b[2..] == Le16(x / 0x1_0000);
  }

  // ---- cycle arithmetic --------------------------------------------------------------

  /** Number of cycles of length `e` that it takes to cover `x`. */
  function CeilDiv(x: nat, e: nat): (q: nat)
    requires e > 0
  {
    (x + e - 1) / e
  }

  /** A cycle counter has covered `x` exactly when it has reached `CeilDiv(x, e)`. */
  lemma CeilDivIsThreshold(x: nat, e: nat, k: nat)
    requires e > 0
    ensures k * e >= x <==> k >= CeilDiv(x, e)
  {
    var q := CeilDiv(x, e);
    assert x + e - 1 == q * e + (x + e - 1) % e;
    if k >= q {
      MulMonotone(q, k, e);
    } else {
      MulMonotone(k + 1, q, e);
      assert (k + 1) * e == k * e + e;
    }
  }

  lemma MulMonotone(a: nat, b: nat, e: nat)
    requires a <= b
    ensures a * e <= b * e
  {
  }
}
