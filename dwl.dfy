/** The Digi-Pas DWL-5000XY dual-axis packet decoder (DWL_to_degrees.py). */
module Dwl {
  import opened Bits

  /** A dual-axis packet is exactly this long. */
  const PacketLength: nat := 12
  /** Dual-axis mode reports thousandths of a degree. */
  const Scale: real := 1000.0

  const SignBit: int := 0x800000
  const Modulus: int := 0x1000000

  /** The `ValueError` the decoder raises. */
  datatype DecodeError = WrongLength(length: nat)

  datatype Result<T> = Ok(value: T) | Err(error: DecodeError)

  /** An angle of either axis in degrees, as the decoder returns it (x first, then y). */
  datatype Angles = Angles(x: real, y: real)

  /** The three axis bytes read as an unsigned big-endian number. */
  function Unsigned(b: seq<byte>): nat
    requires |b| == 3
  {
    (b[0] as int) * 65536 + (b[1] as int) * 256 + b[2] as int
  }

  /** `decode_axis`: three bytes of 24-bit two's complement to a signed integer. */
  function DecodeAxis(b: seq<byte>): (v: int)
    requires |b| == 3
    ensures -SignBit <= v < SignBit
    ensures b[0] < 0x80 ==> v == Unsigned(b)
    ensures b[0] >= 0x80 ==> v == Unsigned(b) - Modulus
  {
    var raw := Be24(b[0], b[1], b[2]);
    Be24Value(b[0], b[1], b[2]);
    SignBitSet(raw);
    if BitAnd(raw, 0x800000) != 0 then raw - 0x1000000 else raw
  }

  /** The three bytes a sensor sends for a signed axis value: the inverse of DecodeAxis. */
  function EncodeAxis(v: int): (b: seq<byte>)
    requires -SignBit <= v < SignBit
    ensures |b| == 3
    ensures (b[0] >= 0x80) == (v < 0)
  {
    var u := if v < 0 then v + Modulus else v;
    [u / 65536, (u / 256) % 256, u % 256]
  }

  /** Encoding then decoding gives back every representable value. */
  lemma DecodeEncodeAxis(v: int)
    requires -SignBit <= v < SignBit
    ensures DecodeAxis(EncodeAxis(v)) == v
  {
    var u := if v < 0 then v + Modulus else v;
    assert Unsigned(EncodeAxis(v)) == u;
  }

  /** Decoding then encoding gives back every three bytes: the decoding loses nothing. */
  lemma EncodeDecodeAxis(b: seq<byte>)
    requires |b| == 3
    ensures EncodeAxis(DecodeAxis(b)) == b
  {
    var u := Unsigned(b);
    assert (if DecodeAxis(b) < 0 then DecodeAxis(b) + Modulus else DecodeAxis(b)) == u;
    DivUnique(u, 65536, b[0], (b[1] as int) * 256 + b[2]);
    DivUnique(u, 256, (b[0] as int) * 256 + b[1], b[2]);
    DivUnique((b[0] as int) * 256 + b[1], 256, b[0], b[1]);
  }

  /** `decode_dwl5000xy`: the (x, y) angles in degrees, or the length error. */
  function DecodeDwl5000xy(packet: seq<byte>): (r: Result<Angles>)
    ensures r.Err? <==> |packet| != PacketLength
    ensures r.Err? ==> r.error == WrongLength(|packet|)
  {
    if |packet| != PacketLength then
      Err(WrongLength(|packet|))
    else
      var yRaw := DecodeAxis(packet[3..6]);
      var xRaw := DecodeAxis(packet[6..9]);
      Ok(Angles(xRaw as real / Scale, yRaw as real / Scale))
  }

  /** Y comes from bytes 3..5 only, X from bytes 6..8 only; each is its raw count over 1000. */
  lemma AxesComeFromTheirBytes(packet: seq<byte>)
    requires |packet| == PacketLength
    ensures DecodeDwl5000xy(packet).Ok?
    ensures DecodeDwl5000xy(packet).value.x * Scale == DecodeAxis(packet[6..9]) as real
    ensures DecodeDwl5000xy(packet).value.y * Scale == DecodeAxis(packet[3..6]) as real
  {
  }

  /** Bytes 0..2 and 9..11 never affect the decoded angles. */
  lemma FramingBytesIgnored(p: seq<byte>, q: seq<byte>)
    requires |p| == |q| == PacketLength
    requires p[3..9] == q[3..9]
    ensures DecodeDwl5000xy(p) == DecodeDwl5000xy(q)
  {
    assert p[3..6] == p[3..9][..3] == q[3..9][..3] == q[3..6];
    assert p[6..9] == p[3..9][3..] == q[3..9][3..] == q[6..9];
  }

  /** Every decoded angle lies in [-8388.608, 8388.607] degrees. */
  lemma AngleRange(packet: seq<byte>)
    requires |packet| == PacketLength
    ensures -8388.608 <= DecodeDwl5000xy(packet).value.x <= 8388.607
    ensures -8388.608 <= DecodeDwl5000xy(packet).value.y <= 8388.607
  {
    var x := DecodeAxis(packet[6..9]);
    var y := DecodeAxis(packet[3..6]);
    assert -8388608.0 <= x as real <= 8388607.0;
    assert -8388608.0 <= y as real <= 8388607.0;
  }

  /** A packet built from any framing bytes and two encoded counts decodes to those counts / 1000. */
  lemma PacketRoundTrip(head: seq<byte>, x: int, y: int, tail: seq<byte>)
    requires |head| == 3 && |tail| == 3
    requires -SignBit <= x < SignBit && -SignBit <= y < SignBit
    ensures DecodeDwl5000xy(head + EncodeAxis(y) + EncodeAxis(x) + tail)
         == Ok(Angles(x as real / Scale, y as real / Scale))
  {
    var p := head + EncodeAxis(y) + EncodeAxis(x) + tail;
    assert p[3..6] == EncodeAxis(y);
    assert p[6..9] == EncodeAxis(x);
    DecodeEncodeAxis(x);
    DecodeEncodeAxis(y);
  }

  /** The sample packet `71 11 22 00 01 23 00 FF 38 00 5A 3C` reads x = 65.336 and y = 0.291 degrees. */
  lemma SamplePacket()
    ensures DecodeDwl5000xy([0x71, 0x11, 0x22, 0x00, 0x01, 0x23, 0x00, 0xFF, 0x38, 0x00, 0x5A, 0x3C])
         == Ok(Angles(65.336, 0.291))
  {
    var p: seq<byte> := [0x71, 0x11, 0x22, 0x00, 0x01, 0x23, 0x00, 0xFF, 0x38, 0x00, 0x5A, 0x3C];
    var y: seq<byte>, x: seq<byte> := p[3..6], p[6..9];
    assert y == [0x00, 0x01, 0x23] && x == [0x00, 0xFF, 0x38];
    assert Unsigned(y) == 291 && Unsigned(x) == 65336;
  }

  /** Sign extension at the edges: `80 00 00` is the most negative count and `FF FF FF` is -1. */
  lemma SignExtensionEdges()
    ensures DecodeAxis([0x80, 0x00, 0x00]) == -0x800000
    ensures DecodeAxis([0xFF, 0xFF, 0xFF]) == -1
    ensures DecodeAxis([0x7F, 0xFF, 0xFF]) == 0x7FFFFF
  {
  }
}
