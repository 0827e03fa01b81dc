/** The VL53L0X ranging result-block parser (degrees_and_laser_to_pos_change.py). */
module RangeBlock {
  import opened Bits

  /** A result block is exactly this long; its last two bytes are the distance. */
  const BlockLength: nat := 12
  /** The sensor's "no target" marker, the largest 16-bit value. */
  const OutOfRange: nat := 65535

  datatype Option<T> = None | Some(value: T)

  /** `parse_result_block`: the distance in millimetres, or None for a missing block, a block of
      the wrong length, or a distance the sensor uses to say it has no reading. The source reads
      the distance as `block[-2]`, `block[-1]`. */
  function ParseResultBlock(block: Option<seq<byte>>): (r: Option<nat>)
    ensures block.None? ==> r.None?
    ensures block.Some? && |block.value| != BlockLength ==> r.None?
    ensures r.Some? ==> 0 < r.value < OutOfRange
    ensures block.Some? && |block.value| == BlockLength ==>
              (r.Some? <==> 0 < (block.value[10] as int) * 256 + block.value[11] as int < OutOfRange)
    ensures r.Some? ==> r.value == (block.value[10] as int) * 256 + block.value[11] as int
  {
    if block.None? || |block.value| != BlockLength then
      None
    else
      var msb, lsb := block.value[|block.value| - 2], block.value[|block.value| - 1];
      var dist := Be16(msb, lsb);
      Be16Value(msb, lsb);
      if 0 < dist < OutOfRange then Some(dist) else None
  }

  /** The two bytes a sensor sends for a distance. */
  function EncodeDistance(d: nat): (b: seq<byte>)
    requires d <= OutOfRange
    ensures |b| == 2
  {
    [d / 256, d % 256]
  }

  /** Every distance strictly between 0 and 65535, after any ten leading bytes, parses back. */
  lemma ParseEncodedDistance(prefix: seq<byte>, d: nat)
    requires |prefix| == 10 && 0 < d < OutOfRange
    ensures ParseResultBlock(Some(prefix + EncodeDistance(d))) == Some(d)
  {
    var block := prefix + EncodeDistance(d);
    assert block[10] == d / 256 && block[11] == d % 256;
    assert (block[10] as int) * 256 + block[11] as int == d;
  }

  /** A twelve-byte block yields a distance exactly when its last two bytes are neither 00 00 nor FF FF. */
  lemma ReadingUnlessReserved(block: seq<byte>)
    requires |block| == BlockLength
    ensures ParseResultBlock(Some(block)).None?
        <==> (block[10] == 0 && block[11] == 0) || (block[10] == 0xFF && block[11] == 0xFF)
  {
    var d := (block[10] as int) * 256 + block[11] as int;
    Be16Value(block[10], block[11]);
    if d == 0 {
      assert block[10] == 0;
    } else if d == OutOfRange {
      assert block[10] == 0xFF;
    }
  }

  /** Bytes 0..9 never affect the result. */
  lemma LeadingBytesIgnored(p: seq<byte>, q: seq<byte>)
    requires |p| == |q| == BlockLength
    requires p[10] == q[10] && p[11] == q[11]
    ensures ParseResultBlock(Some(p)) == ParseResultBlock(Some(q))
  {
  }

  /** The sample block `01 00 00 00 00 00 00 00 00 00 00 C8` parses to 200 mm. */
  lemma SampleBlock()
    ensures ParseResultBlock(Some([0x01, 0, 0, 0, 0, 0, 0, 0, 0, 0, 0x00, 0xC8])) == Some(200)
  {
    var b: seq<byte> := [0x01, 0, 0, 0, 0, 0, 0, 0, 0, 0, 0x00, 0xC8];
    assert b[10] == 0 && b[11] == 200;
  }
}
