/** The little-endian helpers of the inventory helper: `read_int_from_ram`,
    `write_int_to_ram` and `read_segments_as_ints_from_ram`, taken apart from
    the emulator transport. A read is given the bytes the emulator returned;
    a write produces the bytes it would send. */
module ByteCodec {
  import opened Wrappers

  /** One byte of the emulator's memory. */
  type Byte = b: int | 0 <= b < 256

  /** 256 to the n: how many values an unsigned n-byte integer can hold. */
  function Radix(n: nat): (r: nat)
    ensures r >= 1
  {
    if n == 0 then 1 else 256 * Radix(n - 1)
  }

  /** `int.from_bytes(bs, "little")`. */
  function FromLittle(bs: seq<Byte>): (r: nat)
    ensures r < Radix(|bs|)
  {
    if bs == [] then 0 else bs[0] + 256 * FromLittle(bs[1..])
  }

  /** The `size` little-endian bytes of a value that fits in them. */
  function Encode(value: nat, size: nat): (bs: seq<Byte>)
    requires value < Radix(size)
    ensures |bs| == size
  {
    if size == 0 then [] else [value % 256] + Encode(value / 256, size - 1)
  }

  /** Decoding what was encoded gives back the value. */
  lemma {:induction false} DecodeEncode(value: nat, size: nat)
    requires value < Radix(size)
    ensures FromLittle(Encode(value, size)) == value
  {
    if size > 0 {
      var bs := Encode(value, size);
      assert bs[1..] == Encode(value / 256, size - 1);
      DecodeEncode(value / 256, size - 1);
    }
  }

  /** Encoding what was decoded gives back the bytes. */
  lemma {:induction false} EncodeDecode(bs: seq<Byte>)
    ensures Encode(FromLittle(bs), |bs|) == bs
  {
    if bs != [] {
      var v := FromLittle(bs);
      assert v % 256 == bs[0] && v / 256 == FromLittle(bs[1..]);
      EncodeDecode(bs[1..]);
    }
  }

  /** `int.to_bytes(value, size, "little")`; `None` stands for the
      OverflowError Python raises for a negative value or one that does not
      fit in `size` bytes. */
  function ToLittle(value: int, size: nat): (r: Option<seq<Byte>>)
    ensures r.Some? <==> 0 <= value < Radix(size)
    ensures r.Some? ==> |r.value| == size && FromLittle(r.value) == value
  {
    if 0 <= value < Radix(size) then
      DecodeEncode(value, size);
      Some(Encode(value, size))
    else
      None
  }

  /** Python's `bs[lo:hi]` for `0 <= lo <= hi`: bounds past the end are cut
      back to the end. */
  function Slice(bs: seq<Byte>, lo: nat, hi: nat): (r: seq<Byte>)
    requires lo <= hi
    ensures hi <= |bs| ==> r == bs[lo..hi]
    ensures |r| <= hi - lo
  {
    if hi <= |bs| then bs[lo..hi] else if lo <= |bs| then bs[lo..] else []
  }

  /** The comprehension of `read_segments_as_ints_from_ram`: the read bytes
      cut into `count` segments of `size` bytes, each decoded little-endian. */
  function Segments(bs: seq<Byte>, count: nat, size: nat): (r: seq<nat>)
    ensures |r| == count
  {
    seq(count, k requires 0 <= k < count => FromLittle(Slice(bs, k * size, k * size + size)))
  }

  lemma SegmentBounds(k: nat, count: nat, size: nat)
    requires k < count
    ensures k * size + size <= count * size
  {
    assert k * size + size == (k + 1) * size;
    assert (k + 1) * size <= count * size by {
      var d := count - (k + 1);
      assert count * size == (k + 1) * size + d * size;
    }
  }

  /** When the emulator returns exactly `count * size` bytes, segment k is
      the little-endian value of bytes [k*size, (k+1)*size), and every
      segment fits in `size` bytes. */
  lemma SegmentsExact(bs: seq<Byte>, count: nat, size: nat)
    requires |bs| == count * size
    ensures forall k :: 0 <= k < count ==>
      k * size + size <= |bs| &&
      Segments(bs, count, size)[k] == FromLittle(bs[k * size..k * size + size]) &&
      Segments(bs, count, size)[k] < Radix(size)
  {
    forall k | 0 <= k < count
      ensures k * size + size <= |bs|
      ensures Segments(bs, count, size)[k] == FromLittle(bs[k * size..k * size + size])
      ensures Segments(bs, count, size)[k] < Radix(size)
    {
      SegmentBounds(k, count, size);
    }
  }

  /** The bytes a table of values occupies in memory, `size` bytes each. */
  function EncodeAll(vals: seq<int>, size: nat): (bs: seq<Byte>)
    requires forall k :: 0 <= k < |vals| ==> 0 <= vals[k] < Radix(size)
    ensures |bs| == |vals| * size
  {
    if vals == [] then []
    else
      var rest := EncodeAll(vals[1..], size);
      assert |vals| * size == size + (|vals| - 1) * size;
      Encode(vals[0], size) + rest
  }

  /** Segment k of an encoded table holds the encoding of value k. */
  lemma {:induction false} EncodeAllSegment(vals: seq<int>, size: nat, k: nat)
    requires forall j :: 0 <= j < |vals| ==> 0 <= vals[j] < Radix(size)
    requires k < |vals|
    ensures k * size + size <= |EncodeAll(vals, size)|
    ensures EncodeAll(vals, size)[k * size..k * size + size] == Encode(vals[k], size)
  {
    SegmentBounds(k, |vals|, size);
    var head := Encode(vals[0], size);
    var rest := EncodeAll(vals[1..], size);
    assert EncodeAll(vals, size) == head + rest;
    if k > 0 {
      EncodeAllSegment(vals[1..], size, k - 1);
      assert k * size == size + (k - 1) * size;
      assert (head + rest)[k * size..k * size + size] == rest[(k - 1) * size..(k - 1) * size + size];
    } else {
      assert (head + rest)[..size] == head;
    }
  }

  /** Reading back a table written with `write_int_to_ram`-style encoding
      returns exactly the values written. */
  lemma {:induction false} SegmentsOfEncodeAll(vals: seq<int>, size: nat)
    requires forall k :: 0 <= k < |vals| ==> 0 <= vals[k] < Radix(size)
    ensures Segments(EncodeAll(vals, size), |vals|, size) == vals
  {
    var bs := EncodeAll(vals, size);
    SegmentsExact(bs, |vals|, size);
    forall k | 0 <= k < |vals|
      ensures Segments(bs, |vals|, size)[k] == vals[k]
    {
      EncodeAllSegment(vals, size, k);
      DecodeEncode(vals[k], size);
    }
  }
}
