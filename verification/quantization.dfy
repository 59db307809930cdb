/** Output quantization parameters and the fixed-point to float conversion
    of `TFLiteInferenceEngine`. Java `float` arithmetic is modelled with
    `real`; a Java `byte` is an integer in [-128, 127]. */
module Quantization {

  /** A Java `byte`: a two's-complement 8-bit integer. */
  type JavaByte = b: int | -128 <= b <= 127

  /** Below this, a scale and a zero point are both taken as absent. */
  const Threshold: real := 0.0001

  /** The (scale, offset) pair stored on an output tensor descriptor. */
  datatype QuantParams = QuantParams(scale: real, offset: real)

  /** The identity transform: scale 1, offset 0. */
  const Identity: QuantParams := QuantParams(1.0, 0.0)

  /** Both components below the threshold: quantization treated as absent. */
  predicate Degenerate(q: QuantParams)
  {
    q.scale < Threshold && q.offset < Threshold
  }

  /** Normalise the parameters read from a native output tensor: degenerate
      parameters become the identity; all others are stored unchanged. */
  function Normalize(scale: real, zeroPoint: real): (q: QuantParams)
    ensures !Degenerate(q)
    ensures q == QuantParams(scale, zeroPoint) || q == Identity
    ensures !Degenerate(QuantParams(scale, zeroPoint)) ==> q == QuantParams(scale, zeroPoint)
  {
    if scale < Threshold && zeroPoint < Threshold then Identity
    else QuantParams(scale, zeroPoint)
  }

  /** Normalising already normalised parameters changes nothing. */
  lemma NormalizeIdempotent(scale: real, zeroPoint: real)
    ensures var q := Normalize(scale, zeroPoint); Normalize(q.scale, q.offset) == q
  {
  }

  /** The threshold test is signed, not a magnitude test: a negative zero
      point with a tiny scale is also replaced by the identity. */
  lemma NormalizeNegativeZeroPoint()
    ensures Normalize(0.00005, -128.0) == Identity
  {
  }

  /** Java `b & 0xFF` for a sign-extended byte: the value in [0, 255] that
      has the same low eight bits. */
  function ToUnsigned(b: JavaByte): (u: int)
    ensures 0 <= u <= 255
    ensures b >= 0 ==> u == b
    ensures b < 0 ==> u == b + 256
  {
    b % 256
  }

  /** Reading an unsigned byte back as a Java byte recovers it. */
  function ToSigned(u: int): (b: JavaByte)
    requires 0 <= u <= 255
  {
    if u < 128 then u else u - 256
  }

  /** `& 0xFF` loses nothing: it is a bijection between Java bytes and
      [0, 255]. */
  lemma UnsignedRoundTrip(b: JavaByte, u: int)
    requires 0 <= u <= 255
    ensures ToSigned(ToUnsigned(b)) == b
    ensures ToUnsigned(ToSigned(u)) == u
  {
  }

  /** The integer a stored byte stands for in unsigned or in signed mode. */
  function StoredValue(b: JavaByte, unsigned: bool): int
  {
    if unsigned then ToUnsigned(b) else b
  }

  /** One dequantized element: (value - offset) * scale. */
  function DequantizeByte(b: JavaByte, scale: real, offset: real, unsigned: bool): real
  {
    (StoredValue(b, unsigned) as real - offset) * scale
  }

  /** The dequantized float array of a byte sequence, element by element. */
  function DequantizedValues(bytes: seq<JavaByte>, scale: real, offset: real, unsigned: bool): (r: seq<real>)
    ensures |r| == |bytes|
  {
    seq(|bytes|, i requires 0 <= i < |bytes| => DequantizeByte(bytes[i], scale, offset, unsigned))
  }

  /** A Java `ByteBuffer` read through `get()`: its bytes up to the limit and
      the current read position. */
  datatype ByteBuffer = ByteBuffer(content: seq<JavaByte>, position: nat)
  {
    /** Move the read position back to the start. */
    function Rewind(): (b: ByteBuffer)
      ensures b.content == content && b.position == 0
    {
      this.(position := 0)
    }

    /** Bytes left between the position and the limit. */
    function Remaining(): nat
    {
      if position <= |content| then |content| - position else 0
    }

    /** Relative `get()`: the byte at the position, and the buffer advanced
        by one. */
    function Get(): (r: (JavaByte, ByteBuffer))
      requires position < |content|
      ensures r.0 == content[position]
      ensures r.1.content == content && r.1.position == position + 1
    {
      (content[position], this.(position := position + 1))
    }
  }

  /** Dequantize every byte of a buffer. The buffer is rewound first, so the
      result covers all of its bytes whatever its prior read position; the
      caller's buffer is left drained, its position at the limit. */
  method Dequantize(buffer: ByteBuffer, scale: real, offset: real, unsigned: bool)
    returns (values: seq<real>, after: ByteBuffer)
    ensures values == DequantizedValues(buffer.content, scale, offset, unsigned)
    ensures after.content == buffer.content && after.position == |buffer.content|
  {
    var buf := buffer.Rewind();
    var count := buf.Remaining();
    values := seq(count, _ => 0.0);
    var i := 0;
    while i < count
      invariant 0 <= i <= count == |buffer.content| == |values|
      invariant buf.content == buffer.content && buf.position == i
      invariant forall k :: 0 <= k < i ==>
        values[k] == DequantizeByte(buffer.content[k], scale, offset, unsigned)
    {
      var (b, next) := buf.Get();
      buf := next;
      if unsigned {
        var u := ToUnsigned(b);
        values := values[i := (u as real - offset) * scale];
      } else {
        values := values[i := (b as real - offset) * scale];
      }
      i := i + 1;
    }
    after := buf;
  }

  /** Unsigned and signed reading agree on bytes in [0, 127]; a negative
      byte reads 256 higher unsigned, which after scaling is 256 * scale. */
  lemma UnsignedExceedsSigned(bytes: seq<JavaByte>, scale: real, offset: real)
    ensures forall i :: 0 <= i < |bytes| ==>
      DequantizedValues(bytes, scale, offset, true)[i]
        == DequantizedValues(bytes, scale, offset, false)[i] + (if bytes[i] < 0 then 256.0 * scale else 0.0)
  {
  }

  /** Dequantization is element-wise: it distributes over concatenation. */
  lemma DequantizeDistributes(a: seq<JavaByte>, b: seq<JavaByte>, scale: real, offset: real, unsigned: bool)
    ensures DequantizedValues(a + b, scale, offset, unsigned)
      == DequantizedValues(a, scale, offset, unsigned) + DequantizedValues(b, scale, offset, unsigned)
  {
  }

  /** Worked values: unsigned with the identity transform reads the stored
      byte -56 as 200 and 0 as 0; signed reads -56 as -56; parameters
      normalised from (0, 0) leave byte 10 at 10. */
  lemma DequantizeExamples()
    ensures DequantizedValues([-56, 0], 1.0, 0.0, true) == [200.0, 0.0]
    ensures DequantizedValues([-56], 1.0, 0.0, false) == [-56.0]
    ensures var q := Normalize(0.0, 0.0); DequantizedValues([10], q.scale, q.offset, false) == [10.0]
  {
  }

  /** The smallest and largest integer a byte holds in each mode. */
  function Lo(unsigned: bool): int { if unsigned then 0 else -128 }
  function Hi(unsigned: bool): int { if unsigned then 255 else 127 }

  /** Round-to-nearest quantization as a converter would store a float f:
      q = round(f / scale + offset), clamped to the byte range, and in
      unsigned mode stored as the Java byte with the same low eight bits. */
  ghost function Quantize(f: real, scale: real, offset: real, unsigned: bool): JavaByte
    requires scale > 0.0
  {
    var q := (f / scale + offset + 0.5).Floor;
    var c := if q < Lo(unsigned) then Lo(unsigned) else if q > Hi(unsigned) then Hi(unsigned) else q;
    if unsigned then ToSigned(c) else c
  }

  /** Scaling an error of at most half a unit by a positive step. */
  lemma ScaleHalfUnit(t: real, step: real)
    requires step > 0.0 && -0.5 < t <= 0.5
    ensures -(step / 2.0) < t * step <= step / 2.0
  {
  }

  /** Dequantizing a quantized float in range recovers it within half a
      quantization step. */
  lemma DequantizeInvertsQuantize(f: real, scale: real, offset: real, unsigned: bool)
    requires scale > 0.0
    requires Lo(unsigned) as real - 0.5 <= f / scale + offset < Hi(unsigned) as real + 0.5
    ensures var d := DequantizeByte(Quantize(f, scale, offset, unsigned), scale, offset, unsigned);
      -(scale / 2.0) < d - f <= scale / 2.0
  {
    var y := f / scale + offset;
    var q := (y + 0.5).Floor;
    assert y - 0.5 < q as real <= y + 0.5;
    var b := Quantize(f, scale, offset, unsigned);
    assert StoredValue(b, unsigned) == q;
    var d := DequantizeByte(b, scale, offset, unsigned);
    var t := q as real - y;
    assert f == (y - offset) * scale;
    assert d - f == t * scale;
    ScaleHalfUnit(t, scale);
  }
}
