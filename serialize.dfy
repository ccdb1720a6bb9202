/**
 * The byte image written by `VersionedSerializedWriter` and read back by
 * `VersionedSerializedReader`: every value is written as its raw memory
 * bytes, least significant byte first (the target is little-endian), with
 * no tags and no length prefixes. A read that runs past the end of the
 * stream yields `None`.
 */
module Serialize {
  import opened BitField
  import opened Values

  type Byte = b: int | 0 <= b < 256

  /** A value read from the front of a stream, and the bytes after it. */
  datatype Decoded<T> = Decoded(value: T, rest: seq<Byte>)

  //----------------------------------------
  // Integers
  //----------------------------------------

  /** A `uint8_t`. */
  function EncodeU8(x: int): (r: seq<Byte>)
    requires 0 <= x < 256
    ensures |r| == 1
  {
    [x]
  }

  function DecodeU8(data: seq<Byte>): (r: Option<Decoded<int>>)
    ensures r.Some? <==> |data| >= 1
    ensures r.Some? ==> 0 <= r.value.value < 256 && r.value.rest == data[1..]
  {
    if |data| < 1 then None else Some(Decoded(data[0] as int, data[1..]))
  }

  /** An `int8_t`: its two's complement byte. */
  function EncodeI8(x: int): (r: seq<Byte>)
    requires -128 <= x < 128
    ensures |r| == 1
  {
    [x % 256]
  }

  function DecodeI8(data: seq<Byte>): (r: Option<Decoded<int>>)
    ensures r.Some? <==> |data| >= 1
    ensures r.Some? ==> -128 <= r.value.value < 128 && r.value.rest == data[1..]
  {
    if |data| < 1 then None
    else Some(Decoded(if data[0] >= 128 then data[0] as int - 256 else data[0] as int, data[1..]))
  }

  /** A `uint16_t`, low byte first. */
  function EncodeU16(x: int): (r: seq<Byte>)
    requires 0 <= x < 0x1_0000
    ensures |r| == 2
  {
    [x % 256, x / 256]
  }

  function DecodeU16(data: seq<Byte>): (r: Option<Decoded<int>>)
    ensures r.Some? <==> |data| >= 2
    ensures r.Some? ==> 0 <= r.value.value < 0x1_0000 && r.value.rest == data[2..]
  {
    if |data| < 2 then None else Some(Decoded(data[0] as int + 256 * (data[1] as int), data[2..]))
  }

  lemma U8RoundTrip(x: int, rest: seq<Byte>)
    requires 0 <= x < 256
    ensures DecodeU8(EncodeU8(x) + rest) == Some(Decoded(x, rest))
  {
    assert (EncodeU8(x) + rest)[1..] == rest;
  }

  lemma I8RoundTrip(x: int, rest: seq<Byte>)
    requires -128 <= x < 128
    ensures DecodeI8(EncodeI8(x) + rest) == Some(Decoded(x, rest))
  {
    assert (EncodeI8(x) + rest)[1..] == rest;
  }

  lemma U16RoundTrip(x: int, rest: seq<Byte>)
    requires 0 <= x < 0x1_0000
    ensures DecodeU16(EncodeU16(x) + rest) == Some(Decoded(x, rest))
  {
    assert (EncodeU16(x) + rest)[2..] == rest;
  }

  //----------------------------------------
  // Packed words
  //----------------------------------------

  /** The bytes of a packed word (its bits, least significant first), low byte first. */
  function EncodeBits(w: seq<bool>): (r: seq<Byte>)
    requires |w| % 8 == 0
    ensures |r| == |w| / 8
    decreases |w|
  {
    if |w| == 0 then [] else [FromBits(w[..8]) as Byte] + EncodeBits(w[8..])
  }

  /** Reads `n` bytes as the bits of a packed word. */
  function DecodeBits(data: seq<Byte>, n: nat): (r: Option<Decoded<seq<bool>>>)
    ensures r.Some? <==> |data| >= n
    ensures r.Some? ==> |r.value.value| == 8 * n && r.value.rest == data[n..]
    decreases n
  {
    if |data| < n then None
    else if n == 0 then Some(Decoded([], data))
    else
      var tail := DecodeBits(data[1..], n - 1).value;
      Some(Decoded(ToBits(data[0], 8) + tail.value, tail.rest))
  }

  /** A packed word written and read back with the same width is the same word. */
  lemma {:induction false} BitsRoundTrip(w: seq<bool>, rest: seq<Byte>)
    requires |w| % 8 == 0
    ensures DecodeBits(EncodeBits(w) + rest, |w| / 8) == Some(Decoded(w, rest))
    decreases |w|
  {
    if |w| > 0 {
      var data := EncodeBits(w) + rest;
      var n := |w| / 8;
      assert data[0] == FromBits(w[..8]);
      assert data[1..] == EncodeBits(w[8..]) + rest;
      BitsRoundTrip(w[8..], rest);
      assert DecodeBits(data[1..], n - 1) == Some(Decoded(w[8..], rest));
      ToFromBits(w[..8]);
      assert ToBits(data[0], 8) == w[..8];
      assert w == w[..8] + w[8..];
    }
  }

  /** Bytes read as a packed word and written back are the same bytes. */
  lemma {:induction false} BytesRoundTrip(data: seq<Byte>, n: nat)
    requires |data| >= n
    ensures EncodeBits(DecodeBits(data, n).value.value) == data[..n]
    decreases n
  {
    if n > 0 {
      var tail := DecodeBits(data[1..], n - 1).value.value;
      BytesRoundTrip(data[1..], n - 1);
      var w := DecodeBits(data, n).value.value;
      assert w == ToBits(data[0], 8) + tail;
      assert w[..8] == ToBits(data[0], 8) && w[8..] == tail;
      assert Pow2(8) == 256;
      FromToBits(data[0], 8);
      assert data[..n] == [data[0]] + data[1..][..n - 1];
    }
  }

  /** Two packed words written one after the other read back in order. */
  lemma TwoWordsRoundTrip(a: seq<bool>, b: seq<bool>, rest: seq<Byte>)
    requires |a| % 8 == 0 && |b| % 8 == 0
    ensures var x := DecodeBits(EncodeBits(a) + EncodeBits(b) + rest, |a| / 8);
      && x == Some(Decoded(a, EncodeBits(b) + rest))
      && DecodeBits(x.value.rest, |b| / 8) == Some(Decoded(b, rest))
  {
    assert EncodeBits(a) + EncodeBits(b) + rest == EncodeBits(a) + (EncodeBits(b) + rest);
    BitsRoundTrip(a, EncodeBits(b) + rest);
    BitsRoundTrip(b, rest);
  }

  /** Two words read one after the other and written back are the bytes they were read from. */
  lemma TwoWordsBytesRoundTrip(data: seq<Byte>, n: nat, m: nat)
    requires |data| >= n + m
    ensures var x := DecodeBits(data, n).value;
      var y := DecodeBits(x.rest, m).value;
      EncodeBits(x.value) + EncodeBits(y.value) == data[..n + m]
  {
    var x := DecodeBits(data, n).value;
    BytesRoundTrip(data, n);
    BytesRoundTrip(x.rest, m);
    assert data[..n + m] == data[..n] + data[n..][..m];
  }

  /** Reading `n` bytes consumes exactly the first `n` bytes, whatever follows. */
  lemma {:induction false} DecodeBitsPrefix(data: seq<Byte>, n: nat, rest: seq<Byte>)
    requires |data| == n
    ensures DecodeBits(data + rest, n).Some?
    ensures DecodeBits(data + rest, n).value.value == DecodeBits(data, n).value.value
    ensures DecodeBits(data + rest, n).value.rest == rest
    decreases n
  {
    if n > 0 {
      assert (data + rest)[1..] == data[1..] + rest;
      DecodeBitsPrefix(data[1..], n - 1, rest);
    }
  }

  //----------------------------------------
  // Arrays
  //----------------------------------------

  /** `writeArray`: every value in index order, each written by `write`. */
  function WriteArray<T>(xs: seq<T>, write: T -> seq<Byte>): seq<Byte> {
    if |xs| == 0 then [] else write(xs[0]) + WriteArray(xs[1..], write)
  }

  /** With a fixed-size writer, an array takes its length times that size. */
  lemma {:induction false} WriteArraySize<T>(xs: seq<T>, write: T -> seq<Byte>, size: nat)
    requires forall x :: |write(x)| == size
    ensures |WriteArray(xs, write)| == |xs| * size
  {
    if |xs| > 0 {
      WriteArraySize(xs[1..], write, size);
      NextMultiple(|xs| - 1, size);
    }
  }

  /** `readArray`: `count` values in index order, each taken by `read` from what the previous one left. */
  function ReadArray<T>(data: seq<Byte>, count: nat, read: seq<Byte> -> Option<Decoded<T>>)
    : (r: Option<Decoded<seq<T>>>)
    ensures r.Some? ==> |r.value.value| == count
    decreases count
  {
    if count == 0 then Some(Decoded([], data))
    else
      var first :- read(data);
      var others :- ReadArray(first.rest, count - 1, read);
      Some(Decoded([first.value] + others.value, others.rest))
  }

  /** A reader that consumes exactly `size` bytes and fails only on shorter input. */
  ghost predicate FixedSize<T>(read: seq<Byte> -> Option<Decoded<T>>, size: nat) {
    forall d :: (read(d).Some? <==> |d| >= size) && (read(d).Some? ==> read(d).value.rest == d[size..])
  }

  /** One more value of `size` bytes takes `size` more bytes. */
  lemma NextMultiple(n: nat, size: nat)
    ensures 0 <= n * size && (n + 1) * size == size + n * size
  {
  }

  /** With a fixed-size reader, an array takes `count` times that size and fails only on shorter input. */
  lemma {:induction false} ReadArraySize<T>(data: seq<Byte>, count: nat, read: seq<Byte> -> Option<Decoded<T>>, size: nat)
    requires FixedSize(read, size)
    ensures var r := ReadArray(data, count, read);
      && (r.Some? <==> |data| >= count * size)
      && (r.Some? ==> r.value.rest == data[count * size..])
    decreases count
  {
    if count > 0 {
      var total, others := count * size, (count - 1) * size;
      NextMultiple(count - 1, size);
      if |data| >= size {
        var first := read(data).value;
        assert first.rest == data[size..];
        ReadArraySize(first.rest, count - 1, read, size);
        if |data| >= total {
          assert first.rest[others..] == data[total..];
        }
      }
    }
  }

  /** When `read` undoes `write` value by value, it undoes `writeArray` array by array. */
  lemma {:induction false} ArrayRoundTrip<T>(xs: seq<T>, rest: seq<Byte>, write: T -> seq<Byte>,
                                             read: seq<Byte> -> Option<Decoded<T>>)
    requires forall x, r :: read(write(x) + r) == Some(Decoded(x, r))
    ensures ReadArray(WriteArray(xs, write) + rest, |xs|, read) == Some(Decoded(xs, rest))
  {
    if |xs| > 0 {
      var others := WriteArray(xs[1..], write) + rest;
      ConcatAssoc(write(xs[0]), WriteArray(xs[1..], write), rest);
      assert read(write(xs[0]) + others) == Some(Decoded(xs[0], others));
      ArrayRoundTrip(xs[1..], rest, write, read);
      assert [xs[0]] + xs[1..] == xs;
    } else {
      assert WriteArray(xs, write) + rest == rest;
    }
  }
}
