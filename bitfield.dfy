/**
 * Bit fields inside an unsigned machine word.
 *
 * A packed step word (`uint32_t` or `uint16_t`) is modelled as its sequence
 * of bits, least significant bit first. A field of `bits` bits at offset
 * `off` is the slice `w[off..off + bits]` read as an unsigned number;
 * assigning to a `BitField<T, off, bits>` member of a word union replaces
 * that slice with the low `bits` bits of the value and keeps every other bit.
 */
module BitField {

  /** 2 to the power n. */
  function Pow2(n: nat): (r: nat)
    ensures r >= 1
  {
    if n == 0 then 1 else 2 * Pow2(n - 1)
  }

  /** The unsigned number a bit sequence holds, least significant bit first. */
  function FromBits(b: seq<bool>): (r: nat)
    ensures r < Pow2(|b|)
  {
    if |b| == 0 then 0 else (if b[0] then 1 else 0) + 2 * FromBits(b[1..])
  }

  /**
   * The low `n` bits of `v`, least significant first; a negative `v` is
   * taken in two's complement, as a conversion to an unsigned type does.
   */
  function ToBits(v: int, n: nat): (r: seq<bool>)
    ensures |r| == n
    decreases n
  {
    if n == 0 then [] else [v % 2 == 1] + ToBits(v / 2, n - 1)
  }

  /** `n` cleared bits. */
  function Zeros(n: nat): (r: seq<bool>)
    ensures |r| == n && forall i :: 0 <= i < n ==> !r[i]
  {
    seq(n, i => false)
  }

  type Word32 = w: seq<bool> | |w| == 32 witness Zeros(32)
  type Word16 = w: seq<bool> | |w| == 16 witness Zeros(16)

  /** Storing a value that fits and reading it back gives the value. */
  lemma {:induction false} FromToBits(v: int, n: nat)
    requires 0 <= v < Pow2(n)
    ensures FromBits(ToBits(v, n)) == v
  {
    if n > 0 {
      FromToBits(v / 2, n - 1);
      assert ToBits(v, n)[1..] == ToBits(v / 2, n - 1);
    }
  }

  /** Reading a bit sequence and storing the number back gives the same bits. */
  lemma {:induction false} ToFromBits(b: seq<bool>)
    ensures ToBits(FromBits(b), |b|) == b
  {
    if |b| > 0 {
      ToFromBits(b[1..]);
      var v := FromBits(b);
      assert v % 2 == 1 <==> b[0];
      assert v / 2 == FromBits(b[1..]);
    }
  }

  /** Cleared bits read as zero. */
  lemma {:induction false} FromZeros(n: nat)
    ensures FromBits(Zeros(n)) == 0
  {
    if n > 0 {
      assert Zeros(n)[1..] == Zeros(n - 1);
      FromZeros(n - 1);
    }
  }

  /** Two bit strings of one length with the same value are the same bits. */
  lemma FromBitsInjective(x: seq<bool>, y: seq<bool>)
    requires |x| == |y| && FromBits(x) == FromBits(y)
    ensures x == y
  {
    ToFromBits(x);
    ToFromBits(y);
  }

  /** The bits of zero are all clear. */
  lemma {:induction false} ToBitsZero(n: nat)
    ensures ToBits(0, n) == Zeros(n)
  {
    if n > 0 {
      ToBitsZero(n - 1);
    }
  }

  //----------------------------------------
  // Words of consecutive fields
  //----------------------------------------

  /** A flag stored in a one-bit field. */
  function Bit(b: bool): int {
    if b then 1 else 0
  }

  /**
   * A field of `n` bits holding the low bits of `x` at the bottom of a
   * word, with the bits of the fields above it following: a word union
   * is the nesting of `Put` over its fields, lowest field first.
   */
  function Put(x: int, n: nat, above: seq<bool>): (r: seq<bool>)
    ensures |r| == n + |above|
  {
    ToBits(x, n) + above
  }

  /**
   * Reading back the field that `w[off..]` starts with: a value that fits
   * reads back unchanged, and the fields above start `n` bits later.
   */
  lemma GetPut(w: seq<bool>, off: nat, x: int, n: nat, above: seq<bool>)
    requires off + n + |above| == |w| && w[off..] == Put(x, n, above)
    requires 0 <= x < Pow2(n)
    ensures FromBits(w[off..off + n]) == x
    ensures w[off + n..] == above
  {
    assert w[off..off + n] == w[off..][..n] == ToBits(x, n);
    assert w[off + n..] == w[off..][n..];
    FromToBits(x, n);
  }

  /** Every word is the field at `off` put below the bits above it. */
  lemma PutGet(w: seq<bool>, off: nat, n: nat)
    requires off + n <= |w|
    ensures w[off..] == Put(FromBits(w[off..off + n]), n, w[off + n..])
  {
    ToFromBits(w[off..off + n]);
    assert w[off..] == w[off..off + n] + w[off + n..];
  }

  /** A one-bit field reads as the flag it holds. */
  lemma BitField1(w: seq<bool>, off: nat)
    requires off < |w|
    ensures FromBits(w[off..off + 1]) == Bit(w[off])
  {
    assert w[off..off + 1][1..] == [];
  }

  /** A slice of a word widened with cleared bits. */
  lemma SliceOfPadded(w: seq<bool>, m: nat, i: nat, j: nat)
    requires i <= j <= |w| + m
    ensures j <= |w| ==> (w + Zeros(m))[i..j] == w[i..j]
    ensures |w| <= i ==> (w + Zeros(m))[i..j] == Zeros(j - i)
    ensures i <= |w| <= j ==> (w + Zeros(m))[i..j] == w[i..] + Zeros(j - |w|)
  {
  }

  /** Cleared bits above a value do not change it. */
  lemma {:induction false} FromBitsPadded(w: seq<bool>, m: nat)
    ensures FromBits(w + Zeros(m)) == FromBits(w)
  {
    if |w| == 0 {
      assert w + Zeros(m) == Zeros(m);
      FromZeros(m);
    } else {
      assert (w + Zeros(m))[1..] == w[1..] + Zeros(m);
      FromBitsPadded(w[1..], m);
    }
  }
}
