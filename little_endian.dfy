/** Little-endian encoding of unsigned integers into bytes, as Rust's
    `u64::to_le_bytes` and `u64::from_le_bytes` do it. */
module LittleEndian {

  /** A Rust `u8`. */
  type Byte = b: int | 0 <= b < 256

  /** A Rust `u64`. */
  type U64 = x: int | 0 <= x < 0x1_0000_0000_0000_0000

  /** 256 to the power n: one more than the largest value n bytes can hold. */
  function Pow256(n: nat): (r: nat)
    ensures r > 0
  {
    if n == 0 then 1 else 256 * Pow256(n - 1)
  }

  /** Eight bytes hold exactly the `u64` range. */
  lemma Pow256Eight()
    ensures Pow256(8) == 0x1_0000_0000_0000_0000
  {
  }

  /** The n low-order bytes of x, least significant first. */
  function ToLE(x: nat, n: nat): (r: seq<Byte>)
    ensures |r| == n
  {
    if n == 0 then [] else [x % 256] + ToLE(x / 256, n - 1)
  }

  /** The number whose little-endian bytes are s. */
  function FromLE(s: seq<Byte>): nat
  {
    if s == [] then 0 else s[0] + 256 * FromLE(s[1..])
  }

  /** n bytes hold values below 256^n. */
  lemma {:induction false} FromLEBound(s: seq<Byte>)
    ensures FromLE(s) < Pow256(|s|)
  {
    if s != [] {
      var rest := FromLE(s[1..]);
      FromLEBound(s[1..]);
      assert rest <= Pow256(|s| - 1) - 1;
      assert 256 * rest <= 256 * Pow256(|s| - 1) - 256;
    }
  }

  /** `u64::to_le_bytes`. */
  function EncodeU64(x: U64): (r: seq<Byte>)
    ensures |r| == 8
  {
    ToLE(x, 8)
  }

  /** `u64::from_le_bytes` on an 8-byte slice: the value whose
      `to_le_bytes` is that slice. */
  function DecodeU64(s: seq<Byte>): (r: U64)
    requires |s| == 8
    ensures EncodeU64(r) == s
  {
    Pow256Eight();
    FromLEBound(s);
    ToFromLE(s);
    FromLE(s)
  }

  /** Encoding x into n bytes and decoding them gives x back whenever x fits. */
  lemma {:induction false} FromToLE(x: nat, n: nat)
    requires x < Pow256(n)
    ensures FromLE(ToLE(x, n)) == x
  {
    if n > 0 {
      var s := ToLE(x, n);
      assert s[0] == x % 256 && s[1..] == ToLE(x / 256, n - 1);
      FromToLE(x / 256, n - 1);
    }
  }

  /** Decoding s and encoding the value into |s| bytes gives s back. */
  lemma {:induction false} ToFromLE(s: seq<Byte>)
    ensures ToLE(FromLE(s), |s|) == s
  {
    if s != [] {
      var x := FromLE(s);
      assert x % 256 == s[0] && x / 256 == FromLE(s[1..]);
      ToFromLE(s[1..]);
    }
  }

  /** `from_le_bytes(to_le_bytes(x)) == x`. */
  lemma DecodeEncodeU64(x: U64)
    ensures DecodeU64(EncodeU64(x)) == x
  {
    Pow256Eight();
    FromToLE(x, 8);
  }

  /** Distinct 8-byte slices decode to distinct values. */
  lemma DecodeU64Injective(a: seq<Byte>, b: seq<Byte>)
    requires |a| == 8 && |b| == 8
    ensures DecodeU64(a) == DecodeU64(b) <==> a == b
  {
  }

  /** Slicing facts used by the word codec, stated apart from it so that each
      is proved without the codec's definitions in view. */
  lemma SliceOfConcatLeft<T>(a: seq<T>, b: seq<T>, lo: nat, hi: nat)
    requires lo <= hi <= |a|
    ensures (a + b)[lo..hi] == a[lo..hi]
  {
  }

  lemma SliceOfConcatRight<T>(a: seq<T>, b: seq<T>, lo: nat, hi: nat)
    requires lo <= hi <= |b|
    ensures (a + b)[|a| + lo..|a| + hi] == b[lo..hi]
  {
  }

  lemma SliceOfTake<T>(s: seq<T>, k: nat, lo: nat, hi: nat)
    requires lo <= hi <= k <= |s|
    ensures s[..k][lo..hi] == s[lo..hi]
  {
  }

  lemma SliceOfDrop<T>(s: seq<T>, k: nat, lo: nat, hi: nat)
    requires k + lo <= k + hi <= |s|
    ensures s[k..][lo..hi] == s[k + lo..k + hi]
  {
  }

  /** Values written one after another, each as 8 little-endian bytes. */
  function EncodeU64s(xs: seq<U64>): (r: seq<Byte>)
    ensures |r| == 8 * |xs|
  {
    if xs == [] then [] else EncodeU64(xs[0]) + EncodeU64s(xs[1..])
  }

  /** Appending one word to the values appends its eight bytes to the encoding. */
  lemma {:induction false} EncodeU64sSnoc(xs: seq<U64>, x: U64)
    ensures EncodeU64s(xs + [x]) == EncodeU64s(xs) + EncodeU64(x)
  {
    if xs == [] {
      assert [x][1..] == [];
    } else {
      assert (xs + [x])[1..] == xs[1..] + [x];
      EncodeU64sSnoc(xs[1..], x);
    }
  }

  /** A buffer read as consecutive 8-byte little-endian words. */
  function DecodeU64s(s: seq<Byte>): (r: seq<U64>)
    requires |s| % 8 == 0
    ensures |r| == |s| / 8
  {
    if s == [] then [] else [DecodeU64(s[..8])] + DecodeU64s(s[8..])
  }

  /** The i-th word of an encoding occupies bytes 8i to 8i+7. */
  lemma {:induction false} EncodeU64sAt(xs: seq<U64>, i: nat)
    requires i < |xs|
    ensures EncodeU64s(xs)[8 * i..8 * i + 8] == EncodeU64(xs[i])
  {
    if i > 0 {
      EncodeU64sAt(xs[1..], i - 1);
      SliceOfConcatRight(EncodeU64(xs[0]), EncodeU64s(xs[1..]), 8 * (i - 1), 8 * (i - 1) + 8);
    } else {
      SliceOfConcatLeft(EncodeU64(xs[0]), EncodeU64s(xs[1..]), 0, 8);
    }
  }

  /** The i-th decoded word is the decoding of bytes 8i to 8i+7. */
  lemma {:induction false} DecodeU64sAt(s: seq<Byte>, i: nat)
    requires |s| % 8 == 0 && i < |s| / 8
    ensures DecodeU64s(s)[i] == DecodeU64(s[8 * i..8 * i + 8])
  {
    if i > 0 {
      DecodeU64sAt(s[8..], i - 1);
      SliceOfDrop(s, 8, 8 * (i - 1), 8 * (i - 1) + 8);
    }
  }

  /** Round trips of the word codec, in both directions. */
  lemma {:induction false} U64sRoundTrip(xs: seq<U64>)
    ensures DecodeU64s(EncodeU64s(xs)) == xs
  {
    if xs != [] {
      var e, first := EncodeU64s(xs), EncodeU64(xs[0]);
      assert e == first + EncodeU64s(xs[1..]);
      assert e[..8] == first && e[8..] == EncodeU64s(xs[1..]);
      DecodeEncodeU64(xs[0]);
      U64sRoundTrip(xs[1..]);
    }
  }

  lemma {:induction false} U64sRoundTripBytes(s: seq<Byte>)
    requires |s| % 8 == 0
    ensures EncodeU64s(DecodeU64s(s)) == s
  {
    if s != [] {
      var d := DecodeU64s(s);
      assert d[0] == DecodeU64(s[..8]) && d[1..] == DecodeU64s(s[8..]);
      U64sRoundTripBytes(s[8..]);
      assert s == s[..8] + s[8..];
    }
  }

  /** Whatever follows an encoding, its i-th 8-byte chunk is the i-th word's
      encoding, and decodes to that word. */
  lemma ChunkAt(xs: seq<U64>, tail: seq<Byte>, i: nat)
    requires i < |xs|
    ensures (EncodeU64s(xs) + tail)[8 * i..8 * i + 8] == EncodeU64(xs[i])
  {
    var e := EncodeU64s(xs);
    SliceOfConcatLeft(e, tail, 8 * i, 8 * i + 8);
    EncodeU64sAt(xs, i);
    assert (e + tail)[8 * i..8 * i + 8] == e[8 * i..8 * i + 8] == EncodeU64(xs[i]);
  }

  lemma DecodeWordAt(xs: seq<U64>, tail: seq<Byte>, i: nat)
    requires i < |xs|
    ensures DecodeU64((EncodeU64s(xs) + tail)[8 * i..8 * i + 8]) == xs[i]
  {
    ChunkAt(xs, tail, i);
    DecodeEncodeU64(xs[i]);
  }
}
