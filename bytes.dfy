/**
 * Fixed-width integers, 32-byte keys and the little-endian encoding that the
 * programs use for every integer they put on the wire or into account data
 * (Rust's `to_le_bytes`, and Borsh's encoding of `u32` / `u64`).
 */
module Bytes {

  type Byte = b: int | 0 <= b < 256
  type U32 = x: int | 0 <= x < 0x1_0000_0000
  type U64 = x: int | 0 <= x < 0x1_0000_0000_0000_0000

  datatype Option<+T> = None | Some(value: T)

  /** n zero bytes: the contents of a freshly allocated account. */
  function Zeros(n: nat): (z: seq<Byte>)
    ensures |z| == n
    ensures forall i :: 0 <= i < n ==> z[i] == 0
  {
    seq(n, _ => 0)
  }

  /** A public key, or any 32-byte identity (`Pubkey`). */
  type Pubkey = k: seq<Byte> | |k| == 32 witness Zeros(32)

  function Pow256(n: nat): (p: nat)
    ensures p >= 1
  {
    if n == 0 then 1 else 256 * Pow256(n - 1)
  }

  /** The n low-order bytes of x, least significant first. */
  function LeBytes(x: nat, n: nat): (s: seq<Byte>)
    ensures |s| == n
  {
    if n == 0 then [] else [x % 256] + LeBytes(x / 256, n - 1)
  }

  /** Zero encodes as zero bytes at every width. */
  lemma {:induction false} LeBytesOfZero(n: nat)
    ensures LeBytes(0, n) == Zeros(n)
  {
    if n > 0 {
      LeBytesOfZero(n - 1);
      assert Zeros(n) == [0] + Zeros(n - 1);
    }
  }

  /** The number whose little-endian encoding is s. */
  function FromLe(s: seq<Byte>): (x: nat)
    ensures x < Pow256(|s|)
  {
    if s == [] then 0
    else
      var rest := FromLe(s[1..]);
      assert rest <= Pow256(|s| - 1) - 1;
      assert 256 * rest <= 256 * Pow256(|s| - 1) - 256;
      s[0] + 256 * rest
  }

  lemma {:induction false} FromLeLeBytes(x: nat, n: nat)
    requires x < Pow256(n)
    ensures FromLe(LeBytes(x, n)) == x
  {
    if n > 0 {
      assert x / 256 < Pow256(n - 1);
      FromLeLeBytes(x / 256, n - 1);
      assert LeBytes(x, n)[1..] == LeBytes(x / 256, n - 1);
    }
  }

  lemma {:induction false} LeBytesFromLe(s: seq<Byte>)
    ensures LeBytes(FromLe(s), |s|) == s
  {
    if s != [] {
      LeBytesFromLe(s[1..]);
      var x := FromLe(s);
      assert x % 256 == s[0] && x / 256 == FromLe(s[1..]);
    }
  }

  /** Two numbers in range have the same n-byte encoding only if they are equal. */
  lemma LeBytesInjective(x: nat, y: nat, n: nat)
    requires x < Pow256(n) && y < Pow256(n)
    requires LeBytes(x, n) == LeBytes(y, n)
    ensures x == y
  {
    FromLeLeBytes(x, n);
    FromLeLeBytes(y, n);
  }

  lemma Pow256Widths()
    ensures Pow256(4) == 0x1_0000_0000
    ensures Pow256(8) == 0x1_0000_0000_0000_0000
  {
    assert Pow256(4) == 256 * 256 * 256 * 256;
  }

  /** `u64::to_le_bytes`. */
  function U64Le(x: U64): (s: seq<Byte>)
    ensures |s| == 8
  {
    LeBytes(x, 8)
  }

  /** `u32::to_le_bytes`. */
  function U32Le(x: U32): (s: seq<Byte>)
    ensures |s| == 4
  {
    LeBytes(x, 4)
  }

  /** `u64::from_le_bytes` on exactly eight bytes. */
  function U64FromLe(s: seq<Byte>): U64
    requires |s| == 8
  {
    Pow256Widths();
    FromLe(s)
  }

  /** `u32::from_le_bytes` on exactly four bytes. */
  function U32FromLe(s: seq<Byte>): U32
    requires |s| == 4
  {
    Pow256Widths();
    FromLe(s)
  }

  /** Decoding an encoded u64 gives it back. */
  lemma U64RoundTrip(x: U64)
    ensures U64FromLe(U64Le(x)) == x
  {
    Pow256Widths();
    FromLeLeBytes(x, 8);
  }

  /** Every eight bytes are the encoding of the u64 they decode to. */
  lemma U64LeFromLe(s: seq<Byte>)
    requires |s| == 8
    ensures U64Le(U64FromLe(s)) == s
  {
    LeBytesFromLe(s);
  }

  /** Decoding an encoded u32 gives it back. */
  lemma U32RoundTrip(x: U32)
    ensures U32FromLe(U32Le(x)) == x
  {
    Pow256Widths();
    FromLeLeBytes(x, 4);
  }

  /** Every four bytes are the encoding of the u32 they decode to. */
  lemma U32LeFromLe(s: seq<Byte>)
    requires |s| == 4
    ensures U32Le(U32FromLe(s)) == s
  {
    LeBytesFromLe(s);
  }

  /** Eight zero bytes decode to 0. */
  lemma U64FromZeros()
    ensures U64FromLe(Zeros(8)) == 0
  {
    LeBytesOfZero(8);
    U64RoundTrip(0);
  }

  /** Distinct u64 values have distinct encodings. */
  lemma U64LeInjective(x: U64, y: U64)
    ensures U64Le(x) == U64Le(y) <==> x == y
  {
    U64RoundTrip(x);
    U64RoundTrip(y);
  }
}
