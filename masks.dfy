/**
 * CIDR prefix masks (section 3.1 of RFC 4632) and address masking, as the
 * handler uses Go's `net.CIDRMask` and `net.IP.Mask`.
 *
 * Bits of a byte sequence are numbered from the most significant bit of the
 * first byte: bit `i` lives in byte `i / 8`, at position `i % 8` from the top.
 */
module Masks {
  import opened Basics

  /** Bit `j` of one byte, counting from the most significant bit. */
  predicate BitOf(b: byte, j: nat)
    requires j < 8
  {
    (b >> (7 - j)) & 1 == 1
  }

  /** Bit `i` of a byte sequence. */
  predicate Bit(s: seq<byte>, i: nat)
    requires i < 8 * |s|
  {
    BitOf(s[i / 8], i % 8)
  }

  /** One byte of a prefix mask with `n` leading ones, written as the library
      writes it: all ones when `n` reaches 8, otherwise `^(0xff >> n)`. */
  function PrefixByte(n: nat): byte
    requires n <= 8
  {
    if n >= 8 then 0xff else !((0xff as byte) >> n)
  }

  /** The byte loop of `net.CIDRMask`: `len` bytes, filled with `n` ones
      from the front, eight at a time, then zeros. */
  function PrefixBytes(n: nat, len: nat): (m: seq<byte>)
    ensures |m| == len
  {
    if len == 0 then []
    else if n >= 8 then [PrefixByte(8)] + PrefixBytes(n - 8, len - 1)
    else [PrefixByte(n)] + PrefixBytes(0, len - 1)
  }

  /** `net.CIDRMask(ones, bits)`: nil (modelled as the empty mask) unless
      `bits` is 32 or 128 and `0 <= ones <= bits`; otherwise the CIDR mask of
      section 3.1 of RFC 4632, `bits / 8` bytes whose first `ones` bits are
      1 and whose remaining bits are 0. */
  function CidrMask(ones: int, bits: int): (m: seq<byte>)
    ensures (bits == 32 || bits == 128) && 0 <= ones <= bits ==>
      |m| * 8 == bits && forall i | 0 <= i < bits :: Bit(m, i) <==> i < ones
    ensures !((bits == 32 || bits == 128) && 0 <= ones <= bits) ==> m == []
  {
    if bits != 32 && bits != 128 then []
    else if ones < 0 || ones > bits then []
    else
      PrefixBytesBits(ones, bits / 8);
      PrefixBytes(ones, bits / 8)
  }

  /** Byte-wise AND of two equally long sequences. */
  function AndBytes(a: seq<byte>, b: seq<byte>): (r: seq<byte>)
    requires |a| == |b|
    ensures |r| == |a|
  {
    seq(|a|, i requires 0 <= i < |a| => a[i] & b[i])
  }

  /** `net.IP.Mask` for the pairs the handler produces (a 4-byte address
      with a 4-byte mask, any other address with a 16-byte mask): the
      byte-wise AND when the lengths agree, nil when they do not. */
  function ApplyMask(ip: seq<byte>, mask: seq<byte>): (r: Option<seq<byte>>)
    ensures r.Some? <==> |ip| == |mask|
    ensures r.Some? ==> |r.value| == |ip|
  {
    if |ip| == |mask| then Some(AndBytes(ip, mask)) else None
  }

  lemma PrefixByteBits(n: nat)
    requires n <= 8
    ensures forall j | 0 <= j < 8 :: BitOf(PrefixByte(n), j) <==> j < n
  {
    if n == 0 {
    } else if n == 1 {
    } else if n == 2 {
    } else if n == 3 {
    } else if n == 4 {
    } else if n == 5 {
    } else if n == 6 {
    } else if n == 7 {
    } else {
    }
  }

  /** `PrefixBytes(n, len)` has exactly `n` leading one-bits (all of them when
      `n` exceeds the length) and zeros after. */
  lemma {:induction false} PrefixBytesBits(n: nat, len: nat)
    ensures forall i | 0 <= i < 8 * len :: Bit(PrefixBytes(n, len), i) <==> i < n
  {
    if len > 0 {
      var m := PrefixBytes(n, len);
      var first := if n >= 8 then 8 else n;
      var rest := if n >= 8 then n - 8 else 0;
      assert m == [PrefixByte(first)] + PrefixBytes(rest, len - 1);
      PrefixBytesBits(rest, len - 1);
      PrefixByteBits(first);
      forall i | 0 <= i < 8 * len
        ensures Bit(m, i) <==> i < n
      {
        if i < 8 {
          assert i / 8 == 0 && i % 8 == i;
        } else {
          var i' := i - 8;
          assert i / 8 == i' / 8 + 1 && i % 8 == i' % 8;
          assert Bit(m, i) == Bit(PrefixBytes(rest, len - 1), i');
        }
      }
    }
  }

  lemma BitOfAnd(a: byte, b: byte, j: nat)
    requires j < 8
    ensures BitOf(a & b, j) <==> BitOf(a, j) && BitOf(b, j)
  {
  }

  /** Masking keeps a bit exactly when both the address and the mask have it:
      it only clears bits and never sets one. */
  lemma ApplyMaskBits(ip: seq<byte>, mask: seq<byte>)
    requires |ip| == |mask|
    ensures ApplyMask(ip, mask).Some?
    ensures forall i | 0 <= i < 8 * |ip| ::
      Bit(ApplyMask(ip, mask).value, i) <==> Bit(ip, i) && Bit(mask, i)
  {
    var r := ApplyMask(ip, mask).value;
    forall i | 0 <= i < 8 * |ip|
      ensures Bit(r, i) <==> Bit(ip, i) && Bit(mask, i)
    {
      BitOfAnd(ip[i / 8], mask[i / 8], i % 8);
    }
  }

  /** Masking an already masked address with the same mask changes nothing. */
  lemma ApplyMaskIdempotent(ip: seq<byte>, mask: seq<byte>)
    requires |ip| == |mask|
    ensures ApplyMask(ApplyMask(ip, mask).value, mask) == ApplyMask(ip, mask)
  {
    var r := ApplyMask(ip, mask).value;
    var r2 := ApplyMask(r, mask).value;
    forall i | 0 <= i < |r|
      ensures r2[i] == r[i]
    {
      var a, m := ip[i], mask[i];
      assert (a & m) & m == a & m;
    }
    assert r2 == r;
  }

  /** The privacy boundary: masking with the CIDR mask of `ones` keeps the
      first `ones` bits of the address and zeroes every host bit after them. */
  lemma CidrMaskedAddressBits(ip: seq<byte>, ones: int, bits: int)
    requires bits == 32 || bits == 128
    requires 0 <= ones <= bits
    requires |ip| * 8 == bits
    ensures ApplyMask(ip, CidrMask(ones, bits)).Some?
    ensures |ApplyMask(ip, CidrMask(ones, bits)).value| == |ip|
    ensures forall i | 0 <= i < bits ::
      Bit(ApplyMask(ip, CidrMask(ones, bits)).value, i) <==> i < ones && Bit(ip, i)
  {
    ApplyMaskBits(ip, CidrMask(ones, bits));
  }
}
