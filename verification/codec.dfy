/**
 Bytes, big-endian numbers and the two's-complement view of a 64-bit integer, as
 encoding/binary writes and reads them.
 */
module Codec {

  type Byte = x: int | 0 <= x < 256
  type Bytes = seq<Byte>

  const U32 := 0x1_0000_0000
  const U63 := 0x8000_0000_0000_0000
  const U64 := 0x1_0000_0000_0000_0000

  /** The low `width` bytes of n, most significant first: conversion to the width truncates. */
  function BE(n: nat, width: nat): (r: Bytes)
    ensures |r| == width
  {
    if width == 0 then [] else BE(n / 256, width - 1) + [n % 256]
  }

  function UnBE(s: Bytes): nat {
    if s == [] then 0 else UnBE(s[..|s| - 1]) * 256 + s[|s| - 1]
  }

  function Pow256(width: nat): nat {
    if width == 0 then 1 else 256 * Pow256(width - 1)
  }

  lemma {:induction false} UnBEofBE(n: nat, width: nat)
    requires n < Pow256(width)
    ensures UnBE(BE(n, width)) == n
  {
    if width > 0 {
      UnBEofBE(n / 256, width - 1);
      assert BE(n, width)[..width - 1] == BE(n / 256, width - 1);
    }
  }

  lemma {:induction false} UnBEBound(s: Bytes)
    ensures UnBE(s) < Pow256(|s|)
  {
    if s != [] {
      UnBEBound(s[..|s| - 1]);
    }
  }

  lemma {:induction false} BEofUnBE(s: Bytes)
    ensures BE(UnBE(s), |s|) == s
  {
    if s != [] {
      var rest, last := s[..|s| - 1], s[|s| - 1];
      BEofUnBE(rest);
      assert UnBE(s) == UnBE(rest) * 256 + last;
      assert UnBE(s) / 256 == UnBE(rest) && UnBE(s) % 256 == last;
      assert s == rest + [last];
    }
  }

  lemma Widths()
    ensures Pow256(4) == U32 && Pow256(8) == U64
  {
    assert Pow256(2) == 0x1_0000;
    assert Pow256(4) == U32;
    assert Pow256(6) == 0x1_0000_0000_0000;
  }

  lemma ReadU32(n: nat)
    requires n < U32
    ensures UnBE(BE(n, 4)) == n
  {
    Widths();
    UnBEofBE(n, 4);
  }

  lemma ReadU64(n: nat)
    requires n < U64
    ensures UnBE(BE(n, 8)) == n
  {
    Widths();
    UnBEofBE(n, 8);
  }

  lemma FieldAt(pre: Bytes, field: Bytes, post: Bytes, at: nat, end: nat)
    requires at == |pre| && end == |pre| + |field|
    ensures (pre + field + post)[at..end] == field
  {
  }

  /** An int64 as the uint64 with the same bits. */
  function Unsigned(t: int): (r: nat)
    requires -U63 <= t < U63
    ensures r < U64
  {
    if t >= 0 then t else t + U64
  }

  function Signed(u: nat): int {
    if u < U63 then u else u - U64
  }
}
