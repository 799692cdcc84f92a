/** Byte-level encodings: big-endian integers, ASCII text and hex, each with the decoder that
    takes it off the front of a buffer. */
module Bytes {
  import opened Wrappers

  type Byte = b: int | 0 <= b < 256
  type Buffer = seq<Byte>

  /** What a decoder took off the front, and what is left. */
  datatype Taken<+T> = Taken(value: T, rest: Buffer)

  // ── Fixed blocks ─────────────────────────────────────────────────────────

  function TakeBlock(b: Buffer, n: nat): Option<Taken<Buffer>> {
    if |b| < n then None else Some(Taken(b[..n], b[n..]))
  }

  lemma TakesBlock(block: Buffer, rest: Buffer)
    ensures TakeBlock(block + rest, |block|) == Some(Taken(block, rest))
  {
    assert (block + rest)[..|block|] == block && (block + rest)[|block|..] == rest;
  }

  // ── Big-endian integers ──────────────────────────────────────────────────

  function Pow256(n: nat): (p: nat)
    ensures p > 0
  {
    if n == 0 then 1 else 256 * Pow256(n - 1)
  }

  function BigEndian(v: nat, width: nat): (b: Buffer)
    ensures |b| == width
  {
    if width == 0 then [] else BigEndian(v / 256, width - 1) + [v % 256]
  }

  function FromBigEndian(b: Buffer): nat {
    if b == [] then 0 else 256 * FromBigEndian(b[..|b| - 1]) + b[|b| - 1]
  }

  lemma {:induction false} BigEndianReads(v: nat, width: nat)
    requires v < Pow256(width)
    ensures FromBigEndian(BigEndian(v, width)) == v
  {
    if width > 0 {
      assert v / 256 < Pow256(width - 1);
      BigEndianReads(v / 256, width - 1);
      var b := BigEndian(v, width);
      assert b[..|b| - 1] == BigEndian(v / 256, width - 1);
    }
  }

  function TakeInt(b: Buffer, width: nat): Option<Taken<nat>> {
    match TakeBlock(b, width)
    case None => None
    case Some(t) => Some(Taken(FromBigEndian(t.value), t.rest))
  }

  lemma TakesInt(v: nat, width: nat, rest: Buffer)
    requires v < Pow256(width)
    ensures TakeInt(BigEndian(v, width) + rest, width) == Some(Taken(v, rest))
  {
    BigEndianReads(v, width);
    TakesBlock(BigEndian(v, width), rest);
  }

  // ── Text ─────────────────────────────────────────────────────────────────

  /** One byte a character in UTF-8. */
  predicate Ascii(s: string) {
    forall i :: 0 <= i < |s| ==> s[i] as int < 128
  }

  function TextBytes(s: string): (b: Buffer)
    requires Ascii(s)
    ensures |b| == |s|
  {
    seq(|s|, i requires 0 <= i < |s| => s[i] as int)
  }

  function TextOf(b: Buffer): string {
    seq(|b|, i requires 0 <= i < |b| => b[i] as char)
  }

  lemma TextReads(s: string)
    requires Ascii(s)
    ensures TextOf(TextBytes(s)) == s
  {
  }

  // ── Hex ──────────────────────────────────────────────────────────────────

  predicate IsLowerHex(c: char) {
    '0' <= c <= '9' || 'a' <= c <= 'f'
  }

  predicate IsHexChar(c: char) {
    '0' <= c <= '9' || 'a' <= c <= 'f' || 'A' <= c <= 'F'
  }

  predicate IsHex(s: string) {
    forall i :: 0 <= i < |s| ==> IsHexChar(s[i])
  }

  predicate IsHex64(s: string) {
    |s| == 64 && IsHex(s)
  }

  function LowerChar(c: char): char {
    if 'A' <= c <= 'Z' then (c as int + 32) as char else c
  }

  function Lower(s: string): (r: string)
    ensures |r| == |s|
  {
    seq(|s|, i requires 0 <= i < |s| => LowerChar(s[i]))
  }

  function Nibble(c: char): (v: nat)
    requires IsHexChar(c)
    ensures v < 16
  {
    if c <= '9' then c as int - '0' as int
    else if c <= 'F' then c as int - 'A' as int + 10
    else c as int - 'a' as int + 10
  }

  function HexChar(v: nat): char
    requires v < 16
  {
    if v < 10 then ('0' as int + v) as char else ('a' as int + v - 10) as char
  }

  /** Whole pairs only: a last odd digit is dropped. */
  function HexBytes(s: string): (b: Buffer)
    requires IsHex(s)
    ensures |b| == |s| / 2
  {
    seq(|s| / 2, i requires 0 <= i < |s| / 2 => 16 * Nibble(s[2 * i]) + Nibble(s[2 * i + 1]))
  }

  function HexOf(b: Buffer): (s: string)
    ensures |s| == 2 * |b|
  {
    seq(2 * |b|, i requires 0 <= i < 2 * |b| => HexChar(if i % 2 == 0 then b[i / 2] / 16 else b[i / 2] % 16))
  }

  function WholePairs(s: string): string {
    s[..2 * (|s| / 2)]
  }

  lemma PairReads(a: char, b: char)
    requires IsHexChar(a) && IsHexChar(b)
    ensures HexChar((16 * Nibble(a) + Nibble(b)) / 16) == LowerChar(a)
    ensures HexChar((16 * Nibble(a) + Nibble(b)) % 16) == LowerChar(b)
  {
    assert (16 * Nibble(a) + Nibble(b)) / 16 == Nibble(a);
  }

  lemma HexReads(s: string)
    requires IsHex(s)
    ensures HexOf(HexBytes(s)) == Lower(WholePairs(s))
  {
    hide HexChar, Nibble, LowerChar;
    var r := HexOf(HexBytes(s));
    forall i | 0 <= i < |r|
      ensures r[i] == LowerChar(s[i])
    {
      var k := i / 2;
      PairReads(s[2 * k], s[2 * k + 1]);
      if i % 2 == 0 {
        assert i == 2 * k;
      } else {
        assert i == 2 * k + 1;
      }
    }
  }

  lemma LowerKeepsHex(s: string)
    requires IsHex(s)
    ensures IsHex(Lower(s)) && Ascii(Lower(s)) && Lower(Lower(s)) == Lower(s)
    ensures HexBytes(Lower(s)) == HexBytes(s)
  {
  }
}
