/** Bytes, 32-bit words and their little-endian encoding. */
module Bytes {
  import opened Bits

  type Byte = b: int | 0 <= b < 0x100
  type Word = w: int | 0 <= w < 0x1_0000_0000

  /** The size of a page, and that of a thread's IPC buffer. */
  const PAGE: nat := 0x1000
  const IPC_BYTES: nat := 0x100

  /** The value of four bytes, each counting 0x100 times as much as the one before it. */
  function Value(b: seq<Byte>): int
    requires |b| == 4
  {
    var b0: int, b1: int, b2: int, b3: int := b[0], b[1], b[2], b[3];
    b0 + 0x100 * b1 + 0x1_0000 * b2 + 0x100_0000 * b3
  }

  /** The four bytes of a word, least significant first. */
  function Encode(w: Word): (r: seq<Byte>)
    ensures |r| == 4 && Value(r) == w
  {
    WordDigits(w);
    [w % 0x100, w / 0x100 % 0x100, w / 0x1_0000 % 0x100, w / 0x100_0000]
  }

  /** The word held by four bytes, least significant first. */
  function Decode(b: seq<Byte>): (w: Word)
    requires |b| == 4
    ensures w == Value(b)
  {
    var b0: int, b1: int, b2: int, b3: int := b[0], b[1], b[2], b[3];
    b0 + b1 * 0x100 + b2 * 0x1_0000 + b3 * 0x100_0000
  }

  lemma WordDigits(w: Word)
    ensures w % 0x100 + 0x100 * (w / 0x100 % 0x100) + 0x1_0000 * (w / 0x1_0000 % 0x100)
      + 0x100_0000 * (w / 0x100_0000) == w
  {
    assert w == w % 0x100 + w / 0x100 * 0x100;
    assert w / 0x100 == w / 0x100 % 0x100 + w / 0x1_0000 * 0x100;
    assert w / 0x1_0000 == w / 0x1_0000 % 0x100 + w / 0x100_0000 * 0x100;
  }

  lemma DecodeEncode(w: Word)
    ensures Decode(Encode(w)) == w
  {
    hide Encode;
    hide Decode;
  }

  lemma EncodeDecode(b: seq<Byte>)
    requires |b| == 4
    ensures Encode(Decode(b)) == b
  {
    ValueDigits(b);
  }

  /** The digits of a value are the bytes it came from. */
  lemma ValueDigits(b: seq<Byte>)
    requires |b| == 4
    ensures forall i :: 0 <= i < 4 ==> b[i] == Digit(Value(b), i)
  {
    var b0: int, b1: int, b2: int, b3: int := b[0], b[1], b[2], b[3];
    var v := Value(b);
    DivModUnique(v, 0x100, b1 + 0x100 * b2 + 0x1_0000 * b3, b0);
    DivModUnique(b1 + 0x100 * b2 + 0x1_0000 * b3, 0x100, b2 + 0x100 * b3, b1);
    DivModUnique(v, 0x1_0000, b2 + 0x100 * b3, b0 + 0x100 * b1);
    DivModUnique(b2 + 0x100 * b3, 0x100, b3, b2);
    DivModUnique(v, 0x100_0000, b3, b0 + 0x100 * b1 + 0x1_0000 * b2);
    assert Digit(v, 0) == b0 && Digit(v, 1) == b1 && Digit(v, 2) == b2 && Digit(v, 3) == b3;
    hide Digit;
    hide Value;
  }

  /** The i-th byte of a number, the least significant being the zeroth. */
  function Digit(w: int, i: nat): int
    requires i < 4
  {
    w / (if i == 0 then 1 else if i == 1 then 0x100 else if i == 2 then 0x1_0000 else 0x100_0000) % 0x100
  }
}
