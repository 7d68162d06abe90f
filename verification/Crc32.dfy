/** `ExDbg::crc32` (ExDbg.h): the table-driven CRC-32 over a signed 64-bit register.

    An int64_t is modelled by its 64 two's complement bits, lowest first; bit 63 is the sign.
  */
module Crc32 {
  import opened Bytes
  import opened CrcTheory

  type int64 = s: seq<bool> | |s| == 64 witness Zeros(64)

  // ---------------------------------------------------------------- numbers and bits

  function Pow2(n: nat): (r: nat)
    ensures r >= 1
  {
    if n == 0 then 1 else 2 * Pow2(n - 1)
  }

  /** The `width` low bits of a number, lowest first. */
  function NatBits(n: nat, width: nat): (r: seq<bool>)
    ensures |r| == width
    decreases width
  {
    if width == 0 then [] else [n % 2 == 1] + NatBits(n / 2, width - 1)
  }

  function BitsNat(bits: seq<bool>): (r: nat)
    ensures r < Pow2(|bits|)
  {
    if bits == [] then 0 else (if bits[0] then 1 else 0) + 2 * BitsNat(bits[1..])
  }

  lemma {:induction false} NatBitsOfBitsNat(bits: seq<bool>)
    ensures NatBits(BitsNat(bits), |bits|) == bits
  {
    if bits != [] { NatBitsOfBitsNat(bits[1..]); }
  }

  /** A number below 2^width has only zeros above bit `width`. */
  lemma {:induction false} NatBitsWiden(n: nat, width: nat, more: nat)
    requires n < Pow2(width)
    ensures NatBits(n, width + more) == NatBits(n, width) + Zeros(more)
    decreases width + more
  {
    if width > 0 {
      NatBitsWiden(n / 2, width - 1, more);
    } else if more > 0 {
      NatBitsWiden(0, 0, more - 1);
    }
  }

  function NibbleBits(d: nat): (r: seq<bool>)
    ensures |r| == 4
  {
    [d % 2 == 1, d / 2 % 2 == 1, d / 4 % 2 == 1, d / 8 % 2 == 1]
  }

  /** The bits of a 32-bit number written in hexadecimal, most significant digit first. */
  function HexBits(d7: nat, d6: nat, d5: nat, d4: nat, d3: nat, d2: nat, d1: nat, d0: nat): (r: seq<bool>)
    ensures |r| == 32
  {
    NibbleBits(d0) + NibbleBits(d1) + NibbleBits(d2) + NibbleBits(d3) +
    NibbleBits(d4) + NibbleBits(d5) + NibbleBits(d6) + NibbleBits(d7)
  }

  // ---------------------------------------------------------------- int64_t operations

  /** An unsigned 32-bit constant or operand widened to int64_t. */
  function Widen(bits: seq<bool>): int64
    requires |bits| <= 64
  {
    bits + Zeros(64 - |bits|)
  }

  /** The signed right shift. */
  function ShiftRight(x: int64, k: nat): int64
    requires k <= 64
  {
    x[k..] + seq(k, _ => x[63])
  }

  function And255(x: int64): int64 {
    x[..8] + Zeros(56)
  }

  function XorWord(x: int64, y: int64): int64 {
    Xor(x, y)
  }

  function ByteBits(b: byte): (r: seq<bool>)
    ensures |r| == 8
  {
    NatBits(b, 8)
  }

  /** `char` converted to int64_t: sign-extended where char is signed. */
  function CharToInt64(b: byte, signedChar: bool): int64 {
    ByteBits(b) + seq(56, _ => signedChar && b >= 128)
  }

  const POLYNOMIAL: int64 := Widen(HexBits(0xE, 0xD, 0xB, 0x8, 0x8, 0x3, 0x2, 0x0))
  const PRESET: int64 := Widen(HexBits(0xF, 0xF, 0xF, 0xF, 0xF, 0xF, 0xF, 0xF))

  lemma PolynomialBits()
    ensures POLYNOMIAL == Widen(Generator())
  {
    var g := Generator();
    assert NibbleBits(0) == g[..4] && NibbleBits(2) == g[4..8] && NibbleBits(3) == g[8..12];
    assert NibbleBits(8) == g[12..16] == g[16..20] && NibbleBits(0xB) == g[20..24];
    assert NibbleBits(0xD) == g[24..28] && NibbleBits(0xE) == g[28..];
  }

  lemma BitsNatFirst(bit: bool, rest: seq<bool>)
    ensures BitsNat([bit] + rest) == (if bit then 1 else 0) + 2 * BitsNat(rest)
  {
    assert ([bit] + rest)[1..] == rest;
  }

  lemma NibbleValue(d: nat, higher: seq<bool>)
    requires d < 16
    ensures BitsNat(NibbleBits(d) + higher) == d + 16 * BitsNat(higher)
  {
    hide BitsNat;
    var n := NibbleBits(d);
    Quad(n[0], n[1], n[2], n[3], higher);
    BitsNatFirst(n[3], higher);
    BitsNatFirst(n[2], [n[3]] + higher);
    BitsNatFirst(n[1], [n[2]] + ([n[3]] + higher));
    BitsNatFirst(n[0], [n[1]] + ([n[2]] + ([n[3]] + higher)));
    assert n == [n[0], n[1], n[2], n[3]];
  }

  lemma Quad<T>(a: T, b: T, c: T, d: T, rest: seq<T>)
    ensures [a, b, c, d] + rest == [a] + ([b] + ([c] + ([d] + rest)))
  {}

  lemma NatBitsNibble(n: nat, width: nat)
    ensures NatBits(n, 4 + width) == NibbleBits(n) + NatBits(n / 16, width)
  {
    hide NatBits;
    NatBitsFirst(n, 3 + width);
    NatBitsFirst(n / 2, 2 + width);
    NatBitsFirst(n / 4, 1 + width);
    NatBitsFirst(n / 8, width);
    assert n / 2 / 2 == n / 4 && n / 4 / 2 == n / 8 && n / 8 / 2 == n / 16;
    Quad(n % 2 == 1, n / 2 % 2 == 1, n / 4 % 2 == 1, n / 8 % 2 == 1, NatBits(n / 16, width));
  }

  lemma NatBitsFirst(n: nat, width: nat)
    ensures NatBits(n, width + 1) == [n % 2 == 1] + NatBits(n / 2, width)
  {}

  /** The two constants as numbers. */
  lemma ConstantValues()
    ensures BitsNat(POLYNOMIAL[..32]) == 0xEDB88320 && POLYNOMIAL[32..] == Zeros(32)
    ensures BitsNat(PRESET[..32]) == 0xFFFFFFFF && PRESET[32..] == Zeros(32)
  {
    hide BitsNat, HexBits, Widen;
    HexValue(0xE, 0xD, 0xB, 0x8, 0x8, 0x3, 0x2, 0x0);
    HexValue(0xF, 0xF, 0xF, 0xF, 0xF, 0xF, 0xF, 0xF);
    WidenParts(HexBits(0xE, 0xD, 0xB, 0x8, 0x8, 0x3, 0x2, 0x0));
    WidenParts(HexBits(0xF, 0xF, 0xF, 0xF, 0xF, 0xF, 0xF, 0xF));
  }

  lemma WidenParts(bits: seq<bool>)
    requires |bits| <= 64
    ensures Widen(bits)[..|bits|] == bits && Widen(bits)[|bits|..] == Zeros(64 - |bits|)
  {}

  lemma HexValue(d7: nat, d6: nat, d5: nat, d4: nat, d3: nat, d2: nat, d1: nat, d0: nat)
    requires d7 < 16 && d6 < 16 && d5 < 16 && d4 < 16 && d3 < 16 && d2 < 16 && d1 < 16 && d0 < 16
    ensures BitsNat(HexBits(d7, d6, d5, d4, d3, d2, d1, d0))
         == d0 + 16 * (d1 + 16 * (d2 + 16 * (d3 + 16 * (d4 + 16 * (d5 + 16 * (d6 + 16 * d7))))))
  {
    hide BitsNat, NibbleBits;
    var h7 := NibbleBits(d7) + [];
    var h6 := NibbleBits(d6) + h7;
    var h5 := NibbleBits(d5) + h6;
    var h4 := NibbleBits(d4) + h5;
    var h3 := NibbleBits(d3) + h4;
    var h2 := NibbleBits(d2) + h3;
    var h1 := NibbleBits(d1) + h2;
    NibbleValue(d7, []);
    NibbleValue(d6, h7);
    NibbleValue(d5, h6);
    NibbleValue(d4, h5);
    NibbleValue(d3, h4);
    NibbleValue(d2, h3);
    NibbleValue(d1, h2);
    NibbleValue(d0, h1);
    NoBits();
    assert HexBits(d7, d6, d5, d4, d3, d2, d1, d0) == NibbleBits(d0) + h1;
  }

  lemma NoBits()
    ensures BitsNat([]) == 0
  {}

  lemma {:induction false} BitsNatOfNatBits(n: nat, width: nat)
    requires n < Pow2(width)
    ensures BitsNat(NatBits(n, width)) == n
    decreases width
  {
    if width > 0 { BitsNatOfNatBits(n / 2, width - 1); }
  }

  lemma ByteValue(b: byte, signedChar: bool)
    ensures BitsNat(ByteBits(b)) == b == BitsNat(CharToInt64(b, signedChar)[..8])
  {
    assert Pow2(8) == 256;
    hide NatBits, BitsNat;
    BitsNatOfNatBits(b, 8);
    assert CharToInt64(b, signedChar)[..8] == ByteBits(b);
  }

  lemma ByteDigits(b: byte)
    ensures ByteBits(b) == [b % 2 == 1, b / 2 % 2 == 1, b / 4 % 2 == 1, b / 8 % 2 == 1,
                            b / 16 % 2 == 1, b / 32 % 2 == 1, b / 64 % 2 == 1, b / 128 % 2 == 1]
  {
    hide NatBits;
    NatBitsNibble(b, 4);
    NatBitsNibble(b / 16, 0);
    NoMoreBits(b / 16 / 16);
    assert b / 16 / 2 == b / 32 && b / 16 / 4 == b / 64 && b / 16 / 8 == b / 128;
  }

  lemma NoMoreBits(n: nat)
    ensures NatBits(n, 0) == []
  {}

  /** The bits of a byte are its binary digits, lowest first, whether char is signed or not. */
  lemma ByteBitsMeaning(b: byte, signedChar: bool)
    ensures BitsNat(ByteBits(b)) == b == BitsNat(CharToInt64(b, signedChar)[..8])
    ensures ByteBits(b) == [b % 2 == 1, b / 2 % 2 == 1, b / 4 % 2 == 1, b / 8 % 2 == 1,
                            b / 16 % 2 == 1, b / 32 % 2 == 1, b / 64 % 2 == 1, b / 128 % 2 == 1]
  {
    hide ByteBits, BitsNat, CharToInt64;
    ByteValue(b, signedChar);
    ByteDigits(b);
  }

  lemma PresetBits()
    ensures PRESET == Widen(Ones(32))
  {
    assert NibbleBits(0xF) == Ones(4);
  }

  // ---------------------------------------------------------------- the table

  /** What entry i of the table must hold. */
  function TableEntry(i: nat): int64 {
    Partial(i, 8)
  }

  /** The inner loop's body: shift, and add the polynomial if a one falls out. */
  function Pass(crc: int64): int64 {
    if crc[0] then XorWord(POLYNOMIAL, ShiftRight(crc, 1)) else ShiftRight(crc, 1)
  }

  /** One pass of the table's inner loop over a 64-bit register that holds a 32-bit one. */
  lemma RegisterStep(s: seq<bool>)
    requires |s| == 32
    ensures Widen(BitStep(s)) == Pass(Widen(s))
  {
    PolynomialBits();
    var x := Widen(s);
    assert ShiftRight(x, 1) == Widen(s[1..] + [false]);
    if x[0] {
      assert XorWord(POLYNOMIAL, ShiftRight(x, 1)) == Widen(Xor(Generator(), s[1..] + [false]));
    }
  }

  lemma {:induction false} StepsSuccessor(s: seq<bool>, n: nat)
    requires |s| == 32
    ensures Steps(s, n + 1) == BitStep(Steps(s, n))
    decreases n
  {
    hide BitStep;
    if n > 0 { StepsSuccessor(BitStep(s), n - 1); }
  }

  /** The register of the inner loop for entry i after j passes. */
  function Partial(i: nat, j: nat): int64 {
    Widen(Steps(Pad(NatBits(i, 8)), j))
  }

  lemma PartialStart(i: nat)
    requires i < 256
    ensures Partial(i, 0) == NatBits(i, 64)
  {
    assert Pow2(8) == 256;
    NatBitsWiden(i, 8, 56);
  }

  lemma PartialStep(i: nat, j: nat)
    ensures Partial(i, j + 1) == Pass(Partial(i, j))
  {
    hide BitStep, Steps, Generator, NatBits, Widen, Pad, Pass;
    var start := Pad(NatBits(i, 8));
    RegisterStep(Steps(start, j));
    StepsSuccessor(start, j);
  }

  method BuildTable() returns (table: array<int64>)
    ensures table.Length == 256
    ensures forall i :: 0 <= i < 256 ==> table[i] == TableEntry(i)
  {
    hide Partial, NatBits, Pass;
    table := new int64[256](_ => Zeros(64));
    for i := 0 to 256
      invariant forall k :: 0 <= k < i ==> table[k] == Partial(k, 8)
    {
      var crc: int64 := NatBits(i, 64);
      PartialStart(i);
      for j := 0 to 8
        invariant crc == Partial(i, j)
        invariant forall k :: 0 <= k < i ==> table[k] == Partial(k, 8)
      {
        PartialStep(i, j);
        crc := Pass(crc);
      }
      table[i] := crc;
    }
  }

  // ---------------------------------------------------------------- the byte loop

  function MessageBits(data: seq<byte>): (r: seq<bool>)
    ensures |r| == 8 * |data|
  {
    if data == [] then [] else ByteBits(data[0]) + MessageBits(data[1..])
  }

  lemma {:induction false} MessageBitIs(data: seq<byte>, i: nat, k: nat)
    requires i < |data| && k < 8
    ensures MessageBits(data)[8 * i + k] == ByteBits(data[i])[k]
    decreases i
  {
    hide ByteBits;
    if i > 0 { MessageBitIs(data[1..], i - 1, k); }
  }

  lemma MessageByte(data: seq<byte>, i: nat)
    requires i < |data|
    ensures MessageBits(data)[8 * i..8 * i + 8] == ByteBits(data[i])
  {
    hide MessageBits, ByteBits;
    forall k | 0 <= k < 8
      ensures MessageBits(data)[8 * i..8 * i + 8][k] == ByteBits(data[i])[k]
    {
      MessageBitIs(data, i, k);
    }
  }

  /** The order of transmission: bit 8 i + k of the message is the binary digit of weight 2^k of byte i,
      the lowest first. */
  lemma MessageBitAt(data: seq<byte>, i: nat)
    requires i < |data|
    ensures MessageBits(data)[8 * i..8 * i + 8]
         == [data[i] % 2 == 1, data[i] / 2 % 2 == 1, data[i] / 4 % 2 == 1, data[i] / 8 % 2 == 1,
             data[i] / 16 % 2 == 1, data[i] / 32 % 2 == 1, data[i] / 64 % 2 == 1, data[i] / 128 % 2 == 1]
  {
    hide MessageBits, ByteBits;
    MessageByte(data, i);
    ByteDigits(data[i]);
  }

  lemma {:induction false} MessageBitsAppend(data: seq<byte>, b: byte)
    ensures MessageBits(data + [b]) == MessageBits(data) + ByteBits(b)
  {
    if data == [] {
      assert MessageBits([b]) == ByteBits(b) + MessageBits([b][1..]);
    } else {
      assert (data + [b])[1..] == data[1..] + [b];
      MessageBitsAppend(data[1..], b);
    }
  }

  /** Eight steps split into a table entry for the low byte and a shift of the rest. */
  lemma StepByte(s: seq<bool>, w: seq<bool>)
    requires |s| == 32 && |w| == 8
    ensures Feed(s, w) == Xor(Steps(Pad(Xor(s[..8], w)), 8), s[8..] + Zeros(8))
  {
    hide BitStep, Steps, Feed, Generator;
    var low, high := Pad(Xor(s[..8], w)), Zeros(8) + s[8..];
    FeedIsSteps(s, w);
    assert Xor(s, Pad(w)) == Xor(low, high);
    StepsXor(low, high, 8);
    assert high == Zeros(8) + s[8..] + Zeros(0);
    StepsShift(8, s[8..], 0);
  }

  /** The index is computed from the low byte alone, whatever the sign extension put above it. */
  lemma TableIndex(s: seq<bool>, b: byte, signedChar: bool)
    requires |s| == 32
    ensures var low := Xor(s[..8], ByteBits(b));
            And255(XorWord(Widen(s), CharToInt64(b, signedChar)))[..8] == low
            && BitsNat(low) < 256 && NatBits(BitsNat(low), 8) == low
  {
    var low := Xor(s[..8], ByteBits(b));
    assert And255(XorWord(Widen(s), CharToInt64(b, signedChar)))[..8] == low;
    NatBitsOfBitsNat(low);
    assert Pow2(8) == 256;
  }

  lemma RegisterByte(s: seq<bool>, w: seq<bool>)
    requires |s| == 32 && |w| == 8
    ensures XorWord(Widen(Steps(Pad(Xor(s[..8], w)), 8)), ShiftRight(Widen(s), 8)) == Widen(Feed(s, w))
  {
    hide BitStep, Steps, Feed, Generator, Pad;
    StepByte(s, w);
    assert ShiftRight(Widen(s), 8) == Widen(s[8..] + Zeros(8));
  }

  lemma Start()
    ensures PRESET == Widen(Feed(Ones(32), MessageBits([])))
  {
    PresetBits();
  }

  lemma Finish(s: seq<bool>)
    requires |s| == 32
    ensures XorWord(Widen(s), PRESET) == Widen(Xor(s, Ones(32)))
  {
    PresetBits();
  }

  lemma FeedNext(data: seq<byte>, k: nat)
    requires k < |data|
    ensures Feed(Ones(32), MessageBits(data[..k + 1]))
         == Feed(Feed(Ones(32), MessageBits(data[..k])), ByteBits(data[k]))
  {
    hide Feed, MessageBits;
    assert data[..k + 1] == data[..k] + [data[k]];
    MessageBitsAppend(data[..k], data[k]);
    FeedConcat(Ones(32), MessageBits(data[..k]), ByteBits(data[k]));
  }

  /** One pass of the byte loop. */
  lemma LookupStep(s: seq<bool>, b: byte, signedChar: bool)
    requires |s| == 32
    ensures var index := BitsNat(And255(XorWord(Widen(s), CharToInt64(b, signedChar)))[..8]);
            index < 256
            && XorWord(TableEntry(index), ShiftRight(Widen(s), 8)) == Widen(Feed(s, ByteBits(b)))
  {
    hide Feed, Steps, Pad, Widen, XorWord, And255, CharToInt64, ShiftRight, ByteBits, NatBits, BitsNat;
    TableIndex(s, b, signedChar);
    RegisterByte(s, ByteBits(b));
  }

  /** `crc32`.  The result is the CRC of the message bits with 32 zero bits above it, so it lies in
      [0, 2^32) and narrowing it to a uint32_t loses nothing. */
  method ComputeCrc32(data: seq<byte>, signedChar: bool) returns (r: int64)
    ensures r == Widen(Crc(MessageBits(data)))
  {
    hide Feed, MessageBits, ByteBits, NatBits, BitsNat, Widen, And255, XorWord, ShiftRight, CharToInt64, TableEntry;
    var table := BuildTable();
    var crc: int64 := PRESET;
    Start();
    assert data[..0] == [];
    for k := 0 to |data|
      invariant crc == Widen(Feed(Ones(32), MessageBits(data[..k])))
      invariant forall i :: 0 <= i < 256 ==> table[i] == TableEntry(i)
    {
      ghost var s := Feed(Ones(32), MessageBits(data[..k]));
      LookupStep(s, data[k], signedChar);
      FeedNext(data, k);
      var c := CharToInt64(data[k], signedChar);
      var index := BitsNat(And255(XorWord(crc, c))[..8]);
      crc := XorWord(table[index], ShiftRight(crc, 8));
    }
    assert data[..|data|] == data;
    Finish(Feed(Ones(32), MessageBits(data)));
    r := XorWord(crc, PRESET);
  }

  // ---------------------------------------------------------------- what the identifier guarantees

  lemma {:induction false} MessageBitsInjective(a: seq<byte>, b: seq<byte>)
    requires |a| == |b| && MessageBits(a) == MessageBits(b)
    ensures a == b
  {
    if a != [] {
      assert ByteBits(a[0]) == MessageBits(a)[..8] == ByteBits(b[0]);
      assert MessageBits(a[1..]) == MessageBits(a)[8..] == MessageBits(b[1..]);
      MessageBitsInjective(a[1..], b[1..]);
      ByteBitsInjective(a[0], b[0]);
    }
  }

  lemma ByteBitsInjective(a: byte, b: byte)
    requires ByteBits(a) == ByteBits(b)
    ensures a == b
  {
    assert Pow2(8) == 256;
    BitsNatOfNatBits(a, 8);
    BitsNatOfNatBits(b, 8);
  }

  /** Strings of the same length that differ, and differ only within 32 consecutive bits, get
      different identifiers. */
  lemma PathBurstDetected(a: seq<byte>, b: seq<byte>, p: nat)
    requires a != b && DifferWithin(MessageBits(a), MessageBits(b), p, 32)
    ensures Crc(MessageBits(a)) != Crc(MessageBits(b))
  {
    BurstDetected(MessageBits(a), MessageBits(b), p);
    if Crc(MessageBits(a)) == Crc(MessageBits(b)) {
      MessageBitsInjective(a, b);
    }
  }

  // ---------------------------------------------------------------- strings of bytes

  /** The string whose bits these are. */
  function PackBytes(bits: seq<bool>): (r: seq<byte>)
    requires |bits| % 8 == 0
    ensures |r| == |bits| / 8
    decreases |bits|
  {
    if bits == [] then [] else [PackByte(bits[..8])] + PackBytes(bits[8..])
  }

  function PackByte(bits: seq<bool>): (r: byte)
    requires |bits| == 8
    ensures ByteBits(r) == bits
  {
    assert Pow2(8) == 256;
    NatBitsOfBitsNat(bits);
    BitsNat(bits)
  }

  lemma {:induction false} MessageBitsOfPackBytes(bits: seq<bool>)
    requires |bits| % 8 == 0
    ensures MessageBits(PackBytes(bits)) == bits
    decreases |bits|
  {
    hide PackByte;
    if bits != [] {
      MessageBitsOfPackBytes(bits[8..]);
      assert bits == bits[..8] + bits[8..];
    }
  }

  function XorStrings(a: seq<byte>, b: seq<byte>): (r: seq<byte>)
    requires |a| == |b|
    ensures |r| == |a|
  {
    PackBytes(Xor(MessageBits(a), MessageBits(b)))
  }

  lemma MessageBitsOfXor(a: seq<byte>, b: seq<byte>)
    requires |a| == |b|
    ensures MessageBits(XorStrings(a, b)) == Xor(MessageBits(a), MessageBits(b))
  {
    hide PackBytes;
    MessageBitsOfPackBytes(Xor(MessageBits(a), MessageBits(b)));
  }

  /** CRC is affine over exclusive or of strings of equal length. */
  lemma CrcAffineStrings(a: seq<byte>, b: seq<byte>, c: seq<byte>)
    requires |a| == |b| == |c|
    ensures Xor(Xor(Crc(MessageBits(a)), Crc(MessageBits(b))), Crc(MessageBits(c)))
         == Crc(MessageBits(XorStrings(XorStrings(a, b), c)))
  {
    hide XorStrings, Crc, MessageBits, Xor;
    MessageBitsOfXor(a, b);
    MessageBitsOfXor(XorStrings(a, b), c);
    CrcAffine(MessageBits(a), MessageBits(b), MessageBits(c));
  }

  /** The generator, laid over the first 33 bits of a message. */
  function Overlaid(m: seq<bool>): (r: seq<bool>)
    requires |m| >= 33
    ensures |r| == |m|
  {
    Xor(m, [true] + Generator() + Zeros(|m| - 33))
  }

  lemma OverlaidSameCrc(m: seq<bool>)
    requires |m| >= 33
    ensures Overlaid(m)[0] != m[0] && DifferWithin(m, Overlaid(m), 0, 33) && Crc(m) == Crc(Overlaid(m))
  {
    hide Crc, Generator;
    var pattern := [true] + Generator();
    assert Xor(m, Overlaid(m)) == pattern + Zeros(|m| - 33);
    assert Xor(m, Overlaid(m))[0..33] == pattern;
    Burst33(m, Overlaid(m), 0);
  }

  /** The burst bound is sharp for strings too: every string of five bytes or more has a sibling that
      differs from it only within its first 33 bits and has the same CRC. */
  lemma SharpBurst(a: seq<byte>)
    requires |a| >= 5
    ensures exists b :: |b| == |a| && b != a && DifferWithin(MessageBits(a), MessageBits(b), 0, 33)
                        && Crc(MessageBits(a)) == Crc(MessageBits(b))
  {
    hide PackBytes, Crc, Overlaid, MessageBits, DifferWithin;
    var m := MessageBits(a);
    OverlaidSameCrc(m);
    var b := PackBytes(Overlaid(m));
    MessageBitsOfPackBytes(Overlaid(m));
    assert b != a;
  }
}
