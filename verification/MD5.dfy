/** The MD5 message-digest algorithm as sections 3.1 to 3.5 of RFC 1321 define it. */
module MD5Spec {

  type Byte = bv8
  type Word = bv32

  /** The sine table of section 3.4, `T[1]` first. */
  const T: seq<Word> :=
    [0xd76aa478, 0xe8c7b756, 0x242070db, 0xc1bdceee, 0xf57c0faf, 0x4787c62a, 0xa8304613, 0xfd469501,
     0x698098d8, 0x8b44f7af, 0xffff5bb1, 0x895cd7be, 0x6b901122, 0xfd987193, 0xa679438e, 0x49b40821] +
    [0xf61e2562, 0xc040b340, 0x265e5a51, 0xe9b6c7aa, 0xd62f105d, 0x02441453, 0xd8a1e681, 0xe7d3fbc8,
     0x21e1cde6, 0xc33707d6, 0xf4d50d87, 0x455a14ed, 0xa9e3e905, 0xfcefa3f8, 0x676f02d9, 0x8d2a4c8a] +
    [0xfffa3942, 0x8771f681, 0x6d9d6122, 0xfde5380c, 0xa4beea44, 0x4bdecfa9, 0xf6bb4b60, 0xbebfbc70,
     0x289b7ec6, 0xeaa127fa, 0xd4ef3085, 0x04881d05, 0xd9d4d039, 0xe6db99e5, 0x1fa27cf8, 0xc4ac5665] +
    [0xf4292244, 0x432aff97, 0xab9423a7, 0xfc93a039, 0x655b59c3, 0x8f0ccc92, 0xffeff47d, 0x85845dd1,
     0x6fa87e4f, 0xfe2ce6e0, 0xa3014314, 0x4e0811a1, 0xf7537e82, 0xbd3af235, 0x2ad7d2bb, 0xeb86d391]

  /** The operations are written four to a row, `[ABCD k s i] [DABC k s i] [CDAB k s i] [BCDA k s i]`;
      these are the word indices `k` of the sixteen rows. */
  function Row(q: nat): (nat, nat, nat, nat)
    requires q < 16
  {
    match q
    case 0 => (0, 1, 2, 3)
    case 1 => (4, 5, 6, 7)
    case 2 => (8, 9, 10, 11)
    case 3 => (12, 13, 14, 15)
    case 4 => (1, 6, 11, 0)
    case 5 => (5, 10, 15, 4)
    case 6 => (9, 14, 3, 8)
    case 7 => (13, 2, 7, 12)
    case 8 => (5, 8, 11, 14)
    case 9 => (1, 4, 7, 10)
    case 10 => (13, 0, 3, 6)
    case 11 => (9, 12, 15, 2)
    case 12 => (0, 7, 14, 5)
    case 13 => (12, 3, 10, 1)
    case 14 => (8, 15, 6, 13)
    case _ => (4, 11, 2, 9)
  }

  function RowIndex(i: nat): nat
    requires i < 64
  {
    var (a, b, c, d) := Row(i / 4);
    match i % 4 case 0 => a case 1 => b case 2 => c case _ => d
  }

  /** The shift amounts `s`, by round and column. */
  function RowShift(i: nat): Word
    requires i < 64
  {
    match (i / 16, i % 4)
    case (0, 0) => 7 case (0, 1) => 12 case (0, 2) => 17 case (0, _) => 22
    case (1, 0) => 5 case (1, 1) => 9 case (1, 2) => 14 case (1, _) => 20
    case (2, 0) => 4 case (2, 1) => 11 case (2, 2) => 16 case (2, _) => 23
    case (_, 0) => 6 case (_, 1) => 10 case (_, 2) => 15 case (_, _) => 21
  }

  function F(x: Word, y: Word, z: Word): Word { (x & y) | (!x & z) }
  function G(x: Word, y: Word, z: Word): Word { (x & z) | (y & !z) }
  function H(x: Word, y: Word, z: Word): Word { x ^ y ^ z }
  function I(x: Word, y: Word, z: Word): Word { y ^ (x | !z) }

  function Auxiliary(i: nat, x: Word, y: Word, z: Word): Word
    requires i < 64
  {
    if i < 16 then F(x, y, z) else if i < 32 then G(x, y, z) else if i < 48 then H(x, y, z) else I(x, y, z)
  }

  function RotateLeft(value: Word, bits: Word): Word
    requires 0 < bits < 32
  {
    ((value << bits) & 0xFFFFFFFF) | (value >> (32 - bits))
  }

  /** For each shift amount of the algorithm this is the circular rotation of 32 bits. */
  lemma RotatesAround(value: Word)
    ensures RotateLeft(value, 4) == value.RotateLeft(4) && RotateLeft(value, 5) == value.RotateLeft(5)
    ensures RotateLeft(value, 6) == value.RotateLeft(6) && RotateLeft(value, 7) == value.RotateLeft(7)
    ensures RotateLeft(value, 9) == value.RotateLeft(9) && RotateLeft(value, 10) == value.RotateLeft(10)
    ensures RotateLeft(value, 11) == value.RotateLeft(11) && RotateLeft(value, 12) == value.RotateLeft(12)
    ensures RotateLeft(value, 14) == value.RotateLeft(14) && RotateLeft(value, 15) == value.RotateLeft(15)
    ensures RotateLeft(value, 16) == value.RotateLeft(16) && RotateLeft(value, 17) == value.RotateLeft(17)
    ensures RotateLeft(value, 20) == value.RotateLeft(20) && RotateLeft(value, 21) == value.RotateLeft(21)
    ensures RotateLeft(value, 22) == value.RotateLeft(22) && RotateLeft(value, 23) == value.RotateLeft(23)
  {
  }

  /** The four-word buffer; only the values it holds are words. */
  datatype Buffer<W> = Registers(A: W, B: W, C: W, D: W)
  type Registers = Buffer<Word>

  /** `b + (sum <<< s)`. */
  function Mixed(b: Word, sum: Word, s: Word): Word
    requires 0 < s < 32
  {
    b + RotateLeft(sum, s)
  }

  /** The registers in the order in which the operations of a column name them: `[ABCD]`, `[DABC]`,
      `[CDAB]`, `[BCDA]`. */
  function Named<W>(r: Buffer<W>, column: nat): Buffer<W> {
    match column
    case 0 => r
    case 1 => Registers(r.D, r.A, r.B, r.C)
    case 2 => Registers(r.C, r.D, r.A, r.B)
    case _ => Registers(r.B, r.C, r.D, r.A)
  }

  /** Assigns the register that the operations of a column name first. */
  function Assigned<W>(r: Buffer<W>, column: nat, value: W): Buffer<W> {
    match column
    case 0 => r.(A := value)
    case 1 => r.(D := value)
    case 2 => r.(C := value)
    case _ => r.(B := value)
  }

  /** Operation `[abcd k s i]` does `a = b + ((a + aux(b,c,d) + X[k] + T[i]) <<< s)`. */
  function Operate(r: Registers, X: seq<Word>, i: nat): Registers
    requires i < 64 && |X| == 16 && RowIndex(i) < 16 && 0 < RowShift(i) < 32
  {
    Assigned(r, i % 4, Operation(Named(r, i % 4), X, i))
  }

  function Operation(v: Registers, X: seq<Word>, i: nat): Word
    requires i < 64 && |X| == 16 && RowIndex(i) < 16 && 0 < RowShift(i) < 32
  {
    Mixed(v.B, OperationSum(i, v.A, v.B, v.C, v.D, X[RowIndex(i)], T[i]), RowShift(i))
  }

  function OperationSum(i: nat, a: Word, b: Word, c: Word, d: Word, x: Word, t: Word): Word
    requires i < 64
  {
    Sum(a, Auxiliary(i, b, c, d), x, t)
  }

  function Sum(a: Word, f: Word, x: Word, t: Word): Word { a + f + x + t }

  /** The word whose low-order byte comes first in the message. */
  function WordAt(data: seq<Byte>, i: nat): Word
    requires i + 4 <= |data|
  {
    ((data[i + 3] as Word) << 24) | ((data[i + 2] as Word) << 16) | ((data[i + 1] as Word) << 8) | (data[i] as Word)
  }

  /** Section 3.3 gives the initial registers by their bytes, low-order byte first. */
  const INITIAL: Registers := Registers(
    WordAt([0x01, 0x23, 0x45, 0x67], 0), WordAt([0x89, 0xab, 0xcd, 0xef], 0),
    WordAt([0xfe, 0xdc, 0xba, 0x98], 0), WordAt([0x76, 0x54, 0x32, 0x10], 0))

  function Words(block: seq<Byte>): seq<Word>
    requires |block| == 64
  {
    seq(16, i requires 0 <= i < 16 => WordAt(block, 4 * i))
  }

  function BytesOf(w: Word): seq<Byte> {
    [(w & 0xff) as Byte, ((w >> 8) & 0xff) as Byte, ((w >> 16) & 0xff) as Byte, ((w >> 24) & 0xff) as Byte]
  }

  /** Sections 3.3 and 3.5: words go in and come out low-order byte first. */
  lemma WordsAndBytes(w: Word, data: seq<Byte>, i: nat)
    requires i + 4 <= |data|
    ensures WordAt(BytesOf(w), 0) == w
    ensures BytesOf(WordAt(data, i)) == data[i..i + 4]
  {
    BytesOfWord(data[i], data[i + 1], data[i + 2], data[i + 3]);
  }

  lemma BytesOfWord(a: Byte, b: Byte, c: Byte, d: Byte)
    ensures BytesOf(((d as Word) << 24) | ((c as Word) << 16) | ((b as Word) << 8) | (a as Word)) == [a, b, c, d]
  {
  }

  function Add(r: Registers, s: Registers): Registers {
    Registers(r.A + s.A, r.B + s.B, r.C + s.C, r.D + s.D)
  }

  // ---- sections 3.1 and 3.2: padding ----

  /** `v` in `n` bytes, low-order byte first. */
  function LittleEndian(v: nat, n: nat): seq<Byte> {
    if n == 0 then [] else [(v % 256) as Byte] + LittleEndian(v / 256, n - 1)
  }

  function FromLittleEndian(b: seq<Byte>): nat {
    if b == [] then 0 else b[0] as nat + 256 * FromLittleEndian(b[1..])
  }

  /** The number of zero bytes after the byte 0x80. */
  function ZeroCount(n: nat): nat { (55 - n) % 64 }

  function Zeros(n: nat): seq<Byte> { seq(n, i => 0) }

  function Padded(message: seq<Byte>): seq<Byte> {
    message + [0x80] + Zeros(ZeroCount(|message|)) + LittleEndian(8 * |message|, 8)
  }
}

module MD5Tables {
  import opened MD5Spec

  /** The shift amounts of the implementation. */
  function Shifts(j: nat): Word
    requires j < 64
  {
    match j
    case 0 => 7 case 1 => 12 case 2 => 17 case 3 => 22 case 4 => 7 case 5 => 12 case 6 => 17 case 7 => 22
    case 8 => 7 case 9 => 12 case 10 => 17 case 11 => 22 case 12 => 7 case 13 => 12 case 14 => 17 case 15 => 22
    case 16 => 5 case 17 => 9 case 18 => 14 case 19 => 20 case 20 => 5 case 21 => 9 case 22 => 14 case 23 => 20
    case 24 => 5 case 25 => 9 case 26 => 14 case 27 => 20 case 28 => 5 case 29 => 9 case 30 => 14 case 31 => 20
    case 32 => 4 case 33 => 11 case 34 => 16 case 35 => 23 case 36 => 4 case 37 => 11 case 38 => 16 case 39 => 23
    case 40 => 4 case 41 => 11 case 42 => 16 case 43 => 23 case 44 => 4 case 45 => 11 case 46 => 16 case 47 => 23
    case 48 => 6 case 49 => 10 case 50 => 15 case 51 => 21 case 52 => 6 case 53 => 10 case 54 => 15 case 55 => 21
    case 56 => 6 case 57 => 10 case 58 => 15 case 59 => 21 case 60 => 6 case 61 => 10 case 62 => 15 case _ => 21
  }

  /** The word index of the implementation. */
  function WordIndex(j: nat): nat {
    if j < 16 then j else if j < 32 then (5 * j + 1) % 16 else if j < 48 then (3 * j + 5) % 16 else (7 * j) % 16
  }

  lemma Shifts1Agree(j: nat)
    requires 0 <= j < 16
    ensures RowShift(j) == Shifts(j) && 0 < Shifts(j) < 32
  {
  }

  lemma Shifts2Agree(j: nat)
    requires 16 <= j < 32
    ensures RowShift(j) == Shifts(j) && 0 < Shifts(j) < 32
  {
  }

  lemma Shifts3Agree(j: nat)
    requires 32 <= j < 48
    ensures RowShift(j) == Shifts(j) && 0 < Shifts(j) < 32
  {
  }

  lemma Shifts4Agree(j: nat)
    requires 48 <= j < 64
    ensures RowShift(j) == Shifts(j) && 0 < Shifts(j) < 32
  {
  }

  lemma Round1Agrees(j: nat)
    requires 0 <= j < 16
    ensures RowIndex(j) == WordIndex(j) < 16
  {
  }

  lemma Round2Agrees(j: nat)
    requires 16 <= j < 32
    ensures RowIndex(j) == WordIndex(j) < 16
  {
  }

  lemma Round3Agrees(j: nat)
    requires 32 <= j < 48
    ensures RowIndex(j) == WordIndex(j) < 16
  {
  }

  lemma Round4Agrees(j: nat)
    requires 48 <= j < 64
    ensures RowIndex(j) == WordIndex(j) < 16
  {
  }

  lemma TablesAgree(j: nat)
    requires j < 64
    ensures RowIndex(j) == WordIndex(j) < 16 && RowShift(j) == Shifts(j) && 0 < Shifts(j) < 32
  {
    if j < 16 {
      Round1Agrees(j);
      Shifts1Agree(j);
    } else if j < 32 {
      Round2Agrees(j);
      Shifts2Agree(j);
    } else if j < 48 {
      Round3Agrees(j);
      Shifts3Agree(j);
    } else {
      Round4Agrees(j);
      Shifts4Agree(j);
    }
  }
}

/** Padding, and the digest of a message of any length. */
module MD5Digest {
  import opened MD5Spec
  import opened MD5Tables

  /** The registers after the first `n` operations on a block. */
  function Operated(r: Registers, X: seq<Word>, n: nat): Registers
    requires |X| == 16 && n <= 64
  {
    if n == 0 then r else TablesAgree(n - 1); Operate(Operated(r, X, n - 1), X, n - 1)
  }

  function Compress(r: Registers, block: seq<Byte>): Registers
    requires |block| == 64
  {
    Add(r, Operated(r, Words(block), 64))
  }

  /** The chaining value after `n` blocks. */
  function Chained(data: seq<Byte>, n: nat): Registers
    requires 64 * n <= |data|
  {
    if n == 0 then INITIAL else Compress(Chained(data, n - 1), data[64 * (n - 1)..64 * n])
  }

  function Output(r: Registers): seq<Byte> { BytesOf(r.A) + BytesOf(r.B) + BytesOf(r.C) + BytesOf(r.D) }

  function Digest(message: seq<Byte>): seq<Byte> {
    var data := Padded(message);
    Output(Chained(data, |data| / 64))
  }

  lemma {:induction false} LittleEndianLength(v: nat, n: nat)
    ensures |LittleEndian(v, n)| == n
  {
    if n > 0 { LittleEndianLength(v / 256, n - 1); }
  }

  function Pow256(n: nat): (p: nat)
    ensures p > 0
  {
    if n == 0 then 1 else 256 * Pow256(n - 1)
  }

  lemma {:induction false} LittleEndianRoundTrip(v: nat, n: nat)
    requires v < Pow256(n)
    ensures FromLittleEndian(LittleEndian(v, n)) == v
  {
    if n > 0 {
      LittleEndianRoundTrip(v / 256, n - 1);
      LowByteFirst((v % 256) as Byte, LittleEndian(v / 256, n - 1));
      ByteValue(v % 256);
    }
  }

  lemma ByteValue(k: nat)
    requires k < 256
    ensures (k as Byte) as nat == k
  {
    var b := CountedTo(k);
    ByteOfItsValue(b);
  }

  lemma CountedTo(k: nat) returns (b: Byte)
    requires k < 256
    ensures b as nat == k
  {
    b := 0;
    for i := 0 to k
      invariant b as nat == i
    {
      b := b + 1;
    }
  }

  lemma ByteOfItsValue(b: Byte)
    ensures (b as nat) as Byte == b
  {
  }

  lemma LowByteFirst(b: Byte, rest: seq<Byte>)
    ensures FromLittleEndian([b] + rest) == b as nat + 256 * FromLittleEndian(rest)
  {
    assert ([b] + rest)[1..] == rest;
  }

  /** The padded length is the least multiple of 64 that is at least the message length plus 9. */
  lemma PaddedLength(message: seq<Byte>)
    ensures |Padded(message)| % 64 == 0 && |message| + 9 <= |Padded(message)| < |message| + 9 + 64
  {
    LittleEndianLength(8 * |message|, 8);
    ZerosFill(|message|);
  }

  lemma ZerosFill(n: nat)
    ensures (n + 1 + ZeroCount(n) + 8) % 64 == 0 && ZeroCount(n) < 64
  {
  }

  /** Reads the length field and drops what follows the message. */
  function Unpadded(data: seq<Byte>): seq<Byte>
    requires |data| >= 8 && FromLittleEndian(data[|data| - 8..]) / 8 <= |data|
  {
    data[..FromLittleEndian(data[|data| - 8..]) / 8]
  }

  /** For messages whose bit count fits in the implementation's 64-bit integer, unpadding recovers
      the message; so no two such messages have the same padding. */
  lemma UnpadUndoesPad(message: seq<Byte>)
    requires 8 * |message| < 0x8000_0000_0000_0000
    ensures var data := Padded(message);
      |data| >= 8 && FromLittleEndian(data[|data| - 8..]) / 8 <= |data| && Unpadded(data) == message
  {
    var data := Padded(message);
    var field := LittleEndian(8 * |message|, 8);
    LittleEndianLength(8 * |message|, 8);
    PowerOfEight();
    LittleEndianRoundTrip(8 * |message|, 8);
    assert data[|data| - 8..] == field;
    assert data[..|message|] == message;
  }

  lemma PowerOfEight()
    ensures Pow256(8) == 0x1_0000_0000_0000_0000
  {
    assert Pow256(2) == 0x1_0000;
    assert Pow256(4) == 0x1_0000_0000;
    assert Pow256(6) == 0x1_0000_0000_0000;
  }

  lemma PaddingIsInjective(m: seq<Byte>, m': seq<Byte>)
    requires 8 * |m| < 0x8000_0000_0000_0000 && 8 * |m'| < 0x8000_0000_0000_0000
    requires Padded(m) == Padded(m')
    ensures m == m'
  {
    UnpadUndoesPad(m);
    UnpadUndoesPad(m');
  }

  lemma OutputSlices(a: seq<Byte>, b: seq<Byte>, c: seq<Byte>, d: seq<Byte>)
    requires |a| == |b| == |c| == |d| == 4
    ensures var out := a + b + c + d;
      out[0..4] == a && out[4..8] == b && out[8..12] == c && out[12..16] == d
  {
  }

  lemma WordAtSlice(data: seq<Byte>, i: nat, w: Word)
    requires i + 4 <= |data| && data[i..i + 4] == BytesOf(w)
    ensures WordAt(data, i) == w
  {
    WordsAndBytes(w, data, i);
    assert WordAt(data, i) == WordAt(data[i..i + 4], 0);
  }

  /** The digest has 16 bytes, and its words read back are the four registers. */
  lemma OutputReadsBack(r: Registers)
    ensures |Output(r)| == 16
    ensures WordAt(Output(r), 0) == r.A && WordAt(Output(r), 4) == r.B
    ensures WordAt(Output(r), 8) == r.C && WordAt(Output(r), 12) == r.D
  {
    OutputSlices(BytesOf(r.A), BytesOf(r.B), BytesOf(r.C), BytesOf(r.D));
    WordAtSlice(Output(r), 0, r.A);
    WordAtSlice(Output(r), 4, r.B);
    WordAtSlice(Output(r), 8, r.C);
    WordAtSlice(Output(r), 12, r.D);
  }
}

/** The implementation: one loop over 64 steps that moves the values of the registers. */
module MD5Implementation {
  import opened Basics
  import opened MD5Spec
  import opened MD5Tables
  import opened MD5Digest

  // ---- one step of the main loop ----

  function StepFunction(j: nat, B: Word, C: Word, D: Word): Word {
    if j < 16 then (B & C) | (!B & D)
    else if j < 32 then (D & B) | (!D & C)
    else if j < 48 then B ^ C ^ D
    else C ^ (B | !D)
  }

  lemma GCommutes(B: Word, C: Word, D: Word)
    ensures (D & B) | (!D & C) == G(B, C, D)
  {
  }

  lemma StepFunctionAgrees(j: nat, B: Word, C: Word, D: Word)
    requires j < 64
    ensures StepFunction(j, B, C, D) == Auxiliary(j, B, C, D)
  {
    if 16 <= j < 32 { GCommutes(B, C, D); }
  }

  /** The implementation moves the values where the standard moves the names. */
  function Moved<W>(v: Buffer<W>, value: W): Buffer<W> { Registers(v.D, value, v.B, v.C) }

  lemma NamesTurn<W>(r: Buffer<W>, column: nat, value: W)
    requires column < 4
    ensures Named(Assigned(r, column, value), if column == 3 then 0 else column + 1) == Moved(Named(r, column), value)
  {
  }

  lemma NextColumn(j: nat)
    ensures (j + 1) % 4 == if j % 4 == 3 then 0 else j % 4 + 1
  {
  }

  /** If the variables hold the registers in the order of operation `j`, one turn of the loop
      leaves in them the result of that operation in the order of the next. */
  lemma TurnIsOperation(r: Registers, M: seq<Word>, j: nat)
    requires j < 64 && |M| == 16
    ensures RowIndex(j) < 16 && 0 < RowShift(j) < 32
    ensures var v := Named(Operated(r, M, j), j % 4);
      Moved(v, Operation(v, M, j)) == Named(Operated(r, M, j + 1), (j + 1) % 4)
  {
    OperatedNext(r, M, j);
    NextColumn(j);
    NamesTurn(Operated(r, M, j), j % 4, Operation(Named(Operated(r, M, j), j % 4), M, j));
  }

  // ---- the parts that work by loops ----

  /** The bytes of a 64-bit integer, high-order byte first, as a loop that writes them from the back. */
  method ArrayOfBytes(value: nat, totalBytes: nat) returns (bytes: array<Byte>)
    requires value < 0x8000_0000_0000_0000
    ensures fresh(bytes) && bytes.Length == totalBytes && |LittleEndian(value, 8)| == 8
    ensures forall i :: 0 <= i < totalBytes ==>
      bytes[i] == if totalBytes - 1 - i < 8 then LittleEndian(value, 8)[totalBytes - 1 - i] else 0
  {
    LittleEndianLength(value, 8);
    ghost var memory := LittleEndian(value, 8);
    bytes := new Byte[totalBytes](i => 0);
    var rest := value;
    var n := if totalBytes < 8 then totalBytes else 8;
    for j := 0 to n
      invariant rest >= 0 && memory[j..] == LittleEndian(rest, 8 - j)
      invariant forall i :: 0 <= i < totalBytes ==>
        bytes[i] == if totalBytes - 1 - i < j then memory[totalBytes - 1 - i] else 0
    {
      assert memory[j..][0] == memory[j] && memory[j..][1..] == memory[j + 1..];
      bytes[totalBytes - 1 - j] := (rest % 256) as Byte;
      rest := rest / 256;
    }
  }

  /** Hands out consecutive chunks of its data. */
  class BytesIterator {
    const chunkSize: nat
    const data: seq<Byte>
    var offset: nat

    ghost predicate Valid()
      reads this
    {
      offset <= |data|
    }

    constructor (chunkSize: nat, data: seq<Byte>)
      ensures Valid() && this.chunkSize == chunkSize && this.data == data && offset == 0
    {
      this.chunkSize := chunkSize;
      this.data := data;
      offset := 0;
    }

    /** While a full chunk is left the next one is full; nothing is handed out twice or left out. */
    method Next() returns (r: Option<seq<Byte>>)
      requires Valid()
      modifies this
      ensures Valid() && old(offset) <= offset && r.None? == (old(offset) == |data| || chunkSize == 0)
      ensures r.Some? ==> r.value == data[old(offset)..offset]
      ensures old(offset) + chunkSize <= |data| ==> offset == old(offset) + chunkSize
      ensures |data| < old(offset) + chunkSize ==> offset == |data|
    {
      var end := if chunkSize < |data| - offset then chunkSize else |data| - offset;
      var result := data[offset..offset + end];
      offset := offset + |result|;
      r := if |result| > 0 then Some(result) else None;
    }
  }

  method ToUInt32Array(slice: seq<Byte>) returns (result: seq<Word>)
    requires |slice| == 64
    ensures result == Words(slice)
  {
    result := [];
    var idx := 0;
    while idx < |slice|
      invariant 0 <= idx <= 64 && idx == 4 * |result|
      invariant forall i :: 0 <= i < |result| ==> result[i] == WordAt(slice, 4 * i)
    {
      result := result + [WordAt(slice, idx)];
      idx := idx + 4;
    }
  }

  lemma OperatedNext(r: Registers, X: seq<Word>, n: nat)
    requires |X| == 16 && n < 64
    ensures RowIndex(n) < 16 && 0 < RowShift(n) < 32
    ensures Operated(r, X, n + 1) == Operate(Operated(r, X, n), X, n)
  {
    TablesAgree(n);
  }

  lemma SumCommutes(a: Word, F: Word, x: Word, t: Word)
    ensures a + F + t + x == Sum(a, F, x, t)
  {
  }

  lemma SumIsOperationSum(j: nat, a: Word, b: Word, c: Word, d: Word, F: Word, x: Word, t: Word)
    requires j < 64 && F == Auxiliary(j, b, c, d)
    ensures Sum(a, F, x, t) == OperationSum(j, a, b, c, d, x, t)
  {
  }

  lemma NewSumIs(j: nat, a: Word, b: Word, c: Word, d: Word, F: Word, x: Word, t: Word)
    requires j < 64 && F == StepFunction(j, b, c, d)
    ensures a + F + t + x == OperationSum(j, a, b, c, d, x, t)
  {
    StepFunctionAgrees(j, b, c, d);
    SumIsOperationSum(j, a, b, c, d, F, x, t);
    SumCommutes(a, F, x, t);
  }

  method NewB(j: nat, A: Word, B: Word, C: Word, D: Word, m: Word, sine: Word, shift: Word) returns (b: Word)
    requires j < 64 && 0 < shift < 32
    ensures b == Mixed(B, OperationSum(j, A, B, C, D, m, sine), shift)
  {
    var F := StepFunction(j, B, C, D);
    NewSumIs(j, A, B, C, D, F, m, sine);
    b := Mixed(B, A + F + sine + m, shift);
  }

  /** The body of the main loop moves the values where the standard moves the names. */
  method Turn(v: Registers, M: seq<Word>, j: nat) returns (r: Registers)
    requires j < 64 && |M| == 16
    ensures RowIndex(j) < 16 && 0 < RowShift(j) < 32 && r == Moved(v, Operation(v, M, j))
  {
    TablesAgree(j);
    var b := NewB(j, v.A, v.B, v.C, v.D, M[WordIndex(j)], T[j], Shifts(j));
    r := Registers(v.D, b, v.B, v.C);
  }

  method MainLoop(hh: Registers, M: seq<Word>) returns (r: Registers)
    requires |M| == 16
    ensures r == Operated(hh, M, 64)
  {
    var A, B, C, D := hh.A, hh.B, hh.C, hh.D;
    for j := 0 to 64
      invariant Registers(A, B, C, D) == Named(Operated(hh, M, j), j % 4)
    {
      TurnIsOperation(hh, M, j);
      var next := Turn(Registers(A, B, C, D), M, j);
      A, B, C, D := next.A, next.B, next.C, next.D;
    }
    r := Registers(A, B, C, D);
  }

  lemma AddsTo(hh: Registers, chunk: seq<Byte>, r: Registers, data: seq<Byte>, n: nat)
    requires 64 * n + 64 <= |data| && chunk == data[64 * n..64 * n + 64]
    requires hh == Chained(data, n) && r == Operated(hh, Words(chunk), 64)
    ensures Add(hh, r) == Chained(data, n + 1)
  {
  }

  /** The main loop on the next chunk, and the addition of its result to the hash values. */
  method Process(hh: Registers, chunk: seq<Byte>, ghost data: seq<Byte>, ghost n: nat) returns (r: Registers)
    requires 64 * n + 64 <= |data| && chunk == data[64 * n..64 * n + 64] && hh == Chained(data, n)
    ensures r == Chained(data, n + 1)
  {
    var M := ToUInt32Array(chunk);
    r := MainLoop(hh, M);
    AddsTo(hh, chunk, r, data, n);
    r := Add(hh, r);
  }

  const HASHES: Registers := Registers(0x67452301, 0xefcdab89, 0x98badcfe, 0x10325476)

  lemma HashesAreInitial()
    ensures HASHES == INITIAL
  {
  }

  method Hashes(ghost data: seq<Byte>) returns (hh: Registers)
    ensures hh == Chained(data, 0)
  {
    HashesAreInitial();
    hh := HASHES;
  }

  /** The iterator's chunks of a whole number of blocks are those blocks, in order and none left over. */
  method ProcessChunks(data: seq<Byte>, ghost blocks: nat) returns (hh: Registers)
    requires |data| == 64 * blocks
    ensures hh == Chained(data, blocks)
  {
    hh := Hashes(data);
    var chunks := new BytesIterator(64, data);
    ghost var n := 0;
    var chunk := NextBlock(chunks, 0, blocks);
    while chunk.Some?
      invariant chunks.chunkSize == 64 && chunks.data == data && 0 <= n <= blocks
      invariant hh == Chained(data, n) && IsBlock(chunk, data, n, blocks)
      invariant chunk.Some? ==> chunks.offset == 64 * n + 64
      decreases blocks - n
    {
      hh := Process(hh, chunk.value, data, n);
      n := n + 1;
      chunk := NextBlock(chunks, n, blocks);
    }
  }

  /** Block `n` of the data, or none when there are only `n`. */
  ghost predicate IsBlock(chunk: Option<seq<Byte>>, data: seq<Byte>, n: nat, blocks: nat) {
    if chunk.None? then n == blocks
    else n < blocks && 64 * n + 64 <= |data| && chunk.value == data[64 * n..64 * n + 64]
  }

  method NextBlock(chunks: BytesIterator, ghost n: nat, ghost blocks: nat) returns (chunk: Option<seq<Byte>>)
    requires chunks.chunkSize == 64 && |chunks.data| == 64 * blocks && n <= blocks && chunks.offset == 64 * n
    modifies chunks
    ensures IsBlock(chunk, chunks.data, n, blocks) && (chunk.Some? ==> chunks.offset == 64 * n + 64)
  {
    chunk := chunks.Next();
  }

  class MD5 {
    const message: seq<Byte>

    constructor (message: seq<Byte>)
      ensures this.message == message
    {
      this.message := message;
    }

    /** The loop that counts the zero bytes turns fewer than 64 times. */
    method Prepare() returns (tmpMessage: seq<Byte>)
      ensures tmpMessage == message + [0x80] + Zeros(ZeroCount(|message|)) && ZeroCount(|message|) < 64
    {
      tmpMessage := message + [0x80];
      var msgLength := |tmpMessage|;
      var counter := 0;
      while msgLength % 64 != 56
        invariant msgLength == |message| + 1 + counter && 0 <= counter <= ZeroCount(|message|)
        decreases ZeroCount(|message|) - counter
      {
        counter := counter + 1;
        msgLength := msgLength + 1;
      }
      tmpMessage := tmpMessage + Zeros(counter);
    }

    method AppendLength(tmpMessage: seq<Byte>) returns (data: seq<Byte>)
      requires 8 * |message| < 0x8000_0000_0000_0000
      ensures data == tmpMessage + LittleEndian(8 * |message|, 8)
    {
      var lengthBytes := ArrayOfBytes(8 * |message|, 8);
      var reversed := seq(8, i requires 0 <= i < 8 reads lengthBytes => lengthBytes[7 - i]);
      assert reversed == LittleEndian(8 * |message|, 8);
      data := tmpMessage + reversed;
    }

    /** The implementation computes the digest of RFC 1321. */
    method Calculate() returns (result: seq<Byte>)
      requires 8 * |message| < 0x8000_0000_0000_0000
      ensures result == Digest(message) && |result| == 16
    {
      var tmpMessage := Prepare();
      tmpMessage := AppendLength(tmpMessage);
      PaddedLength(message);
      var hh := ProcessChunks(tmpMessage, |tmpMessage| / 64);
      result := Output(hh);
      OutputReadsBack(hh);
    }
  }

  // ---- hex printing ----

  function HexDigit(n: nat): char
    requires n < 16
  {
    if n < 10 then '0' + n as char else 'a' + (n - 10) as char
  }

  function DigitValue(c: char): nat {
    if '0' <= c <= '9' then (c - '0') as nat else if 'a' <= c <= 'f' then (c - 'a') as nat + 10 else 0
  }

  /** What the digits stand for, two to a byte. */
  function FromHex(s: string): (r: seq<nat>)
    requires |s| % 2 == 0
    ensures 2 * |r| == |s|
  {
    if s == [] then [] else [16 * DigitValue(s[0]) + DigitValue(s[1])] + FromHex(s[2..])
  }

  predicate IsHexDigit(c: char) { '0' <= c <= '9' || 'a' <= c <= 'f' }

  lemma DigitReadsBack(n: nat)
    requires n < 16
    ensures IsHexDigit(HexDigit(n)) && DigitValue(HexDigit(n)) == n
  {
  }

  /** The two digits of a byte. */
  method HexByte(c: nat) returns (s: string)
    requires c < 256
    ensures |s| == 2 && IsHexDigit(s[0]) && IsHexDigit(s[1]) && 16 * DigitValue(s[0]) + DigitValue(s[1]) == c
  {
    DigitReadsBack(c / 16);
    DigitReadsBack(c % 16);
    s := [HexDigit(c / 16), HexDigit(c % 16)];
  }

  /** Prints the digest; reading the printed string two digits at a time gives the bytes back. */
  method Hex(bytes: seq<Byte>) returns (s: string)
    ensures |s| == 2 * |bytes| && forall c :: c in s ==> IsHexDigit(c)
    ensures forall k :: 0 <= k < |bytes| ==> FromHex(s)[k] == bytes[k] as nat
  {
    s := "";
    for i := 0 to |bytes|
      invariant |s| == 2 * i && forall c :: c in s ==> IsHexDigit(c)
      invariant forall k :: 0 <= k < i ==> FromHex(s)[k] == bytes[k] as nat
    {
      var digits := HexByte(bytes[i] as nat);
      FromHexAppend(s, digits);
      s := s + digits;
    }
  }

  lemma FromHexFront(front: string, rest: string)
    requires |front| == 2 && |rest| % 2 == 0
    ensures FromHex(front + rest) == [16 * DigitValue(front[0]) + DigitValue(front[1])] + FromHex(rest)
  {
    assert (front + rest)[2..] == rest;
  }

  lemma {:induction false} FromHexAppend(s: string, digits: string)
    requires |s| % 2 == 0 && |digits| == 2
    ensures FromHex(s + digits) == FromHex(s) + [16 * DigitValue(digits[0]) + DigitValue(digits[1])]
  {
    if s == [] {
      FromHexFront(digits, []);
      assert s + digits == digits == digits + [];
    } else {
      FromHexAppend(s[2..], digits);
      FromHexFront(s[..2], s[2..]);
      FromHexFront(s[..2], s[2..] + digits);
      assert s == s[..2] + s[2..] && s + digits == s[..2] + (s[2..] + digits);
    }
  }
}
