/**
 * The CHIP-8 / Super-CHIP instruction set of src/instructions.rs: the closed
 * set of variants with their operand widths, the opcode table its
 * documentation gives for them, the most-significant-byte-first layout of an
 * instruction word in memory, and the `Sys`-only encoder of that file.
 */
module Instructions {

  /**
   * Rust's `u16` is a 16-bit vector; a `u8` is a 16-bit value below 0x100,
   * so that `u16::from` of a `u8` is the same value.
   */
  type U16 = bv16
  type U8 = b: bv16 | b < 0x100

  /** One hexadecimal digit of a word. */
  type Nibble = n: bv16 | n < 0x10

  /** The 16-bit word an instruction encodes to. */
  type Word = bv16

  datatype Option<T> = None | Some(value: T)

  /**
   * One variant per row of the opcode table, with the operand types the
   * source declares: register indices, bytes and nibble literals are `u8`,
   * the addresses of `Sys`, `Jump` and `Call` are `u16`, and the addresses of
   * `LoadI` and `JumpImmediate` are only `u8`. `SkipNotEqualImediate`
   * keeps the source's spelling.
   */
  datatype Instruction =
    | Sys(addr: U16)
    | ScrollDown(k: U8)
    | ScrollRight
    | ScrollLeft
    | Exit
    | LowRes
    | HighRes
    | ClearScreen
    | Return
    | Jump(addr: U16)
    | Call(addr: U16)
    | SkipEqualImmediate(vx: U8, byte: U8)
    | SkipNotEqualImediate(vx: U8, byte: U8)
    | SkipEqual(vx: U8, vy: U8)
    | LoadImmediate(vx: U8, byte: U8)
    | AddImmediate(vx: U8, byte: U8)
    | Load(vx: U8, vy: U8)
    | Or(vx: U8, vy: U8)
    | And(vx: U8, vy: U8)
    | Xor(vx: U8, vy: U8)
    | Add(vx: U8, vy: U8)
    | Sub(vx: U8, vy: U8)
    | ShiftRight(vx: U8, vy: U8)
    | SubNumeric(vx: U8, vy: U8)
    | ShiftLeft(vx: U8, vy: U8)
    | SkipNotEqual(vx: U8, vy: U8)
    | LoadI(addr8: U8)
    | JumpImmediate(addr8: U8)
    | Random(vx: U8, byte: U8)
    | Draw(vx: U8, vy: U8, nibble: U8)
    | SkipOnKey(vx: U8)
    | SkipNotOnKey(vx: U8)
    | LoadDTIntoV(vx: U8)
    | LoadKey(vx: U8)
    | LoadVIntoDT(vx: U8)
    | LoadVIntoST(vx: U8)
    | AddI(vx: U8)
    | LoadSpriteIntoI(vx: U8)
    | LoadBCDIntoI(vx: U8)
    | LoadVIntoMem(vx: U8)
    | LoadMemIntoV(vx: U8)

  /**
   * The width legend of the table: `x` and `y` are 4 bits, and a run of
   * `k` symbols is 4 bits per symbol (`k` 4, `kk` 8, `kkk` 12). An
   * instruction is well formed when every operand fits its symbols.
   */
  predicate WellFormed(i: Instruction)
  {
    match i
    case Sys(a) => a < 0x1000
    case ScrollDown(k) => k < 0x10
    case Jump(a) => a < 0x1000
    case Call(a) => a < 0x1000
    case SkipEqualImmediate(x, _) => x < 0x10
    case SkipNotEqualImediate(x, _) => x < 0x10
    case SkipEqual(x, y) => x < 0x10 && y < 0x10
    case LoadImmediate(x, _) => x < 0x10
    case AddImmediate(x, _) => x < 0x10
    case Load(x, y) => x < 0x10 && y < 0x10
    case Or(x, y) => x < 0x10 && y < 0x10
    case And(x, y) => x < 0x10 && y < 0x10
    case Xor(x, y) => x < 0x10 && y < 0x10
    case Add(x, y) => x < 0x10 && y < 0x10
    case Sub(x, y) => x < 0x10 && y < 0x10
    case ShiftRight(x, y) => x < 0x10 && y < 0x10
    case SubNumeric(x, y) => x < 0x10 && y < 0x10
    case ShiftLeft(x, y) => x < 0x10 && y < 0x10
    case SkipNotEqual(x, y) => x < 0x10 && y < 0x10
    case Random(x, _) => x < 0x10
    case Draw(x, y, n) => x < 0x10 && y < 0x10 && n < 0x10
    case SkipOnKey(x) => x < 0x10
    case SkipNotOnKey(x) => x < 0x10
    case LoadDTIntoV(x) => x < 0x10
    case LoadKey(x) => x < 0x10
    case LoadVIntoDT(x) => x < 0x10
    case LoadVIntoST(x) => x < 0x10
    case AddI(x) => x < 0x10
    case LoadSpriteIntoI(x) => x < 0x10
    case LoadBCDIntoI(x) => x < 0x10
    case LoadVIntoMem(x) => x < 0x10
    case LoadMemIntoV(x) => x < 0x10
    case _ => true
  }

  // The opcode table, transcribed symbol by symbol.

  /**
   * A symbol of the table's OpCode column: a fixed hexadecimal digit, the
   * register `x` or `y`, or one `k` of a run of operand digits.
   */
  datatype Symbol = Hex(n: Nibble) | X | Y | K

  /** The four symbols of one OpCode entry, most significant first (`3xkk` is `Hex(3) X K K`). */
  datatype Pattern = Pattern(d3: Symbol, d2: Symbol, d1: Symbol, d0: Symbol)

  /** The OpCode column of the table, row by row. */
  function Row(i: Instruction): Pattern
  {
    match i
    case Sys(_) => Pattern(Hex(0x0), K, K, K)
    case ScrollDown(_) => Pattern(Hex(0x0), Hex(0x0), Hex(0xC), K)
    case ScrollRight => Pattern(Hex(0x0), Hex(0x0), Hex(0xF), Hex(0xB))
    case ScrollLeft => Pattern(Hex(0x0), Hex(0x0), Hex(0xF), Hex(0xC))
    case Exit => Pattern(Hex(0x0), Hex(0x0), Hex(0xF), Hex(0xD))
    case LowRes => Pattern(Hex(0x0), Hex(0x0), Hex(0xF), Hex(0xE))
    case HighRes => Pattern(Hex(0x0), Hex(0x0), Hex(0xF), Hex(0xF))
    case ClearScreen => Pattern(Hex(0x0), Hex(0x0), Hex(0xE), Hex(0x0))
    case Return => Pattern(Hex(0x0), Hex(0x0), Hex(0xE), Hex(0xE))
    case Jump(_) => Pattern(Hex(0x1), K, K, K)
    case Call(_) => Pattern(Hex(0x2), K, K, K)
    case SkipEqualImmediate(_, _) => Pattern(Hex(0x3), X, K, K)
    case SkipNotEqualImediate(_, _) => Pattern(Hex(0x4), X, K, K)
    case SkipEqual(_, _) => Pattern(Hex(0x5), X, Y, Hex(0x0))
    case LoadImmediate(_, _) => Pattern(Hex(0x6), X, K, K)
    case AddImmediate(_, _) => Pattern(Hex(0x7), X, K, K)
    case Load(_, _) => Pattern(Hex(0x8), X, Y, Hex(0x0))
    case Or(_, _) => Pattern(Hex(0x8), X, Y, Hex(0x1))
    case And(_, _) => Pattern(Hex(0x8), X, Y, Hex(0x2))
    case Xor(_, _) => Pattern(Hex(0x8), X, Y, Hex(0x3))
    case Add(_, _) => Pattern(Hex(0x8), X, Y, Hex(0x4))
    case Sub(_, _) => Pattern(Hex(0x8), X, Y, Hex(0x5))
    case ShiftRight(_, _) => Pattern(Hex(0x8), X, Y, Hex(0x6))
    case SubNumeric(_, _) => Pattern(Hex(0x8), X, Y, Hex(0x7))
    case ShiftLeft(_, _) => Pattern(Hex(0x8), X, Y, Hex(0xE))
    case SkipNotEqual(_, _) => Pattern(Hex(0x9), X, Y, Hex(0x0))
    case LoadI(_) => Pattern(Hex(0xA), K, K, K)
    case JumpImmediate(_) => Pattern(Hex(0xB), K, K, K)
    case Random(_, _) => Pattern(Hex(0xC), X, K, K)
    case Draw(_, _, _) => Pattern(Hex(0xD), X, Y, K)
    case SkipOnKey(_) => Pattern(Hex(0xE), X, Hex(0x9), Hex(0xE))
    case SkipNotOnKey(_) => Pattern(Hex(0xE), X, Hex(0xA), Hex(0x1))
    case LoadDTIntoV(_) => Pattern(Hex(0xF), X, Hex(0x0), Hex(0x7))
    case LoadKey(_) => Pattern(Hex(0xF), X, Hex(0x0), Hex(0xA))
    case LoadVIntoDT(_) => Pattern(Hex(0xF), X, Hex(0x1), Hex(0x5))
    case LoadVIntoST(_) => Pattern(Hex(0xF), X, Hex(0x1), Hex(0x8))
    case AddI(_) => Pattern(Hex(0xF), X, Hex(0x1), Hex(0xE))
    case LoadSpriteIntoI(_) => Pattern(Hex(0xF), X, Hex(0x2), Hex(0x9))
    case LoadBCDIntoI(_) => Pattern(Hex(0xF), X, Hex(0x3), Hex(0x3))
    case LoadVIntoMem(_) => Pattern(Hex(0xF), X, Hex(0x5), Hex(0x5))
    case LoadMemIntoV(_) => Pattern(Hex(0xF), X, Hex(0x6), Hex(0x5))
  }

  /** The seven rows without operands, each a single fixed word (`00FB`, `00E0`, …). */
  predicate IsFixed(i: Instruction)
  {
    i.ScrollRight? || i.ScrollLeft? || i.Exit? || i.LowRes? || i.HighRes? || i.ClearScreen? || i.Return?
  }

  /** The `8xy_` register-to-register rows. */
  predicate IsArithmetic(i: Instruction)
  {
    i.Load? || i.Or? || i.And? || i.Xor? || i.Add? || i.Sub? || i.ShiftRight? || i.SubNumeric? || i.ShiftLeft?
  }

  /** The `Ex__` and `Fx__` rows: a register and an 8-bit sub-opcode. */
  predicate IsKeyOrMisc(i: Instruction)
  {
    i.SkipOnKey? || i.SkipNotOnKey? || i.LoadDTIntoV? || i.LoadKey? || i.LoadVIntoDT? || i.LoadVIntoST? ||
    i.AddI? || i.LoadSpriteIntoI? || i.LoadBCDIntoI? || i.LoadVIntoMem? || i.LoadMemIntoV?
  }

  /** The values the symbols `x`, `y` and `k…` of a row stand for (zero where the row has no such symbol). */
  datatype Operands = Operands(x: U16, y: U16, k: U16)

  function OperandsOf(i: Instruction): Operands
  {
    match i
    case Sys(a) => Operands(0, 0, a)
    case ScrollDown(k) => Operands(0, 0, k)
    case Jump(a) => Operands(0, 0, a)
    case Call(a) => Operands(0, 0, a)
    case SkipEqualImmediate(x, kk) => Operands(x, 0, kk)
    case SkipNotEqualImediate(x, kk) => Operands(x, 0, kk)
    case SkipEqual(x, y) => Operands(x, y, 0)
    case LoadImmediate(x, kk) => Operands(x, 0, kk)
    case AddImmediate(x, kk) => Operands(x, 0, kk)
    case Load(x, y) => Operands(x, y, 0)
    case Or(x, y) => Operands(x, y, 0)
    case And(x, y) => Operands(x, y, 0)
    case Xor(x, y) => Operands(x, y, 0)
    case Add(x, y) => Operands(x, y, 0)
    case Sub(x, y) => Operands(x, y, 0)
    case ShiftRight(x, y) => Operands(x, y, 0)
    case SubNumeric(x, y) => Operands(x, y, 0)
    case ShiftLeft(x, y) => Operands(x, y, 0)
    case SkipNotEqual(x, y) => Operands(x, y, 0)
    case LoadI(a) => Operands(0, 0, a)
    case JumpImmediate(a) => Operands(0, 0, a)
    case Random(x, kk) => Operands(x, 0, kk)
    case Draw(x, y, n) => Operands(x, y, n)
    case SkipOnKey(x) => Operands(x, 0, 0)
    case SkipNotOnKey(x) => Operands(x, 0, 0)
    case LoadDTIntoV(x) => Operands(x, 0, 0)
    case LoadKey(x) => Operands(x, 0, 0)
    case LoadVIntoDT(x) => Operands(x, 0, 0)
    case LoadVIntoST(x) => Operands(x, 0, 0)
    case AddI(x) => Operands(x, 0, 0)
    case LoadSpriteIntoI(x) => Operands(x, 0, 0)
    case LoadBCDIntoI(x) => Operands(x, 0, 0)
    case LoadVIntoMem(x) => Operands(x, 0, 0)
    case LoadMemIntoV(x) => Operands(x, 0, 0)
    case _ => Operands(0, 0, 0)
  }

  /** Digit `s / 4` (counting from the least significant) of a word. */
  function DigitOf(w: Word, s: bv16): Nibble
    requires s == 0 || s == 4 || s == 8 || s == 12
  {
    (w >> s) & 0xF
  }

  /**
   * The digit a symbol stands for at shift `s`: a fixed digit itself, the
   * low digit of `x` or `y`, and the digit of `k` at the same position (the
   * `k` run always ends at the least significant digit of a row).
   */
  function SymbolDigit(sym: Symbol, s: bv16, ops: Operands): Nibble
    requires s == 0 || s == 4 || s == 8 || s == 12
  {
    match sym
    case Hex(n) => n
    case X => ops.x & 0xF
    case Y => ops.y & 0xF
    case K => DigitOf(ops.k, s)
  }

  /** The word whose hexadecimal digits, most significant first, are `d3 d2 d1 d0`. */
  function FromDigits(d3: Nibble, d2: Nibble, d1: Nibble, d0: Nibble): Word
  {
    (d3 << 12) | (d2 << 8) | (d1 << 4) | d0
  }

  /** `FromDigits` and `DigitOf` are inverse: each digit reads back. */
  lemma DigitsOfFromDigits(d3: Nibble, d2: Nibble, d1: Nibble, d0: Nibble)
    ensures DigitOf(FromDigits(d3, d2, d1, d0), 12) == d3 && DigitOf(FromDigits(d3, d2, d1, d0), 8) == d2
    ensures DigitOf(FromDigits(d3, d2, d1, d0), 4) == d1 && DigitOf(FromDigits(d3, d2, d1, d0), 0) == d0
  {}

  /** A row's word: every symbol replaced by the digit it stands for. */
  function Fill(p: Pattern, ops: Operands): Word
  {
    FromDigits(SymbolDigit(p.d3, 12, ops), SymbolDigit(p.d2, 8, ops),
               SymbolDigit(p.d1, 4, ops), SymbolDigit(p.d0, 0, ops))
  }

  /**
   * The word the opcode table documents for an instruction: its row with
   * every operand symbol replaced by the matching digit of the operand.
   */
  function Documented(i: Instruction): Word
  {
    Fill(Row(i), OperandsOf(i))
  }

  /** Each digit of a filled row is the digit its symbol stands for. */
  lemma FillDigits(p: Pattern, ops: Operands)
    ensures DigitOf(Fill(p, ops), 12) == SymbolDigit(p.d3, 12, ops)
    ensures DigitOf(Fill(p, ops), 8) == SymbolDigit(p.d2, 8, ops)
    ensures DigitOf(Fill(p, ops), 4) == SymbolDigit(p.d1, 4, ops)
    ensures DigitOf(Fill(p, ops), 0) == SymbolDigit(p.d0, 0, ops)
  {}

  /** The digits of a documented word are the digits its row's symbols stand for. */
  lemma DocumentedDigits(i: Instruction)
    ensures DigitOf(Documented(i), 12) == SymbolDigit(Row(i).d3, 12, OperandsOf(i))
    ensures DigitOf(Documented(i), 8) == SymbolDigit(Row(i).d2, 8, OperandsOf(i))
    ensures DigitOf(Documented(i), 4) == SymbolDigit(Row(i).d1, 4, OperandsOf(i))
    ensures DigitOf(Documented(i), 0) == SymbolDigit(Row(i).d0, 0, OperandsOf(i))
  {
    FillDigits(Row(i), OperandsOf(i));
  }

  /** Every row starts with a fixed digit, the family of the instruction. */
  lemma FamilyDigitFixed(i: Instruction)
    ensures Row(i).d3.Hex?
  {}

  /** The `8xy_` variants are exactly the rows of family 8. */
  lemma ArithmeticFamilyRows(i: Instruction)
    ensures IsArithmetic(i) <==> Row(i).d3 == Hex(0x8)
  {}

  /** The key and misc variants are exactly the rows of families E and F. */
  lemma KeyOrMiscFamilyRows(i: Instruction)
    ensures IsKeyOrMisc(i) <==> Row(i).d3 == Hex(0xE) || Row(i).d3 == Hex(0xF)
  {
    if IsKeyOrMisc(i) {
      KeyOrMiscInFamilies(i);
    } else {
      OthersOutsideFamilies(i);
    }
  }

  lemma KeyOrMiscInFamilies(i: Instruction)
    requires IsKeyOrMisc(i)
    ensures Row(i).d3 == Hex(0xE) || Row(i).d3 == Hex(0xF)
  {}

  lemma OthersOutsideFamilies(i: Instruction)
    requires !IsKeyOrMisc(i)
    ensures Row(i).d3 != Hex(0xE) && Row(i).d3 != Hex(0xF)
  {}

  /** The fixed variants are exactly the rows without an operand symbol. */
  lemma FixedRowsWithoutSymbols(i: Instruction)
    ensures IsFixed(i) <==> Row(i).d2.Hex? && Row(i).d1.Hex? && Row(i).d0.Hex?
  {}

  lemma DigitsDetermineWord(w: Word, v: Word)
    requires DigitOf(w, 12) == DigitOf(v, 12) && DigitOf(w, 8) == DigitOf(v, 8)
    requires DigitOf(w, 4) == DigitOf(v, 4) && DigitOf(w, 0) == DigitOf(v, 0)
    ensures w == v
  {}

  // Instruction words in memory.

  /** An instruction word as it is stored: two bytes, the most significant first. */
  function ToBytes(w: Word): (bs: seq<U8>)
    ensures |bs| == 2
  {
    [w >> 8, w & 0xFF]
  }

  /** The word stored in two consecutive bytes, the first the most significant. */
  function FromBytes(bs: seq<U8>): Word
    requires |bs| == 2
  {
    ((bs[0] as Word) << 8) | bs[1]
  }

  /** Splitting a word into its two stored bytes and joining them gives the word back. */
  lemma BytesRoundTrip(w: Word)
    ensures FromBytes(ToBytes(w)) == w
  {}

  /** Joining two bytes and splitting the word gives the bytes back, the high byte first. */
  lemma WordRoundTrip(bs: seq<U8>)
    requires |bs| == 2
    ensures ToBytes(FromBytes(bs)) == bs
  {
    var hi, lo := bs[0], bs[1];
    JoinedBytes(hi, lo);
    assert bs == [hi, lo];
  }

  lemma JoinedBytes(hi: U8, lo: U8)
    ensures FromBytes([hi, lo]) >> 8 == hi && FromBytes([hi, lo]) & 0xFF == lo
  {}

  /**
   * A program image: every instruction stored as its two bytes, one
   * after the other, so that instruction `k` starts at the even offset
   * `2 * k`.
   */
  function Image(ws: seq<Word>): (bs: seq<U8>)
    ensures |bs| == 2 * |ws|
    decreases |ws|
  {
    if ws == [] then [] else ToBytes(ws[0]) + Image(ws[1..])
  }

  /** The instructions read back from an image of even length, two bytes each. */
  function Words(bs: seq<U8>): (ws: seq<Word>)
    requires |bs| % 2 == 0
    ensures 2 * |ws| == |bs|
    decreases |bs|
  {
    if bs == [] then [] else [FromBytes(bs[..2])] + Words(bs[2..])
  }

  /** Instruction `k` of a program occupies bytes `2 * k` and `2 * k + 1` of its image. */
  lemma {:induction false} ImageAt(ws: seq<Word>, k: nat)
    requires k < |ws|
    ensures Image(ws)[2 * k .. 2 * k + 2] == ToBytes(ws[k])
    decreases k
  {
    if k > 0 {
      ImageAt(ws[1..], k - 1);
      assert Image(ws)[2 * k .. 2 * k + 2] == Image(ws[1..])[2 * (k - 1) .. 2 * (k - 1) + 2];
    }
  }

  /** Reading back the image of a program gives the program. */
  lemma {:induction false} ImageRoundTrip(ws: seq<Word>)
    ensures Words(Image(ws)) == ws
    decreases |ws|
  {
    if ws != [] {
      var bs := Image(ws);
      assert bs[..2] == ToBytes(ws[0]);
      assert bs[2..] == Image(ws[1..]);
      BytesRoundTrip(ws[0]);
      ImageRoundTrip(ws[1..]);
    }
  }

  /** Every image of even length is the image of the words read from it. */
  lemma {:induction false} WordsRoundTrip(bs: seq<U8>)
    requires |bs| % 2 == 0
    ensures Image(Words(bs)) == bs
    decreases |bs|
  {
    if bs != [] {
      var ws := Words(bs);
      WordRoundTrip(bs[..2]);
      WordsRoundTrip(bs[2..]);
      assert ws[1..] == Words(bs[2..]);
      assert bs == bs[..2] + bs[2..];
    }
  }

  // The encoder of src/instructions.rs.

  /**
   * `From<Instruction> for OpCode` of src/instructions.rs: `Sys(addr)`
   * becomes `0x0 | addr`, and every other variant reaches `todo!()`,
   * modelled as `None`.
   */
  function StubFromInstruction(i: Instruction): (r: Option<Word>)
    ensures r.Some? <==> i.Sys?
  {
    if i.Sys? then Some(0x0 | i.addr) else None
  }

  /**
   * `0x0 | addr` masks nothing: the word is the address itself, and its top
   * digit is the `0` the table promises only for addresses below 0x1000.
   */
  lemma StubSysUnmasked(addr: U16)
    ensures StubFromInstruction(Sys(addr)) == Some(addr)
    ensures DigitOf(StubFromInstruction(Sys(addr)).value, 12) == 0 <==> addr < 0x1000
    ensures StubFromInstruction(Sys(addr)).value == Documented(Sys(addr)) <==> addr < 0x1000
  {
    FillDigits(Row(Sys(addr)), OperandsOf(Sys(addr)));
    if addr < 0x1000 {
      DigitsDetermineWord(addr, Documented(Sys(addr)));
    }
  }
}
