/**
 * The whole encoder, Instruction to 16-bit word, as the repository defines
 * it: `Sys` by the encoder of src/instructions.rs, every other variant by the
 * match of src/opcode.rs. Beside it the same encoder with `oxoo` laid out as
 * the opcode table documents, and what each of the two shares with the table.
 */
module Encoding {
  import opened Instructions
  import opened OpCodes

  /** The encoder as written. */
  function Encode(i: Instruction): OpCode
  {
    match StubFromInstruction(i)
    case Some(w) => w
    case None => FromInstruction(i)
  }

  /** The encoder with the `Ex__` and `Fx__` rows laid out as documented. */
  function EncodeCorrected(i: Instruction): OpCode
  {
    match StubFromInstruction(i)
    case Some(w) => w
    case None => FromInstructionCorrected(i)
  }

  /** The encoder runs the builder the match chooses. */
  lemma EncodeCall(i: Instruction, c: BuilderCall)
    requires !i.Sys? && BuilderFor(i) == c
    ensures Encode(i) == Apply(c)
  {}

  /** So does the corrected one, with `oxoo` replaced. */
  lemma CorrectedCall(i: Instruction, c: BuilderCall)
    requires !i.Sys? && BuilderFor(i) == c
    ensures EncodeCorrected(i) == ApplyCorrected(c)
  {}

  // The literal results the repository's tests expect (src/opcode.rs:140-210):
  // `ScrollDown(0xA)`, the seven fixed words and `Jump(0xABC)`.

  lemma ScrollDownVector()
    ensures Encode(ScrollDown(0xA)) == 0x00CA
  {
    EncodeCall(ScrollDown(0xA), CallOook(0x00C, 0xA));
  }

  lemma JumpVector()
    ensures Encode(Jump(0xABC)) == 0x1ABC
  {
    EncodeCall(Jump(0xABC), CallOkkk(0x1, 0xABC));
  }

  /** The seven rows without operands encode to their fixed words. */
  lemma FixedVectors()
    ensures Encode(ScrollRight) == 0x00FB
    ensures Encode(ScrollLeft) == 0x00FC
    ensures Encode(Exit) == 0x00FD
    ensures Encode(LowRes) == 0x00FE
    ensures Encode(HighRes) == 0x00FF
    ensures Encode(ClearScreen) == 0x00E0
    ensures Encode(Return) == 0x00EE
  {}

  // Worked examples of the `okkk` and `oxyk` rows; the repository has no
  // test for these two.

  lemma CallVector()
    ensures Encode(Call(0xABC)) == 0x2ABC
  {
    EncodeCall(Call(0xABC), CallOkkk(0x2, 0xABC));
  }

  lemma DrawVector()
    ensures Encode(Draw(0xA, 0xB, 0xC)) == 0xDABC
  {
    EncodeCall(Draw(0xA, 0xB, 0xC), CallOxyk(0xD, 0xA, 0xB, 0xC));
  }

  // What the match of src/opcode.rs chooses, row by row of the table. Each
  // lemma is about the shape of the rows only: which builder the match
  // calls, and that its constant arguments are the fixed digits of the row.

  /** The variants the match sends to `okkk`: an address under a family digit. */
  predicate AddressRow(i: Instruction)
  {
    i.Jump? || i.Call? || i.LoadI? || i.JumpImmediate?
  }

  /** The variants the match sends to `oxkk`: a register and a byte under a family digit. */
  predicate ByteRow(i: Instruction)
  {
    i.SkipEqualImmediate? || i.SkipNotEqualImediate? || i.LoadImmediate? || i.AddImmediate? || i.Random?
  }

  /** The variants the match sends to `oxyo`: two registers between two fixed digits. */
  predicate RegisterRow(i: Instruction)
  {
    i.SkipEqual? || IsArithmetic(i) || i.SkipNotEqual?
  }

  lemma ShapeOooo(i: Instruction)
    requires IsFixed(i)
    ensures var c := BuilderFor(i);
      c.CallOooo? &&
      Row(i) == Pattern(Hex(DigitOf(c.oooo, 12)), Hex(DigitOf(c.oooo, 8)), Hex(DigitOf(c.oooo, 4)), Hex(DigitOf(c.oooo, 0)))
  {}

  lemma ShapeOook(i: Instruction)
    requires i.ScrollDown?
    ensures BuilderFor(i) == CallOook(0x00C, i.k)
    ensures Row(i) == Pattern(Hex(0x0), Hex(0x0), Hex(0xC), K) && OperandsOf(i).k == i.k
  {}

  lemma ShapeOkkk(i: Instruction)
    requires AddressRow(i)
    ensures var c := BuilderFor(i);
      c.CallOkkk? && c.o < 0xE && Row(i) == Pattern(Hex(c.o), K, K, K) && OperandsOf(i).k == c.kkk
  {}

  lemma ShapeOxkk(i: Instruction)
    requires ByteRow(i)
    ensures var c := BuilderFor(i);
      c.CallOxkk? && c.o < 0xE && Row(i) == Pattern(Hex(c.o), X, K, K) &&
      OperandsOf(i).x == c.x && OperandsOf(i).k == c.kk
  {}

  /** The match calls `oxyo` with the row's two fixed digits around the registers. */
  predicate OxyoShaped(i: Instruction)
    requires !i.Sys?
  {
    var c := BuilderFor(i);
    c.CallOxyo? && c.om < 0xE && c.ol < 0x10 && Row(i) == Pattern(Hex(c.om), X, Y, Hex(c.ol)) &&
    OperandsOf(i).x == c.x && OperandsOf(i).y == c.y
  }

  lemma ShapeOxyo(i: Instruction)
    requires RegisterRow(i)
    ensures OxyoShaped(i)
  {
    if i.Load? || i.Or? || i.And? || i.Xor? {
      ShapeLogic(i);
    } else if IsArithmetic(i) {
      ShapeArithmetic(i);
    } else {
      ShapeSkipRegisters(i);
    }
  }

  lemma ShapeLogic(i: Instruction)
    requires i.Load? || i.Or? || i.And? || i.Xor?
    ensures OxyoShaped(i)
  {}

  lemma ShapeArithmetic(i: Instruction)
    requires i.Add? || i.Sub? || i.ShiftRight? || i.SubNumeric? || i.ShiftLeft?
    ensures OxyoShaped(i)
  {}

  lemma ShapeSkipRegisters(i: Instruction)
    requires i.SkipEqual? || i.SkipNotEqual?
    ensures OxyoShaped(i)
  {}

  lemma ShapeOxyk(i: Instruction)
    requires i.Draw?
    ensures BuilderFor(i) == CallOxyk(0xD, i.vx, i.vy, i.nibble)
    ensures Row(i) == Pattern(Hex(0xD), X, Y, K) && OperandsOf(i) == Operands(i.vx, i.vy, i.nibble)
  {}

  /**
   * The match calls `oxoo` with the row's family digit and its two-digit
   * sub-opcode, whose high digit is below `E`.
   */
  predicate OxooShaped(i: Instruction)
    requires !i.Sys?
  {
    var c := BuilderFor(i);
    c.CallOxoo? && (c.o == 0xE || c.o == 0xF) && c.oo >> 4 < 0xE &&
    Row(i) == Pattern(Hex(c.o), X, Hex(c.oo >> 4), Hex(c.oo & 0xF)) &&
    OperandsOf(i).x == c.x
  }

  lemma ShapeOxoo(i: Instruction)
    requires IsKeyOrMisc(i)
    ensures OxooShaped(i)
  {
    if i.SkipOnKey? || i.SkipNotOnKey? {
      ShapeKeys(i);
    } else if i.LoadDTIntoV? || i.LoadKey? || i.LoadVIntoDT? || i.LoadVIntoST? {
      ShapeTimers(i);
    } else if i.AddI? || i.LoadSpriteIntoI? {
      ShapeIndex(i);
    } else {
      ShapeMemory(i);
    }
  }

  lemma ShapeKeys(i: Instruction)
    requires i.SkipOnKey? || i.SkipNotOnKey?
    ensures OxooShaped(i)
  {}

  lemma ShapeTimers(i: Instruction)
    requires i.LoadDTIntoV? || i.LoadKey? || i.LoadVIntoDT? || i.LoadVIntoST?
    ensures OxooShaped(i)
  {}

  lemma ShapeIndex(i: Instruction)
    requires i.AddI? || i.LoadSpriteIntoI?
    ensures OxooShaped(i)
  {}

  lemma ShapeMemory(i: Instruction)
    requires i.LoadBCDIntoI? || i.LoadVIntoMem? || i.LoadMemIntoV?
    ensures OxooShaped(i)
  {}

  // The same rows on the builder side: for any arguments, the builder's
  // word is the row with the arguments in place of its symbols.

  lemma OoooFill(w: U16, ops: Operands)
    ensures Oooo(w) == Fill(Pattern(Hex(DigitOf(w, 12)), Hex(DigitOf(w, 8)), Hex(DigitOf(w, 4)), Hex(DigitOf(w, 0))), ops)
  {
    DigitsDetermineWord(Oooo(w), Fill(Pattern(Hex(DigitOf(w, 12)), Hex(DigitOf(w, 8)), Hex(DigitOf(w, 4)), Hex(DigitOf(w, 0))), ops));
  }

  lemma OookFill(k: U8, ops: Operands)
    requires ops.k == k
    ensures Oook(0x00C, k) == Fill(Pattern(Hex(0x0), Hex(0x0), Hex(0xC), K), ops)
  {}

  lemma OxyoFill(om: U8, x: U8, y: U8, ol: U8, ops: Operands)
    requires om < 0x10 && ol < 0x10 && ops.x == x && ops.y == y
    ensures Oxyo(om, x, y, ol) == Fill(Pattern(Hex(om), X, Y, Hex(ol)), ops)
  {}

  lemma OkkkFill(o: U8, kkk: U16, ops: Operands)
    requires o < 0x10 && ops.k == kkk
    ensures Okkk(o, kkk) == Fill(Pattern(Hex(o), K, K, K), ops)
  {}

  lemma OxkkFill(o: U8, x: U8, kk: U8, ops: Operands)
    requires o < 0x10 && ops.x == x && ops.k == kk
    ensures Oxkk(o, x, kk) == Fill(Pattern(Hex(o), X, K, K), ops)
  {}

  lemma OxykFill(o: U8, x: U8, y: U8, k: U8, ops: Operands)
    requires o < 0x10 && ops.x == x && ops.y == y && ops.k == k
    ensures Oxyk(o, x, y, k) == Fill(Pattern(Hex(o), X, Y, K), ops)
  {}

  /** The corrected `oxoo` writes the `Ex__`/`Fx__` row: family, register, sub-opcode. */
  lemma OxooCorrectedFill(o: U8, x: U8, oo: U8, ops: Operands)
    requires o < 0x10 && ops.x == x
    ensures OxooCorrected(o, x, oo) == Fill(Pattern(Hex(o), X, Hex(oo >> 4), Hex(oo & 0xF)), ops)
  {}

  /**
   * `oxoo` as written never writes such a row: its top digit is the high
   * digit of the sub-opcode, which differs from the family nibble.
   */
  lemma OxooMissesRow(o: U8, x: U8, oo: U8, ops: Operands)
    requires o < 0x10 && oo >> 4 != o
    ensures Oxoo(o, x, oo) != Fill(Pattern(Hex(o), X, Hex(oo >> 4), Hex(oo & 0xF)), ops)
  {
    assert DigitOf(Oxoo(o, x, oo), 12) == oo >> 4;
    FillDigits(Pattern(Hex(o), X, Hex(oo >> 4), Hex(oo & 0xF)), ops);
  }

  /** A call to `oxyo` whose arguments fit a row writes that row, `oxoo` being no part of it. */
  lemma OxyoCall(c: BuilderCall, p: Pattern, ops: Operands)
    requires c.CallOxyo? && c.om < 0xE && c.ol < 0x10
    requires p == Pattern(Hex(c.om), X, Y, Hex(c.ol)) && ops.x == c.x && ops.y == c.y
    ensures ApplyCorrected(c) == Fill(p, ops) && Apply(c) == Fill(p, ops)
  {
    var om, x, y, ol := c.om, c.x, c.y, c.ol;
    assert ApplyCorrected(c) == Apply(c) == Oxyo(om, x, y, ol);
    OxyoFill(om, x, y, ol, ops);
  }

  /** The same two facts about a call to `oxoo` whose arguments fit an `Ex__`/`Fx__` row. */
  lemma OxooCall(c: BuilderCall, p: Pattern, ops: Operands)
    requires c.CallOxoo? && (c.o == 0xE || c.o == 0xF) && c.oo >> 4 < 0xE
    requires p == Pattern(Hex(c.o), X, Hex(c.oo >> 4), Hex(c.oo & 0xF)) && ops.x == c.x
    ensures ApplyCorrected(c) == Fill(p, ops) && Apply(c) != Fill(p, ops)
  {
    var o, x, oo := c.o, c.x, c.oo;
    assert ApplyCorrected(c) == OxooCorrected(o, x, oo) && Apply(c) == Oxoo(o, x, oo);
    OxooCorrectedFill(o, x, oo, ops);
    OxooMissesRow(o, x, oo, ops);
  }

  // The encoder against the table.

  // Every variant but `Sys` goes to its row through the corrected match,
  // one builder at a time; as written, all but the `oxoo` rows do.

  lemma RowByOooo(i: Instruction)
    requires IsFixed(i)
    ensures FromInstructionCorrected(i) == Documented(i) && FromInstruction(i) == Documented(i)
  {
    ShapeOooo(i);
    OoooFill(BuilderFor(i).oooo, OperandsOf(i));
  }

  lemma RowByOook(i: Instruction)
    requires i.ScrollDown?
    ensures FromInstructionCorrected(i) == Documented(i) && FromInstruction(i) == Documented(i)
  {
    ShapeOook(i);
    OookFill(i.k, OperandsOf(i));
  }

  lemma RowByOkkk(i: Instruction)
    requires AddressRow(i)
    ensures FromInstructionCorrected(i) == Documented(i) && FromInstruction(i) == Documented(i)
  {
    ShapeOkkk(i);
    var c := BuilderFor(i);
    OkkkFill(c.o, c.kkk, OperandsOf(i));
  }

  lemma RowByOxkk(i: Instruction)
    requires ByteRow(i)
    ensures FromInstructionCorrected(i) == Documented(i) && FromInstruction(i) == Documented(i)
  {
    ShapeOxkk(i);
    var c := BuilderFor(i);
    OxkkFill(c.o, c.x, c.kk, OperandsOf(i));
  }

  lemma RowByOxyo(i: Instruction)
    requires RegisterRow(i)
    ensures FromInstructionCorrected(i) == Documented(i) && FromInstruction(i) == Documented(i)
  {
    ShapeOxyo(i);
    OxyoCall(BuilderFor(i), Row(i), OperandsOf(i));
  }

  lemma RowByOxyk(i: Instruction)
    requires i.Draw?
    ensures FromInstructionCorrected(i) == Documented(i) && FromInstruction(i) == Documented(i)
  {
    ShapeOxyk(i);
    OxykFill(0xD, i.vx, i.vy, i.nibble, OperandsOf(i));
  }

  lemma RowByOxoo(i: Instruction)
    requires IsKeyOrMisc(i)
    ensures FromInstructionCorrected(i) == Documented(i) && FromInstruction(i) != Documented(i)
  {
    ShapeOxoo(i);
    OxooCall(BuilderFor(i), Row(i), OperandsOf(i));
  }

  /** Every variant but `Sys` gets its row's word from the corrected match. */
  lemma CorrectedRowByRow(i: Instruction)
    requires !i.Sys?
    ensures FromInstructionCorrected(i) == Documented(i)
  {
    RowGroups(i);
    if IsKeyOrMisc(i) {
      RowByOxoo(i);
    } else if IsFixed(i) {
      RowByOooo(i);
    } else if i.ScrollDown? {
      RowByOook(i);
    } else if AddressRow(i) {
      RowByOkkk(i);
    } else if ByteRow(i) {
      RowByOxkk(i);
    } else if RegisterRow(i) {
      RowByOxyo(i);
    } else {
      RowByOxyk(i);
    }
  }

  /**
   * As written, a variant other than `Sys` gets its row's word exactly when
   * it is not a key or misc instruction.
   */
  lemma AsWrittenRowByRow(i: Instruction)
    requires !i.Sys?
    ensures FromInstruction(i) == Documented(i) <==> !IsKeyOrMisc(i)
  {
    RowGroups(i);
    if IsKeyOrMisc(i) {
      RowByOxoo(i);
    } else if IsFixed(i) {
      RowByOooo(i);
    } else if i.ScrollDown? {
      RowByOook(i);
    } else if AddressRow(i) {
      RowByOkkk(i);
    } else if ByteRow(i) {
      RowByOxkk(i);
    } else if RegisterRow(i) {
      RowByOxyo(i);
    } else {
      RowByOxyk(i);
    }
  }

  /** The groups above cover every variant but `Sys`. */
  lemma RowGroups(i: Instruction)
    requires !i.Sys?
    ensures IsKeyOrMisc(i) || IsFixed(i) || i.ScrollDown? || AddressRow(i) || ByteRow(i) || RegisterRow(i) || i.Draw?
  {}

  /**
   * With `oxoo` laid out as documented, the encoder writes the table's word
   * for every instruction except a `Sys` whose address does not fit in 12
   * bits, which the unmasked `0x0 | addr` lets into the top digit.
   */
  lemma CorrectedMatchesTable(i: Instruction)
    ensures EncodeCorrected(i) == Documented(i) <==> !i.Sys? || i.addr < 0x1000
  {
    if i.Sys? {
      StubSysUnmasked(i.addr);
    } else {
      CorrectedRowByRow(i);
    }
  }

  /**
   * As written, the encoder writes the table's word exactly for the
   * instructions outside the `Ex__`/`Fx__` rows, with the same exception for
   * `Sys`; no key or misc instruction gets its documented word.
   */
  lemma AsWrittenMatchesTable(i: Instruction)
    ensures Encode(i) == Documented(i) <==> !IsKeyOrMisc(i) && (!i.Sys? || i.addr < 0x1000)
  {
    if i.Sys? {
      StubSysUnmasked(i.addr);
    } else {
      AsWrittenRowByRow(i);
    }
  }

  // What `oxoo` as written does to the `Ex__` and `Fx__` rows.

  lemma OxooDigits(o: U8, x: U8, oo: U8)
    ensures DigitOf(Oxoo(o, x, oo), 0) == o & 0xF && DigitOf(Oxoo(o, x, oo), 4) == x & 0xF
    ensures DigitOf(Oxoo(o, x, oo), 12) == oo >> 4 && DigitOf(Oxoo(o, x, oo), 8) == oo & 0xF
  {}

  /**
   * As written, a key or misc instruction's word is its row read in the
   * wrong order: the family digit lowest, the register next, the sub-opcode
   * on top, so the top digit is never the row's `E` or `F`.
   */
  lemma KeyOrMiscAsWritten(i: Instruction)
    requires IsKeyOrMisc(i)
    ensures Row(i) == Pattern(Hex(DigitOf(Encode(i), 0)), X, Hex(DigitOf(Encode(i), 12)), Hex(DigitOf(Encode(i), 8)))
    ensures DigitOf(Encode(i), 4) == OperandsOf(i).x & 0xF
    ensures DigitOf(Encode(i), 12) < 0xE
  {
    ShapeOxoo(i);
    var c := BuilderFor(i);
    EncodeCall(i, c);
    var o, x, oo := c.o, c.x, c.oo;
    assert Apply(c) == Oxoo(o, x, oo);
    OxooDigits(o, x, oo);
  }

  /** As written, `LoadMemIntoV(x)` encodes to `65xF`. */
  lemma LoadMemIntoVWord(x: U8)
    requires x < 0x10
    ensures Encode(LoadMemIntoV(x)) == 0x650F | (x << 4)
  {
    EncodeCall(LoadMemIntoV(x), CallOxoo(0xF, x, 0x65));
    OxooAsAddress(0xF, x, 0x65);
  }

  /** `Fx65` with `x = A`, as written. */
  lemma LoadMemIntoVVector()
    ensures Encode(LoadMemIntoV(0xA)) == 0x65AF
  {
    LoadMemIntoVWord(0xA);
  }

  /** The same instruction as the table documents it. */
  lemma LoadMemIntoVDocumented()
    ensures Documented(LoadMemIntoV(0xA)) == 0xFA65
  {}

  /** The same instruction through the corrected encoder. */
  lemma LoadMemIntoVCorrected()
    ensures EncodeCorrected(LoadMemIntoV(0xA)) == 0xFA65
  {
    CorrectedCall(LoadMemIntoV(0xA), CallOxoo(0xF, 0xA, 0x65));
    OxooCorrectedWord(0xF, 0xA, 0x65);
  }

  /** The corrected `oxoo` is the word `o·4096 + x·256 + oo`. */
  lemma OxooCorrectedWord(o: U8, x: U8, oo: U8)
    requires o < 0x10 && x < 0x10
    ensures OxooCorrected(o, x, oo) == (o << 12) | (x << 8) | oo
  {}

  /** `oxkk(o, x, kk)` is the word `o·4096 + x·256 + kk`. */
  lemma OxkkWord(o: U8, x: U8, kk: U8)
    requires o < 0x10 && x < 0x10
    ensures Oxkk(o, x, kk) == (o << 12) | (x << 8) | kk
  {}

  /** `LoadImmediate(x, kk)` encodes to `6xkk`. */
  lemma LoadImmediateWord(x: U8, kk: U8)
    requires x < 0x10
    ensures Encode(LoadImmediate(x, kk)) == 0x6000 | (x << 8) | kk
  {
    EncodeCall(LoadImmediate(x, kk), CallOxkk(0x6, x, kk));
    OxkkWord(0x6, x, kk);
  }

  /** As written, `LoadMemIntoV(x)` encodes to the word of `LoadImmediate(5, x·16 + F)`. */
  lemma LoadMemIntoVCollides(x: U8)
    requires x < 0x10
    ensures Encode(LoadMemIntoV(x)) == Encode(LoadImmediate(0x5, (x << 4) | 0xF))
  {
    LoadMemIntoVWord(x);
    LoadImmediateWord(0x5, (x << 4) | 0xF);
  }

  /** `oxoo(o, x, oo)` as written is the address `oo·256 + x·16 + o` with a top digit of `oo / 16`. */
  lemma OxooAsAddress(o: U8, x: U8, oo: U8)
    requires o < 0x10 && x < 0x10
    ensures Oxoo(o, x, oo) == (oo << 8) | (x << 4) | o
  {}

  /** As written, `LoadDTIntoV` lands in the `0kkk` space of `Sys`. */
  lemma LoadDTIntoVCollides(x: U8)
    requires x < 0x10
    ensures Encode(LoadDTIntoV(x)) == Encode(Sys(0x700 | (x << 4) | 0xF))
  {
    EncodeCall(LoadDTIntoV(x), CallOxoo(0xF, x, 0x07));
    OxooAsAddress(0xF, x, 0x07);
  }

  /** As written, `AddI` lands in the `1kkk` space of `Jump`. */
  lemma AddICollides(x: U8)
    requires x < 0x10
    ensures Encode(AddI(x)) == Encode(Jump(0xE00 | (x << 4) | 0xF))
  {
    var a: U16 := 0xE00 | (x << 4) | 0xF;
    EncodeCall(AddI(x), CallOxoo(0xF, x, 0x1E));
    EncodeCall(Jump(a), CallOkkk(0x1, a));
    OxooAsAddress(0xF, x, 0x1E);
  }

  // Other properties of the encoder.

  /**
   * The `0kkk` space of `Sys` overlaps the fixed system rows: `Sys` of the
   * word of any other `0___` row encodes to that same word.
   */
  lemma SysShadowsSystemRows(i: Instruction)
    requires IsFixed(i) || i.ScrollDown?
    ensures Encode(Sys(Encode(i))) == Encode(i)
    ensures DigitOf(Encode(i), 12) == 0
  {
    AsWrittenRowByRow(i);
    StubSysUnmasked(Encode(i));
  }

  lemma ClearScreenShadowed()
    ensures Encode(Sys(0x0E0)) == Encode(ClearScreen)
  {}

  /** The top digit of every word the encoder gets right is the fixed first digit of the row. */
  lemma TopDigit(i: Instruction)
    requires !IsKeyOrMisc(i) && (!i.Sys? || i.addr < 0x1000)
    ensures Row(i).d3 == Hex(DigitOf(Encode(i), 12))
  {
    AsWrittenMatchesTable(i);
    DocumentedDigits(i);
    FamilyDigitFixed(i);
  }

  /** `okkk` with a byte for the address: the byte fills the low byte and the digit above it is 0. */
  lemma OkkkByte(o: U8, a: U8)
    requires o < 0x10
    ensures Okkk(o, a) == (o << 12) | a && DigitOf(Okkk(o, a), 8) == 0
  {}

  /**
   * `LoadI` carries a byte where the row has a 12-bit address; widened, it
   * fills the low byte and the digit above it stays 0.
   */
  lemma LoadIWidened(a: U8)
    ensures Encode(LoadI(a)) == 0xA000 | a && DigitOf(Encode(LoadI(a)), 8) == 0
  {
    EncodeCall(LoadI(a), CallOkkk(0xA, a));
    OkkkByte(0xA, a);
  }

  /** The same for `JumpImmediate`. */
  lemma JumpImmediateWidened(a: U8)
    ensures Encode(JumpImmediate(a)) == 0xB000 | a && DigitOf(Encode(JumpImmediate(a)), 8) == 0
  {
    EncodeCall(JumpImmediate(a), CallOkkk(0xB, a));
    OkkkByte(0xB, a);
  }

  // The `8xy_` rows.

  lemma ArithmeticShape(i: Instruction)
    requires IsArithmetic(i)
    ensures Row(i).d2 == X && Row(i).d1 == Y && Row(i).d0.Hex?
    ensures var d := Row(i).d0.n; d <= 0x7 || d == 0xE
    ensures OperandsOf(i).k == 0
  {}

  /**
   * An `8xy_` word has top digit 8, the registers in the middle and the
   * sub-opcode (0 to 7, or E) lowest.
   */
  lemma ArithmeticFamily(i: Instruction)
    requires IsArithmetic(i)
    ensures DigitOf(Encode(i), 12) == 0x8 && Row(i).d0 == Hex(DigitOf(Encode(i), 0))
    ensures DigitOf(Encode(i), 8) == OperandsOf(i).x & 0xF && DigitOf(Encode(i), 4) == OperandsOf(i).y & 0xF
    ensures var d := DigitOf(Encode(i), 0); d <= 0x7 || d == 0xE
  {
    ShapeOxyo(i);
    ArithmeticShape(i);
    ArithmeticFamilyRows(i);
    var c := BuilderFor(i);
    EncodeCall(i, c);
    OxyoDigits(c.om, c.x, c.y, c.ol);
  }

  lemma OxyoDigits(om: U8, x: U8, y: U8, ol: U8)
    ensures DigitOf(Oxyo(om, x, y, ol), 12) == om & 0xF && DigitOf(Oxyo(om, x, y, ol), 8) == x & 0xF
    ensures DigitOf(Oxyo(om, x, y, ol), 4) == y & 0xF && DigitOf(Oxyo(om, x, y, ol), 0) == ol & 0xF
  {}
}
