/**
 * The opcode table read backwards: a reference inverse of the documented
 * encoding, written from the table alone. The repository has no decoder;
 * this one exists to state that the table, and the corrected encoder that
 * follows it, lose no information about an instruction whose operands fit
 * their widths, and that the encoder as written does.
 */
module Disassembly {
  import opened Instructions
  import opened OpCodes
  import opened Encoding

  /** The byte whose hexadecimal digits are `hi lo`. */
  function Join2(hi: Nibble, lo: Nibble): (b: U8)
    ensures DigitOf(b, 4) == hi && DigitOf(b, 0) == lo
  {
    (hi << 4) | lo
  }

  /** The 12-bit address whose hexadecimal digits are `d2 d1 d0`. */
  function Join3(d2: Nibble, d1: Nibble, d0: Nibble): (a: U16)
    ensures a < 0x1000
    ensures DigitOf(a, 8) == d2 && DigitOf(a, 4) == d1 && DigitOf(a, 0) == d0
  {
    (d2 << 8) | (d1 << 4) | d0
  }

  /** Joining the two digits of a byte gives the byte back. */
  lemma SplitByte(b: U8)
    ensures Join2(DigitOf(b, 4), DigitOf(b, 0)) == b
  {}

  /** Joining the three digits of a 12-bit address gives the address back. */
  lemma SplitAddress(a: U16)
    requires a < 0x1000
    ensures Join3(DigitOf(a, 8), DigitOf(a, 4), DigitOf(a, 0)) == a
  {}

  /** The `0___` rows: the fixed system words first, everything else `Sys`. */
  function SystemRow(d2: Nibble, d1: Nibble, d0: Nibble): Instruction
  {
    if d2 == 0x0 && d1 == 0xC then ScrollDown(d0)
    else if d2 == 0x0 && d1 == 0xE && d0 == 0x0 then ClearScreen
    else if d2 == 0x0 && d1 == 0xE && d0 == 0xE then Return
    else if d2 == 0x0 && d1 == 0xF && d0 == 0xB then ScrollRight
    else if d2 == 0x0 && d1 == 0xF && d0 == 0xC then ScrollLeft
    else if d2 == 0x0 && d1 == 0xF && d0 == 0xD then Exit
    else if d2 == 0x0 && d1 == 0xF && d0 == 0xE then LowRes
    else if d2 == 0x0 && d1 == 0xF && d0 == 0xF then HighRes
    else Sys(Join3(d2, d1, d0))
  }

  /** The `8xy_` rows, by their last digit. */
  function ArithmeticRow(x: Nibble, y: Nibble, op: Nibble): Option<Instruction>
  {
    if op == 0x0 then Some(Load(x, y))
    else if op == 0x1 then Some(Or(x, y))
    else if op == 0x2 then Some(And(x, y))
    else if op == 0x3 then Some(Xor(x, y))
    else if op == 0x4 then Some(Add(x, y))
    else if op == 0x5 then Some(Sub(x, y))
    else if op == 0x6 then Some(ShiftRight(x, y))
    else if op == 0x7 then Some(SubNumeric(x, y))
    else if op == 0xE then Some(ShiftLeft(x, y))
    else None
  }

  /** The `Ex__` rows, by their last byte. */
  function KeyRow(x: Nibble, oo: U8): Option<Instruction>
  {
    if oo == 0x9E then Some(SkipOnKey(x))
    else if oo == 0xA1 then Some(SkipNotOnKey(x))
    else None
  }

  /** The `Fx__` rows, by their last byte. */
  function MiscRow(x: Nibble, oo: U8): Option<Instruction>
  {
    if oo == 0x07 then Some(LoadDTIntoV(x))
    else if oo == 0x0A then Some(LoadKey(x))
    else if oo == 0x15 then Some(LoadVIntoDT(x))
    else if oo == 0x18 then Some(LoadVIntoST(x))
    else if oo == 0x1E then Some(AddI(x))
    else if oo == 0x29 then Some(LoadSpriteIntoI(x))
    else if oo == 0x33 then Some(LoadBCDIntoI(x))
    else if oo == 0x55 then Some(LoadVIntoMem(x))
    else if oo == 0x65 then Some(LoadMemIntoV(x))
    else None
  }

  /** The instruction whose row matches the digits `d3 d2 d1 d0`, if any. */
  function Lookup(d3: Nibble, d2: Nibble, d1: Nibble, d0: Nibble): Option<Instruction>
  {
    if d3 == 0x0 then Some(SystemRow(d2, d1, d0))
    else if d3 == 0x1 then Some(Jump(Join3(d2, d1, d0)))
    else if d3 == 0x2 then Some(Call(Join3(d2, d1, d0)))
    else if d3 == 0x3 then Some(SkipEqualImmediate(d2, Join2(d1, d0)))
    else if d3 == 0x4 then Some(SkipNotEqualImediate(d2, Join2(d1, d0)))
    else if d3 == 0x5 then (if d0 == 0x0 then Some(SkipEqual(d2, d1)) else None)
    else if d3 == 0x6 then Some(LoadImmediate(d2, Join2(d1, d0)))
    else if d3 == 0x7 then Some(AddImmediate(d2, Join2(d1, d0)))
    else if d3 == 0x8 then ArithmeticRow(d2, d1, d0)
    else if d3 == 0x9 then (if d0 == 0x0 then Some(SkipNotEqual(d2, d1)) else None)
    else if d3 == 0xA then (if d2 == 0x0 then Some(LoadI(Join2(d1, d0))) else None)
    else if d3 == 0xB then (if d2 == 0x0 then Some(JumpImmediate(Join2(d1, d0))) else None)
    else if d3 == 0xC then Some(Random(d2, Join2(d1, d0)))
    else if d3 == 0xD then Some(Draw(d2, d1, d0))
    else if d3 == 0xE then KeyRow(d2, Join2(d1, d0))
    else MiscRow(d2, Join2(d1, d0))
  }

  /** The instruction the table documents for a word, if any. */
  function Disassemble(w: Word): Option<Instruction>
  {
    Lookup(DigitOf(w, 12), DigitOf(w, 8), DigitOf(w, 4), DigitOf(w, 0))
  }

  /**
   * A `Sys` whose address is the word of a fixed system row or of
   * `ScrollDown`: the table gives it no word of its own.
   */
  predicate Shadowed(i: Instruction)
  {
    i.Sys? && (i.addr >> 4 == 0x00C || i.addr == 0x0E0 || i.addr == 0x0EE || (0x0FB <= i.addr <= 0x0FF))
  }

  /** The addresses `Shadowed` names, digit by digit. */
  lemma ShadowedDigits(d2: Nibble, d1: Nibble, d0: Nibble)
    ensures Shadowed(Sys(Join3(d2, d1, d0))) <==>
      d2 == 0x0 && (d1 == 0xC || (d1 == 0xE && (d0 == 0x0 || d0 == 0xE)) || (d1 == 0xF && d0 >= 0xB))
  {}

  // The digits of a row of each shape, for any operands: first read off
  // the word, then written from digits.

  lemma FixedDigits(a: Nibble, b: Nibble, c: Nibble, d: Nibble, ops: Operands)
    ensures var w := Fill(Pattern(Hex(a), Hex(b), Hex(c), Hex(d)), ops);
      DigitOf(w, 12) == a && DigitOf(w, 8) == b && DigitOf(w, 4) == c && DigitOf(w, 0) == d
  {
    FillDigits(Pattern(Hex(a), Hex(b), Hex(c), Hex(d)), ops);
  }

  lemma LiteralDigits(ops: Operands)
    requires ops.k < 0x10
    ensures var w := Fill(Pattern(Hex(0x0), Hex(0x0), Hex(0xC), K), ops);
      DigitOf(w, 12) == 0x0 && DigitOf(w, 8) == 0x0 && DigitOf(w, 4) == 0xC && DigitOf(w, 0) == ops.k
  {
    FillDigits(Pattern(Hex(0x0), Hex(0x0), Hex(0xC), K), ops);
  }

  lemma AddressDigits(o: Nibble, ops: Operands)
    ensures var w := Fill(Pattern(Hex(o), K, K, K), ops);
      DigitOf(w, 12) == o && DigitOf(w, 8) == DigitOf(ops.k, 8) && DigitOf(w, 4) == DigitOf(ops.k, 4) && DigitOf(w, 0) == DigitOf(ops.k, 0)
  {
    FillDigits(Pattern(Hex(o), K, K, K), ops);
  }

  lemma NarrowDigits(o: Nibble, ops: Operands)
    requires ops.k < 0x100
    ensures var w := Fill(Pattern(Hex(o), K, K, K), ops);
      DigitOf(w, 12) == o && DigitOf(w, 8) == 0x0 && DigitOf(w, 4) == DigitOf(ops.k, 4) && DigitOf(w, 0) == DigitOf(ops.k, 0)
  {
    FillDigits(Pattern(Hex(o), K, K, K), ops);
  }

  lemma ByteDigits(o: Nibble, ops: Operands)
    requires ops.x < 0x10
    ensures var w := Fill(Pattern(Hex(o), X, K, K), ops);
      DigitOf(w, 12) == o && DigitOf(w, 8) == ops.x && DigitOf(w, 4) == DigitOf(ops.k, 4) && DigitOf(w, 0) == DigitOf(ops.k, 0)
  {
    FillDigits(Pattern(Hex(o), X, K, K), ops);
  }

  lemma RegisterDigits(o: Nibble, l: Nibble, ops: Operands)
    requires ops.x < 0x10 && ops.y < 0x10
    ensures var w := Fill(Pattern(Hex(o), X, Y, Hex(l)), ops);
      DigitOf(w, 12) == o && DigitOf(w, 8) == ops.x && DigitOf(w, 4) == ops.y && DigitOf(w, 0) == l
  {
    FillDigits(Pattern(Hex(o), X, Y, Hex(l)), ops);
  }

  lemma SpriteDigits(ops: Operands)
    requires ops.x < 0x10 && ops.y < 0x10 && ops.k < 0x10
    ensures var w := Fill(Pattern(Hex(0xD), X, Y, K), ops);
      DigitOf(w, 12) == 0xD && DigitOf(w, 8) == ops.x && DigitOf(w, 4) == ops.y && DigitOf(w, 0) == ops.k
  {
    FillDigits(Pattern(Hex(0xD), X, Y, K), ops);
  }

  lemma SubOpcodeDigits(o: Nibble, a: Nibble, b: Nibble, ops: Operands)
    requires ops.x < 0x10
    ensures var w := Fill(Pattern(Hex(o), X, Hex(a), Hex(b)), ops);
      DigitOf(w, 12) == o && DigitOf(w, 8) == ops.x && DigitOf(w, 4) == a && DigitOf(w, 0) == b
  {
    FillDigits(Pattern(Hex(o), X, Hex(a), Hex(b)), ops);
  }

  lemma FixedFill(a: Nibble, b: Nibble, c: Nibble, d: Nibble, ops: Operands)
    ensures Fill(Pattern(Hex(a), Hex(b), Hex(c), Hex(d)), ops) == FromDigits(a, b, c, d)
  {}

  lemma LiteralFill(d0: Nibble)
    ensures Fill(Pattern(Hex(0x0), Hex(0x0), Hex(0xC), K), Operands(0, 0, d0)) == FromDigits(0x0, 0x0, 0xC, d0)
  {}

  lemma AddressFill(o: Nibble, d2: Nibble, d1: Nibble, d0: Nibble)
    ensures Fill(Pattern(Hex(o), K, K, K), Operands(0, 0, Join3(d2, d1, d0))) == FromDigits(o, d2, d1, d0)
  {}

  lemma NarrowFill(o: Nibble, d1: Nibble, d0: Nibble)
    ensures Fill(Pattern(Hex(o), K, K, K), Operands(0, 0, Join2(d1, d0))) == FromDigits(o, 0x0, d1, d0)
  {}

  lemma ByteFill(o: Nibble, x: Nibble, d1: Nibble, d0: Nibble)
    ensures Fill(Pattern(Hex(o), X, K, K), Operands(x, 0, Join2(d1, d0))) == FromDigits(o, x, d1, d0)
  {}

  lemma RegisterFill(o: Nibble, x: Nibble, y: Nibble, l: Nibble)
    ensures Fill(Pattern(Hex(o), X, Y, Hex(l)), Operands(x, y, 0)) == FromDigits(o, x, y, l)
  {}

  lemma SpriteFill(x: Nibble, y: Nibble, n: Nibble)
    ensures Fill(Pattern(Hex(0xD), X, Y, K), Operands(x, y, n)) == FromDigits(0xD, x, y, n)
  {}

  lemma SubOpcodeFill(o: Nibble, x: Nibble, a: Nibble, b: Nibble)
    ensures Fill(Pattern(Hex(o), X, Hex(a), Hex(b)), Operands(x, 0, 0)) == FromDigits(o, x, a, b)
  {}

  // Instruction by instruction: its row and operands, its word read back,
  // and the word of the instruction `Lookup` builds from digits.

  lemma SysShape(a: U16)
    ensures Row(Sys(a)) == Pattern(Hex(0x0), K, K, K) && OperandsOf(Sys(a)) == Operands(0, 0, a)
  {}

  lemma SysRoundTrip(a: U16)
    requires a < 0x1000 && !Shadowed(Sys(a))
    ensures Disassemble(Documented(Sys(a))) == Some(Sys(a))
  {
    SysShape(a);
    AddressDigits(0x0, Operands(0, 0, a));
    SplitAddress(a);
    ShadowedDigits(DigitOf(a, 8), DigitOf(a, 4), DigitOf(a, 0));
  }

  lemma SysSound(d2: Nibble, d1: Nibble, d0: Nibble)
    requires !Shadowed(Sys(Join3(d2, d1, d0)))
    ensures WellFormed(Sys(Join3(d2, d1, d0))) && !Shadowed(Sys(Join3(d2, d1, d0))) && Documented(Sys(Join3(d2, d1, d0))) == FromDigits(0x0, d2, d1, d0)
  {
    SysShape(Join3(d2, d1, d0));
    AddressFill(0x0, d2, d1, d0);
  }

  lemma ScrollDownShape(k: U8)
    ensures Row(ScrollDown(k)) == Pattern(Hex(0x0), Hex(0x0), Hex(0xC), K) && OperandsOf(ScrollDown(k)) == Operands(0, 0, k)
  {}

  lemma ScrollDownRoundTrip(k: U8)
    requires k < 0x10
    ensures Disassemble(Documented(ScrollDown(k))) == Some(ScrollDown(k))
  {
    ScrollDownShape(k);
    LiteralDigits(Operands(0, 0, k));
  }

  lemma ScrollDownSound(d0: Nibble)
    ensures WellFormed(ScrollDown(d0)) && !Shadowed(ScrollDown(d0)) && Documented(ScrollDown(d0)) == FromDigits(0x0, 0x0, 0xC, d0)
  {
    ScrollDownShape(d0);
    LiteralFill(d0);
  }

  lemma ClearScreenShape()
    ensures Row(ClearScreen) == Pattern(Hex(0x0), Hex(0x0), Hex(0xE), Hex(0x0)) && OperandsOf(ClearScreen) == Operands(0, 0, 0)
  {}

  lemma ClearScreenRoundTrip()
    ensures Disassemble(Documented(ClearScreen)) == Some(ClearScreen)
  {
    ClearScreenShape();
    FixedDigits(0x0, 0x0, 0xE, 0x0, Operands(0, 0, 0));
  }

  lemma ClearScreenSound()
    ensures WellFormed(ClearScreen) && !Shadowed(ClearScreen) && Documented(ClearScreen) == FromDigits(0x0, 0x0, 0xE, 0x0)
  {
    ClearScreenShape();
    FixedFill(0x0, 0x0, 0xE, 0x0, Operands(0, 0, 0));
  }

  lemma ReturnShape()
    ensures Row(Return) == Pattern(Hex(0x0), Hex(0x0), Hex(0xE), Hex(0xE)) && OperandsOf(Return) == Operands(0, 0, 0)
  {}

  lemma ReturnRoundTrip()
    ensures Disassemble(Documented(Return)) == Some(Return)
  {
    ReturnShape();
    FixedDigits(0x0, 0x0, 0xE, 0xE, Operands(0, 0, 0));
  }

  lemma ReturnSound()
    ensures WellFormed(Return) && !Shadowed(Return) && Documented(Return) == FromDigits(0x0, 0x0, 0xE, 0xE)
  {
    ReturnShape();
    FixedFill(0x0, 0x0, 0xE, 0xE, Operands(0, 0, 0));
  }

  lemma ScrollRightShape()
    ensures Row(ScrollRight) == Pattern(Hex(0x0), Hex(0x0), Hex(0xF), Hex(0xB)) && OperandsOf(ScrollRight) == Operands(0, 0, 0)
  {}

  lemma ScrollRightRoundTrip()
    ensures Disassemble(Documented(ScrollRight)) == Some(ScrollRight)
  {
    ScrollRightShape();
    FixedDigits(0x0, 0x0, 0xF, 0xB, Operands(0, 0, 0));
  }

  lemma ScrollRightSound()
    ensures WellFormed(ScrollRight) && !Shadowed(ScrollRight) && Documented(ScrollRight) == FromDigits(0x0, 0x0, 0xF, 0xB)
  {
    ScrollRightShape();
    FixedFill(0x0, 0x0, 0xF, 0xB, Operands(0, 0, 0));
  }

  lemma ScrollLeftShape()
    ensures Row(ScrollLeft) == Pattern(Hex(0x0), Hex(0x0), Hex(0xF), Hex(0xC)) && OperandsOf(ScrollLeft) == Operands(0, 0, 0)
  {}

  lemma ScrollLeftRoundTrip()
    ensures Disassemble(Documented(ScrollLeft)) == Some(ScrollLeft)
  {
    ScrollLeftShape();
    FixedDigits(0x0, 0x0, 0xF, 0xC, Operands(0, 0, 0));
  }

  lemma ScrollLeftSound()
    ensures WellFormed(ScrollLeft) && !Shadowed(ScrollLeft) && Documented(ScrollLeft) == FromDigits(0x0, 0x0, 0xF, 0xC)
  {
    ScrollLeftShape();
    FixedFill(0x0, 0x0, 0xF, 0xC, Operands(0, 0, 0));
  }

  lemma ExitShape()
    ensures Row(Exit) == Pattern(Hex(0x0), Hex(0x0), Hex(0xF), Hex(0xD)) && OperandsOf(Exit) == Operands(0, 0, 0)
  {}

  lemma ExitRoundTrip()
    ensures Disassemble(Documented(Exit)) == Some(Exit)
  {
    ExitShape();
    FixedDigits(0x0, 0x0, 0xF, 0xD, Operands(0, 0, 0));
  }

  lemma ExitSound()
    ensures WellFormed(Exit) && !Shadowed(Exit) && Documented(Exit) == FromDigits(0x0, 0x0, 0xF, 0xD)
  {
    ExitShape();
    FixedFill(0x0, 0x0, 0xF, 0xD, Operands(0, 0, 0));
  }

  lemma LowResShape()
    ensures Row(LowRes) == Pattern(Hex(0x0), Hex(0x0), Hex(0xF), Hex(0xE)) && OperandsOf(LowRes) == Operands(0, 0, 0)
  {}

  lemma LowResRoundTrip()
    ensures Disassemble(Documented(LowRes)) == Some(LowRes)
  {
    LowResShape();
    FixedDigits(0x0, 0x0, 0xF, 0xE, Operands(0, 0, 0));
  }

  lemma LowResSound()
    ensures WellFormed(LowRes) && !Shadowed(LowRes) && Documented(LowRes) == FromDigits(0x0, 0x0, 0xF, 0xE)
  {
    LowResShape();
    FixedFill(0x0, 0x0, 0xF, 0xE, Operands(0, 0, 0));
  }

  lemma HighResShape()
    ensures Row(HighRes) == Pattern(Hex(0x0), Hex(0x0), Hex(0xF), Hex(0xF)) && OperandsOf(HighRes) == Operands(0, 0, 0)
  {}

  lemma HighResRoundTrip()
    ensures Disassemble(Documented(HighRes)) == Some(HighRes)
  {
    HighResShape();
    FixedDigits(0x0, 0x0, 0xF, 0xF, Operands(0, 0, 0));
  }

  lemma HighResSound()
    ensures WellFormed(HighRes) && !Shadowed(HighRes) && Documented(HighRes) == FromDigits(0x0, 0x0, 0xF, 0xF)
  {
    HighResShape();
    FixedFill(0x0, 0x0, 0xF, 0xF, Operands(0, 0, 0));
  }

  lemma JumpShape(a: U16)
    ensures Row(Jump(a)) == Pattern(Hex(0x1), K, K, K) && OperandsOf(Jump(a)) == Operands(0, 0, a)
  {}

  lemma JumpRoundTrip(a: U16)
    requires a < 0x1000
    ensures Disassemble(Documented(Jump(a))) == Some(Jump(a))
  {
    JumpShape(a);
    AddressDigits(0x1, Operands(0, 0, a));
    SplitAddress(a);
  }

  lemma JumpSound(d2: Nibble, d1: Nibble, d0: Nibble)
    ensures WellFormed(Jump(Join3(d2, d1, d0))) && !Shadowed(Jump(Join3(d2, d1, d0))) && Documented(Jump(Join3(d2, d1, d0))) == FromDigits(0x1, d2, d1, d0)
  {
    JumpShape(Join3(d2, d1, d0));
    AddressFill(0x1, d2, d1, d0);
  }

  lemma CallShape(a: U16)
    ensures Row(Call(a)) == Pattern(Hex(0x2), K, K, K) && OperandsOf(Call(a)) == Operands(0, 0, a)
  {}

  lemma CallRoundTrip(a: U16)
    requires a < 0x1000
    ensures Disassemble(Documented(Call(a))) == Some(Call(a))
  {
    CallShape(a);
    AddressDigits(0x2, Operands(0, 0, a));
    SplitAddress(a);
  }

  lemma CallSound(d2: Nibble, d1: Nibble, d0: Nibble)
    ensures WellFormed(Call(Join3(d2, d1, d0))) && !Shadowed(Call(Join3(d2, d1, d0))) && Documented(Call(Join3(d2, d1, d0))) == FromDigits(0x2, d2, d1, d0)
  {
    CallShape(Join3(d2, d1, d0));
    AddressFill(0x2, d2, d1, d0);
  }

  lemma SkipEqualImmediateShape(x: U8, kk: U8)
    ensures Row(SkipEqualImmediate(x, kk)) == Pattern(Hex(0x3), X, K, K) && OperandsOf(SkipEqualImmediate(x, kk)) == Operands(x, 0, kk)
  {}

  lemma SkipEqualImmediateRoundTrip(x: U8, kk: U8)
    requires x < 0x10
    ensures Disassemble(Documented(SkipEqualImmediate(x, kk))) == Some(SkipEqualImmediate(x, kk))
  {
    SkipEqualImmediateShape(x, kk);
    ByteDigits(0x3, Operands(x, 0, kk));
    SplitByte(kk);
  }

  lemma SkipEqualImmediateSound(x: Nibble, d1: Nibble, d0: Nibble)
    ensures WellFormed(SkipEqualImmediate(x, Join2(d1, d0))) && !Shadowed(SkipEqualImmediate(x, Join2(d1, d0))) && Documented(SkipEqualImmediate(x, Join2(d1, d0))) == FromDigits(0x3, x, d1, d0)
  {
    SkipEqualImmediateShape(x, Join2(d1, d0));
    ByteFill(0x3, x, d1, d0);
  }

  lemma SkipNotEqualImediateShape(x: U8, kk: U8)
    ensures Row(SkipNotEqualImediate(x, kk)) == Pattern(Hex(0x4), X, K, K) && OperandsOf(SkipNotEqualImediate(x, kk)) == Operands(x, 0, kk)
  {}

  lemma SkipNotEqualImediateRoundTrip(x: U8, kk: U8)
    requires x < 0x10
    ensures Disassemble(Documented(SkipNotEqualImediate(x, kk))) == Some(SkipNotEqualImediate(x, kk))
  {
    SkipNotEqualImediateShape(x, kk);
    ByteDigits(0x4, Operands(x, 0, kk));
    SplitByte(kk);
  }

  lemma SkipNotEqualImediateSound(x: Nibble, d1: Nibble, d0: Nibble)
    ensures WellFormed(SkipNotEqualImediate(x, Join2(d1, d0))) && !Shadowed(SkipNotEqualImediate(x, Join2(d1, d0))) && Documented(SkipNotEqualImediate(x, Join2(d1, d0))) == FromDigits(0x4, x, d1, d0)
  {
    SkipNotEqualImediateShape(x, Join2(d1, d0));
    ByteFill(0x4, x, d1, d0);
  }

  lemma LoadImmediateShape(x: U8, kk: U8)
    ensures Row(LoadImmediate(x, kk)) == Pattern(Hex(0x6), X, K, K) && OperandsOf(LoadImmediate(x, kk)) == Operands(x, 0, kk)
  {}

  lemma LoadImmediateRoundTrip(x: U8, kk: U8)
    requires x < 0x10
    ensures Disassemble(Documented(LoadImmediate(x, kk))) == Some(LoadImmediate(x, kk))
  {
    LoadImmediateShape(x, kk);
    ByteDigits(0x6, Operands(x, 0, kk));
    SplitByte(kk);
  }

  lemma LoadImmediateSound(x: Nibble, d1: Nibble, d0: Nibble)
    ensures WellFormed(LoadImmediate(x, Join2(d1, d0))) && !Shadowed(LoadImmediate(x, Join2(d1, d0))) && Documented(LoadImmediate(x, Join2(d1, d0))) == FromDigits(0x6, x, d1, d0)
  {
    LoadImmediateShape(x, Join2(d1, d0));
    ByteFill(0x6, x, d1, d0);
  }

  lemma AddImmediateShape(x: U8, kk: U8)
    ensures Row(AddImmediate(x, kk)) == Pattern(Hex(0x7), X, K, K) && OperandsOf(AddImmediate(x, kk)) == Operands(x, 0, kk)
  {}

  lemma AddImmediateRoundTrip(x: U8, kk: U8)
    requires x < 0x10
    ensures Disassemble(Documented(AddImmediate(x, kk))) == Some(AddImmediate(x, kk))
  {
    AddImmediateShape(x, kk);
    ByteDigits(0x7, Operands(x, 0, kk));
    SplitByte(kk);
  }

  lemma AddImmediateSound(x: Nibble, d1: Nibble, d0: Nibble)
    ensures WellFormed(AddImmediate(x, Join2(d1, d0))) && !Shadowed(AddImmediate(x, Join2(d1, d0))) && Documented(AddImmediate(x, Join2(d1, d0))) == FromDigits(0x7, x, d1, d0)
  {
    AddImmediateShape(x, Join2(d1, d0));
    ByteFill(0x7, x, d1, d0);
  }

  lemma RandomShape(x: U8, kk: U8)
    ensures Row(Random(x, kk)) == Pattern(Hex(0xC), X, K, K) && OperandsOf(Random(x, kk)) == Operands(x, 0, kk)
  {}

  lemma RandomRoundTrip(x: U8, kk: U8)
    requires x < 0x10
    ensures Disassemble(Documented(Random(x, kk))) == Some(Random(x, kk))
  {
    RandomShape(x, kk);
    ByteDigits(0xC, Operands(x, 0, kk));
    SplitByte(kk);
  }

  lemma RandomSound(x: Nibble, d1: Nibble, d0: Nibble)
    ensures WellFormed(Random(x, Join2(d1, d0))) && !Shadowed(Random(x, Join2(d1, d0))) && Documented(Random(x, Join2(d1, d0))) == FromDigits(0xC, x, d1, d0)
  {
    RandomShape(x, Join2(d1, d0));
    ByteFill(0xC, x, d1, d0);
  }

  lemma SkipEqualShape(x: U8, y: U8)
    ensures Row(SkipEqual(x, y)) == Pattern(Hex(0x5), X, Y, Hex(0x0)) && OperandsOf(SkipEqual(x, y)) == Operands(x, y, 0)
  {}

  lemma SkipEqualRoundTrip(x: U8, y: U8)
    requires x < 0x10 && y < 0x10
    ensures Disassemble(Documented(SkipEqual(x, y))) == Some(SkipEqual(x, y))
  {
    SkipEqualShape(x, y);
    RegisterDigits(0x5, 0x0, Operands(x, y, 0));
  }

  lemma SkipEqualSound(x: Nibble, y: Nibble)
    ensures WellFormed(SkipEqual(x, y)) && !Shadowed(SkipEqual(x, y)) && Documented(SkipEqual(x, y)) == FromDigits(0x5, x, y, 0x0)
  {
    SkipEqualShape(x, y);
    RegisterFill(0x5, x, y, 0x0);
  }

  lemma LoadShape(x: U8, y: U8)
    ensures Row(Load(x, y)) == Pattern(Hex(0x8), X, Y, Hex(0x0)) && OperandsOf(Load(x, y)) == Operands(x, y, 0)
  {}

  lemma LoadRoundTrip(x: U8, y: U8)
    requires x < 0x10 && y < 0x10
    ensures Disassemble(Documented(Load(x, y))) == Some(Load(x, y))
  {
    LoadShape(x, y);
    RegisterDigits(0x8, 0x0, Operands(x, y, 0));
  }

  lemma LoadSound(x: Nibble, y: Nibble)
    ensures WellFormed(Load(x, y)) && !Shadowed(Load(x, y)) && Documented(Load(x, y)) == FromDigits(0x8, x, y, 0x0)
  {
    LoadShape(x, y);
    RegisterFill(0x8, x, y, 0x0);
  }

  lemma OrShape(x: U8, y: U8)
    ensures Row(Or(x, y)) == Pattern(Hex(0x8), X, Y, Hex(0x1)) && OperandsOf(Or(x, y)) == Operands(x, y, 0)
  {}

  lemma OrRoundTrip(x: U8, y: U8)
    requires x < 0x10 && y < 0x10
    ensures Disassemble(Documented(Or(x, y))) == Some(Or(x, y))
  {
    OrShape(x, y);
    RegisterDigits(0x8, 0x1, Operands(x, y, 0));
  }

  lemma OrSound(x: Nibble, y: Nibble)
    ensures WellFormed(Or(x, y)) && !Shadowed(Or(x, y)) && Documented(Or(x, y)) == FromDigits(0x8, x, y, 0x1)
  {
    OrShape(x, y);
    RegisterFill(0x8, x, y, 0x1);
  }

  lemma AndShape(x: U8, y: U8)
    ensures Row(And(x, y)) == Pattern(Hex(0x8), X, Y, Hex(0x2)) && OperandsOf(And(x, y)) == Operands(x, y, 0)
  {}

  lemma AndRoundTrip(x: U8, y: U8)
    requires x < 0x10 && y < 0x10
    ensures Disassemble(Documented(And(x, y))) == Some(And(x, y))
  {
    AndShape(x, y);
    RegisterDigits(0x8, 0x2, Operands(x, y, 0));
  }

  lemma AndSound(x: Nibble, y: Nibble)
    ensures WellFormed(And(x, y)) && !Shadowed(And(x, y)) && Documented(And(x, y)) == FromDigits(0x8, x, y, 0x2)
  {
    AndShape(x, y);
    RegisterFill(0x8, x, y, 0x2);
  }

  lemma XorShape(x: U8, y: U8)
    ensures Row(Xor(x, y)) == Pattern(Hex(0x8), X, Y, Hex(0x3)) && OperandsOf(Xor(x, y)) == Operands(x, y, 0)
  {}

  lemma XorRoundTrip(x: U8, y: U8)
    requires x < 0x10 && y < 0x10
    ensures Disassemble(Documented(Xor(x, y))) == Some(Xor(x, y))
  {
    XorShape(x, y);
    RegisterDigits(0x8, 0x3, Operands(x, y, 0));
  }

  lemma XorSound(x: Nibble, y: Nibble)
    ensures WellFormed(Xor(x, y)) && !Shadowed(Xor(x, y)) && Documented(Xor(x, y)) == FromDigits(0x8, x, y, 0x3)
  {
    XorShape(x, y);
    RegisterFill(0x8, x, y, 0x3);
  }

  lemma AddShape(x: U8, y: U8)
    ensures Row(Add(x, y)) == Pattern(Hex(0x8), X, Y, Hex(0x4)) && OperandsOf(Add(x, y)) == Operands(x, y, 0)
  {}

  lemma AddRoundTrip(x: U8, y: U8)
    requires x < 0x10 && y < 0x10
    ensures Disassemble(Documented(Add(x, y))) == Some(Add(x, y))
  {
    AddShape(x, y);
    RegisterDigits(0x8, 0x4, Operands(x, y, 0));
  }

  lemma AddSound(x: Nibble, y: Nibble)
    ensures WellFormed(Add(x, y)) && !Shadowed(Add(x, y)) && Documented(Add(x, y)) == FromDigits(0x8, x, y, 0x4)
  {
    AddShape(x, y);
    RegisterFill(0x8, x, y, 0x4);
  }

  lemma SubShape(x: U8, y: U8)
    ensures Row(Sub(x, y)) == Pattern(Hex(0x8), X, Y, Hex(0x5)) && OperandsOf(Sub(x, y)) == Operands(x, y, 0)
  {}

  lemma SubRoundTrip(x: U8, y: U8)
    requires x < 0x10 && y < 0x10
    ensures Disassemble(Documented(Sub(x, y))) == Some(Sub(x, y))
  {
    SubShape(x, y);
    RegisterDigits(0x8, 0x5, Operands(x, y, 0));
  }

  lemma SubSound(x: Nibble, y: Nibble)
    ensures WellFormed(Sub(x, y)) && !Shadowed(Sub(x, y)) && Documented(Sub(x, y)) == FromDigits(0x8, x, y, 0x5)
  {
    SubShape(x, y);
    RegisterFill(0x8, x, y, 0x5);
  }

  lemma ShiftRightShape(x: U8, y: U8)
    ensures Row(ShiftRight(x, y)) == Pattern(Hex(0x8), X, Y, Hex(0x6)) && OperandsOf(ShiftRight(x, y)) == Operands(x, y, 0)
  {}

  lemma ShiftRightRoundTrip(x: U8, y: U8)
    requires x < 0x10 && y < 0x10
    ensures Disassemble(Documented(ShiftRight(x, y))) == Some(ShiftRight(x, y))
  {
    ShiftRightShape(x, y);
    RegisterDigits(0x8, 0x6, Operands(x, y, 0));
  }

  lemma ShiftRightSound(x: Nibble, y: Nibble)
    ensures WellFormed(ShiftRight(x, y)) && !Shadowed(ShiftRight(x, y)) && Documented(ShiftRight(x, y)) == FromDigits(0x8, x, y, 0x6)
  {
    ShiftRightShape(x, y);
    RegisterFill(0x8, x, y, 0x6);
  }

  lemma SubNumericShape(x: U8, y: U8)
    ensures Row(SubNumeric(x, y)) == Pattern(Hex(0x8), X, Y, Hex(0x7)) && OperandsOf(SubNumeric(x, y)) == Operands(x, y, 0)
  {}

  lemma SubNumericRoundTrip(x: U8, y: U8)
    requires x < 0x10 && y < 0x10
    ensures Disassemble(Documented(SubNumeric(x, y))) == Some(SubNumeric(x, y))
  {
    SubNumericShape(x, y);
    RegisterDigits(0x8, 0x7, Operands(x, y, 0));
  }

  lemma SubNumericSound(x: Nibble, y: Nibble)
    ensures WellFormed(SubNumeric(x, y)) && !Shadowed(SubNumeric(x, y)) && Documented(SubNumeric(x, y)) == FromDigits(0x8, x, y, 0x7)
  {
    SubNumericShape(x, y);
    RegisterFill(0x8, x, y, 0x7);
  }

  lemma ShiftLeftShape(x: U8, y: U8)
    ensures Row(ShiftLeft(x, y)) == Pattern(Hex(0x8), X, Y, Hex(0xE)) && OperandsOf(ShiftLeft(x, y)) == Operands(x, y, 0)
  {}

  lemma ShiftLeftRoundTrip(x: U8, y: U8)
    requires x < 0x10 && y < 0x10
    ensures Disassemble(Documented(ShiftLeft(x, y))) == Some(ShiftLeft(x, y))
  {
    ShiftLeftShape(x, y);
    RegisterDigits(0x8, 0xE, Operands(x, y, 0));
  }

  lemma ShiftLeftSound(x: Nibble, y: Nibble)
    ensures WellFormed(ShiftLeft(x, y)) && !Shadowed(ShiftLeft(x, y)) && Documented(ShiftLeft(x, y)) == FromDigits(0x8, x, y, 0xE)
  {
    ShiftLeftShape(x, y);
    RegisterFill(0x8, x, y, 0xE);
  }

  lemma SkipNotEqualShape(x: U8, y: U8)
    ensures Row(SkipNotEqual(x, y)) == Pattern(Hex(0x9), X, Y, Hex(0x0)) && OperandsOf(SkipNotEqual(x, y)) == Operands(x, y, 0)
  {}

  lemma SkipNotEqualRoundTrip(x: U8, y: U8)
    requires x < 0x10 && y < 0x10
    ensures Disassemble(Documented(SkipNotEqual(x, y))) == Some(SkipNotEqual(x, y))
  {
    SkipNotEqualShape(x, y);
    RegisterDigits(0x9, 0x0, Operands(x, y, 0));
  }

  lemma SkipNotEqualSound(x: Nibble, y: Nibble)
    ensures WellFormed(SkipNotEqual(x, y)) && !Shadowed(SkipNotEqual(x, y)) && Documented(SkipNotEqual(x, y)) == FromDigits(0x9, x, y, 0x0)
  {
    SkipNotEqualShape(x, y);
    RegisterFill(0x9, x, y, 0x0);
  }

  lemma LoadIShape(a: U8)
    ensures Row(LoadI(a)) == Pattern(Hex(0xA), K, K, K) && OperandsOf(LoadI(a)) == Operands(0, 0, a)
  {}

  lemma LoadIRoundTrip(a: U8)
    ensures Disassemble(Documented(LoadI(a))) == Some(LoadI(a))
  {
    LoadIShape(a);
    NarrowDigits(0xA, Operands(0, 0, a));
    SplitByte(a);
  }

  lemma LoadISound(d1: Nibble, d0: Nibble)
    ensures WellFormed(LoadI(Join2(d1, d0))) && !Shadowed(LoadI(Join2(d1, d0))) && Documented(LoadI(Join2(d1, d0))) == FromDigits(0xA, 0x0, d1, d0)
  {
    LoadIShape(Join2(d1, d0));
    NarrowFill(0xA, d1, d0);
  }

  lemma JumpImmediateShape(a: U8)
    ensures Row(JumpImmediate(a)) == Pattern(Hex(0xB), K, K, K) && OperandsOf(JumpImmediate(a)) == Operands(0, 0, a)
  {}

  lemma JumpImmediateRoundTrip(a: U8)
    ensures Disassemble(Documented(JumpImmediate(a))) == Some(JumpImmediate(a))
  {
    JumpImmediateShape(a);
    NarrowDigits(0xB, Operands(0, 0, a));
    SplitByte(a);
  }

  lemma JumpImmediateSound(d1: Nibble, d0: Nibble)
    ensures WellFormed(JumpImmediate(Join2(d1, d0))) && !Shadowed(JumpImmediate(Join2(d1, d0))) && Documented(JumpImmediate(Join2(d1, d0))) == FromDigits(0xB, 0x0, d1, d0)
  {
    JumpImmediateShape(Join2(d1, d0));
    NarrowFill(0xB, d1, d0);
  }

  lemma DrawShape(x: U8, y: U8, n: U8)
    ensures Row(Draw(x, y, n)) == Pattern(Hex(0xD), X, Y, K) && OperandsOf(Draw(x, y, n)) == Operands(x, y, n)
  {}

  lemma DrawRoundTrip(x: U8, y: U8, n: U8)
    requires x < 0x10 && y < 0x10 && n < 0x10
    ensures Disassemble(Documented(Draw(x, y, n))) == Some(Draw(x, y, n))
  {
    DrawShape(x, y, n);
    SpriteDigits(Operands(x, y, n));
  }

  lemma DrawSound(x: Nibble, y: Nibble, n: Nibble)
    ensures WellFormed(Draw(x, y, n)) && !Shadowed(Draw(x, y, n)) && Documented(Draw(x, y, n)) == FromDigits(0xD, x, y, n)
  {
    DrawShape(x, y, n);
    SpriteFill(x, y, n);
  }

  lemma SkipOnKeyShape(x: U8)
    ensures Row(SkipOnKey(x)) == Pattern(Hex(0xE), X, Hex(0x9), Hex(0xE)) && OperandsOf(SkipOnKey(x)) == Operands(x, 0, 0)
  {}

  lemma SkipOnKeyRoundTrip(x: U8)
    requires x < 0x10
    ensures Disassemble(Documented(SkipOnKey(x))) == Some(SkipOnKey(x))
  {
    SkipOnKeyShape(x);
    SubOpcodeDigits(0xE, 0x9, 0xE, Operands(x, 0, 0));
  }

  lemma SkipOnKeySound(x: Nibble)
    ensures WellFormed(SkipOnKey(x)) && !Shadowed(SkipOnKey(x)) && Documented(SkipOnKey(x)) == FromDigits(0xE, x, DigitOf(0x9E, 4), DigitOf(0x9E, 0))
  {
    SkipOnKeyShape(x);
    SubOpcodeFill(0xE, x, 0x9, 0xE);
  }

  lemma SkipNotOnKeyShape(x: U8)
    ensures Row(SkipNotOnKey(x)) == Pattern(Hex(0xE), X, Hex(0xA), Hex(0x1)) && OperandsOf(SkipNotOnKey(x)) == Operands(x, 0, 0)
  {}

  lemma SkipNotOnKeyRoundTrip(x: U8)
    requires x < 0x10
    ensures Disassemble(Documented(SkipNotOnKey(x))) == Some(SkipNotOnKey(x))
  {
    SkipNotOnKeyShape(x);
    SubOpcodeDigits(0xE, 0xA, 0x1, Operands(x, 0, 0));
  }

  lemma SkipNotOnKeySound(x: Nibble)
    ensures WellFormed(SkipNotOnKey(x)) && !Shadowed(SkipNotOnKey(x)) && Documented(SkipNotOnKey(x)) == FromDigits(0xE, x, DigitOf(0xA1, 4), DigitOf(0xA1, 0))
  {
    SkipNotOnKeyShape(x);
    SubOpcodeFill(0xE, x, 0xA, 0x1);
  }

  lemma LoadDTIntoVShape(x: U8)
    ensures Row(LoadDTIntoV(x)) == Pattern(Hex(0xF), X, Hex(0x0), Hex(0x7)) && OperandsOf(LoadDTIntoV(x)) == Operands(x, 0, 0)
  {}

  lemma LoadDTIntoVRoundTrip(x: U8)
    requires x < 0x10
    ensures Disassemble(Documented(LoadDTIntoV(x))) == Some(LoadDTIntoV(x))
  {
    LoadDTIntoVShape(x);
    SubOpcodeDigits(0xF, 0x0, 0x7, Operands(x, 0, 0));
  }

  lemma LoadDTIntoVSound(x: Nibble)
    ensures WellFormed(LoadDTIntoV(x)) && !Shadowed(LoadDTIntoV(x)) && Documented(LoadDTIntoV(x)) == FromDigits(0xF, x, DigitOf(0x07, 4), DigitOf(0x07, 0))
  {
    LoadDTIntoVShape(x);
    SubOpcodeFill(0xF, x, 0x0, 0x7);
  }

  lemma LoadKeyShape(x: U8)
    ensures Row(LoadKey(x)) == Pattern(Hex(0xF), X, Hex(0x0), Hex(0xA)) && OperandsOf(LoadKey(x)) == Operands(x, 0, 0)
  {}

  lemma LoadKeyRoundTrip(x: U8)
    requires x < 0x10
    ensures Disassemble(Documented(LoadKey(x))) == Some(LoadKey(x))
  {
    LoadKeyShape(x);
    SubOpcodeDigits(0xF, 0x0, 0xA, Operands(x, 0, 0));
  }

  lemma LoadKeySound(x: Nibble)
    ensures WellFormed(LoadKey(x)) && !Shadowed(LoadKey(x)) && Documented(LoadKey(x)) == FromDigits(0xF, x, DigitOf(0x0A, 4), DigitOf(0x0A, 0))
  {
    LoadKeyShape(x);
    SubOpcodeFill(0xF, x, 0x0, 0xA);
  }

  lemma LoadVIntoDTShape(x: U8)
    ensures Row(LoadVIntoDT(x)) == Pattern(Hex(0xF), X, Hex(0x1), Hex(0x5)) && OperandsOf(LoadVIntoDT(x)) == Operands(x, 0, 0)
  {}

  lemma LoadVIntoDTRoundTrip(x: U8)
    requires x < 0x10
    ensures Disassemble(Documented(LoadVIntoDT(x))) == Some(LoadVIntoDT(x))
  {
    LoadVIntoDTShape(x);
    SubOpcodeDigits(0xF, 0x1, 0x5, Operands(x, 0, 0));
  }

  lemma LoadVIntoDTSound(x: Nibble)
    ensures WellFormed(LoadVIntoDT(x)) && !Shadowed(LoadVIntoDT(x)) && Documented(LoadVIntoDT(x)) == FromDigits(0xF, x, DigitOf(0x15, 4), DigitOf(0x15, 0))
  {
    LoadVIntoDTShape(x);
    SubOpcodeFill(0xF, x, 0x1, 0x5);
  }

  lemma LoadVIntoSTShape(x: U8)
    ensures Row(LoadVIntoST(x)) == Pattern(Hex(0xF), X, Hex(0x1), Hex(0x8)) && OperandsOf(LoadVIntoST(x)) == Operands(x, 0, 0)
  {}

  lemma LoadVIntoSTRoundTrip(x: U8)
    requires x < 0x10
    ensures Disassemble(Documented(LoadVIntoST(x))) == Some(LoadVIntoST(x))
  {
    LoadVIntoSTShape(x);
    SubOpcodeDigits(0xF, 0x1, 0x8, Operands(x, 0, 0));
  }

  lemma LoadVIntoSTSound(x: Nibble)
    ensures WellFormed(LoadVIntoST(x)) && !Shadowed(LoadVIntoST(x)) && Documented(LoadVIntoST(x)) == FromDigits(0xF, x, DigitOf(0x18, 4), DigitOf(0x18, 0))
  {
    LoadVIntoSTShape(x);
    SubOpcodeFill(0xF, x, 0x1, 0x8);
  }

  lemma AddIShape(x: U8)
    ensures Row(AddI(x)) == Pattern(Hex(0xF), X, Hex(0x1), Hex(0xE)) && OperandsOf(AddI(x)) == Operands(x, 0, 0)
  {}

  lemma AddIRoundTrip(x: U8)
    requires x < 0x10
    ensures Disassemble(Documented(AddI(x))) == Some(AddI(x))
  {
    AddIShape(x);
    SubOpcodeDigits(0xF, 0x1, 0xE, Operands(x, 0, 0));
  }

  lemma AddISound(x: Nibble)
    ensures WellFormed(AddI(x)) && !Shadowed(AddI(x)) && Documented(AddI(x)) == FromDigits(0xF, x, DigitOf(0x1E, 4), DigitOf(0x1E, 0))
  {
    AddIShape(x);
    SubOpcodeFill(0xF, x, 0x1, 0xE);
  }

  lemma LoadSpriteIntoIShape(x: U8)
    ensures Row(LoadSpriteIntoI(x)) == Pattern(Hex(0xF), X, Hex(0x2), Hex(0x9)) && OperandsOf(LoadSpriteIntoI(x)) == Operands(x, 0, 0)
  {}

  lemma LoadSpriteIntoIRoundTrip(x: U8)
    requires x < 0x10
    ensures Disassemble(Documented(LoadSpriteIntoI(x))) == Some(LoadSpriteIntoI(x))
  {
    LoadSpriteIntoIShape(x);
    SubOpcodeDigits(0xF, 0x2, 0x9, Operands(x, 0, 0));
  }

  lemma LoadSpriteIntoISound(x: Nibble)
    ensures WellFormed(LoadSpriteIntoI(x)) && !Shadowed(LoadSpriteIntoI(x)) && Documented(LoadSpriteIntoI(x)) == FromDigits(0xF, x, DigitOf(0x29, 4), DigitOf(0x29, 0))
  {
    LoadSpriteIntoIShape(x);
    SubOpcodeFill(0xF, x, 0x2, 0x9);
  }

  lemma LoadBCDIntoIShape(x: U8)
    ensures Row(LoadBCDIntoI(x)) == Pattern(Hex(0xF), X, Hex(0x3), Hex(0x3)) && OperandsOf(LoadBCDIntoI(x)) == Operands(x, 0, 0)
  {}

  lemma LoadBCDIntoIRoundTrip(x: U8)
    requires x < 0x10
    ensures Disassemble(Documented(LoadBCDIntoI(x))) == Some(LoadBCDIntoI(x))
  {
    LoadBCDIntoIShape(x);
    SubOpcodeDigits(0xF, 0x3, 0x3, Operands(x, 0, 0));
  }

  lemma LoadBCDIntoISound(x: Nibble)
    ensures WellFormed(LoadBCDIntoI(x)) && !Shadowed(LoadBCDIntoI(x)) && Documented(LoadBCDIntoI(x)) == FromDigits(0xF, x, DigitOf(0x33, 4), DigitOf(0x33, 0))
  {
    LoadBCDIntoIShape(x);
    SubOpcodeFill(0xF, x, 0x3, 0x3);
  }

  lemma LoadVIntoMemShape(x: U8)
    ensures Row(LoadVIntoMem(x)) == Pattern(Hex(0xF), X, Hex(0x5), Hex(0x5)) && OperandsOf(LoadVIntoMem(x)) == Operands(x, 0, 0)
  {}

  lemma LoadVIntoMemRoundTrip(x: U8)
    requires x < 0x10
    ensures Disassemble(Documented(LoadVIntoMem(x))) == Some(LoadVIntoMem(x))
  {
    LoadVIntoMemShape(x);
    SubOpcodeDigits(0xF, 0x5, 0x5, Operands(x, 0, 0));
  }

  lemma LoadVIntoMemSound(x: Nibble)
    ensures WellFormed(LoadVIntoMem(x)) && !Shadowed(LoadVIntoMem(x)) && Documented(LoadVIntoMem(x)) == FromDigits(0xF, x, DigitOf(0x55, 4), DigitOf(0x55, 0))
  {
    LoadVIntoMemShape(x);
    SubOpcodeFill(0xF, x, 0x5, 0x5);
  }

  lemma LoadMemIntoVShape(x: U8)
    ensures Row(LoadMemIntoV(x)) == Pattern(Hex(0xF), X, Hex(0x6), Hex(0x5)) && OperandsOf(LoadMemIntoV(x)) == Operands(x, 0, 0)
  {}

  lemma LoadMemIntoVRoundTrip(x: U8)
    requires x < 0x10
    ensures Disassemble(Documented(LoadMemIntoV(x))) == Some(LoadMemIntoV(x))
  {
    LoadMemIntoVShape(x);
    SubOpcodeDigits(0xF, 0x6, 0x5, Operands(x, 0, 0));
  }

  lemma LoadMemIntoVSound(x: Nibble)
    ensures WellFormed(LoadMemIntoV(x)) && !Shadowed(LoadMemIntoV(x)) && Documented(LoadMemIntoV(x)) == FromDigits(0xF, x, DigitOf(0x65, 4), DigitOf(0x65, 0))
  {
    LoadMemIntoVShape(x);
    SubOpcodeFill(0xF, x, 0x6, 0x5);
  }

  /** The `0___` rows read back. */
  lemma SystemRoundTrip(i: Instruction)
    requires (i.Sys? || i.ScrollDown? || IsFixed(i)) && WellFormed(i) && !Shadowed(i)
    ensures Disassemble(Documented(i)) == Some(i)
  {
    if i.Sys? {
      SysRoundTrip(i.addr);
    } else if i.ScrollDown? {
      ScrollDownRoundTrip(i.k);
    } else if i.ClearScreen? {
      ClearScreenRoundTrip();
    } else if i.Return? {
      ReturnRoundTrip();
    } else if i.ScrollRight? {
      ScrollRightRoundTrip();
    } else if i.ScrollLeft? {
      ScrollLeftRoundTrip();
    } else if i.Exit? {
      ExitRoundTrip();
    } else if i.LowRes? {
      LowResRoundTrip();
    } else {
      HighResRoundTrip();
    }
  }

  /** The rows of two registers read back. */
  lemma RegistersRoundTrip(i: Instruction)
    requires (IsArithmetic(i) || i.SkipEqual? || i.SkipNotEqual?) && WellFormed(i) && !Shadowed(i)
    ensures Disassemble(Documented(i)) == Some(i)
  {
    if i.SkipEqual? {
      SkipEqualRoundTrip(i.vx, i.vy);
    } else if i.Load? {
      LoadRoundTrip(i.vx, i.vy);
    } else if i.Or? {
      OrRoundTrip(i.vx, i.vy);
    } else if i.And? {
      AndRoundTrip(i.vx, i.vy);
    } else if i.Xor? {
      XorRoundTrip(i.vx, i.vy);
    } else if i.Add? {
      AddRoundTrip(i.vx, i.vy);
    } else if i.Sub? {
      SubRoundTrip(i.vx, i.vy);
    } else if i.ShiftRight? {
      ShiftRightRoundTrip(i.vx, i.vy);
    } else if i.SubNumeric? {
      SubNumericRoundTrip(i.vx, i.vy);
    } else if i.ShiftLeft? {
      ShiftLeftRoundTrip(i.vx, i.vy);
    } else {
      SkipNotEqualRoundTrip(i.vx, i.vy);
    }
  }

  /** The `Ex__` and `Fx__` rows read back. */
  lemma SubOpcodeRoundTrip(i: Instruction)
    requires IsKeyOrMisc(i) && WellFormed(i) && !Shadowed(i)
    ensures Disassemble(Documented(i)) == Some(i)
  {
    if i.SkipOnKey? {
      SkipOnKeyRoundTrip(i.vx);
    } else if i.SkipNotOnKey? {
      SkipNotOnKeyRoundTrip(i.vx);
    } else if i.LoadDTIntoV? {
      LoadDTIntoVRoundTrip(i.vx);
    } else if i.LoadKey? {
      LoadKeyRoundTrip(i.vx);
    } else if i.LoadVIntoDT? {
      LoadVIntoDTRoundTrip(i.vx);
    } else if i.LoadVIntoST? {
      LoadVIntoSTRoundTrip(i.vx);
    } else if i.AddI? {
      AddIRoundTrip(i.vx);
    } else if i.LoadSpriteIntoI? {
      LoadSpriteIntoIRoundTrip(i.vx);
    } else if i.LoadBCDIntoI? {
      LoadBCDIntoIRoundTrip(i.vx);
    } else if i.LoadVIntoMem? {
      LoadVIntoMemRoundTrip(i.vx);
    } else {
      LoadMemIntoVRoundTrip(i.vx);
    }
  }

  /** The remaining rows, with an address, a byte or a sprite height, read back. */
  lemma OperandRoundTrip(i: Instruction)
    requires (i.Jump? || i.Call? || i.SkipEqualImmediate? || i.SkipNotEqualImediate? || i.LoadImmediate? || i.AddImmediate? || i.Random? || i.LoadI? || i.JumpImmediate? || i.Draw?) && WellFormed(i) && !Shadowed(i)
    ensures Disassemble(Documented(i)) == Some(i)
  {
    if i.Jump? {
      JumpRoundTrip(i.addr);
    } else if i.Call? {
      CallRoundTrip(i.addr);
    } else if i.SkipEqualImmediate? {
      SkipEqualImmediateRoundTrip(i.vx, i.byte);
    } else if i.SkipNotEqualImediate? {
      SkipNotEqualImediateRoundTrip(i.vx, i.byte);
    } else if i.LoadImmediate? {
      LoadImmediateRoundTrip(i.vx, i.byte);
    } else if i.AddImmediate? {
      AddImmediateRoundTrip(i.vx, i.byte);
    } else if i.Random? {
      RandomRoundTrip(i.vx, i.byte);
    } else if i.LoadI? {
      LoadIRoundTrip(i.addr8);
    } else if i.JumpImmediate? {
      JumpImmediateRoundTrip(i.addr8);
    } else {
      DrawRoundTrip(i.vx, i.vy, i.nibble);
    }
  }

  /**
   * Every well-formed instruction that the table gives a word of its own is
   * read back from that word: the documented encoding loses nothing.
   */
  lemma DisassembleDocumented(i: Instruction)
    requires WellFormed(i) && !Shadowed(i)
    ensures Disassemble(Documented(i)) == Some(i)
  {
    if i.Sys? || i.ScrollDown? || IsFixed(i) {
      SystemRoundTrip(i);
    } else if IsArithmetic(i) || i.SkipEqual? || i.SkipNotEqual? {
      RegistersRoundTrip(i);
    } else if IsKeyOrMisc(i) {
      SubOpcodeRoundTrip(i);
    } else {
      OperandRoundTrip(i);
    }
  }

  /** Two instructions with words of their own in the table have different words. */
  lemma DocumentedInjective(i: Instruction, j: Instruction)
    requires WellFormed(i) && !Shadowed(i) && WellFormed(j) && !Shadowed(j)
    requires Documented(i) == Documented(j)
    ensures i == j
  {
    DisassembleDocumented(i);
    DisassembleDocumented(j);
  }

  // The converse, row by row of the first digit: whatever a word reads back
  // as is well formed, has a word of its own in the table, and that word is
  // the one read.

  lemma SystemRowSound(d2: Nibble, d1: Nibble, d0: Nibble)
    ensures var i := SystemRow(d2, d1, d0);
      WellFormed(i) && !Shadowed(i) && Documented(i) == FromDigits(0x0, d2, d1, d0)
  {
    if d2 == 0x0 && d1 == 0xC {
      ScrollDownSound(d0);
    } else if d2 == 0x0 && d1 == 0xE && d0 == 0x0 {
      ClearScreenSound();
    } else if d2 == 0x0 && d1 == 0xE && d0 == 0xE {
      ReturnSound();
    } else if d2 == 0x0 && d1 == 0xF && d0 == 0xB {
      ScrollRightSound();
    } else if d2 == 0x0 && d1 == 0xF && d0 == 0xC {
      ScrollLeftSound();
    } else if d2 == 0x0 && d1 == 0xF && d0 == 0xD {
      ExitSound();
    } else if d2 == 0x0 && d1 == 0xF && d0 == 0xE {
      LowResSound();
    } else if d2 == 0x0 && d1 == 0xF && d0 == 0xF {
      HighResSound();
    } else {
      ShadowedDigits(d2, d1, d0);
      SysSound(d2, d1, d0);
    }
  }

  lemma SkipEqualRowSound(d2: Nibble, d1: Nibble, d0: Nibble)
    requires Lookup(0x5, d2, d1, d0).Some?
    ensures var i := Lookup(0x5, d2, d1, d0).value;
      WellFormed(i) && !Shadowed(i) && Documented(i) == FromDigits(0x5, d2, d1, d0)
  {
    SkipEqualSound(d2, d1);
  }

  lemma ArithmeticRowSound(d2: Nibble, d1: Nibble, d0: Nibble)
    requires Lookup(0x8, d2, d1, d0).Some?
    ensures var i := Lookup(0x8, d2, d1, d0).value;
      WellFormed(i) && !Shadowed(i) && Documented(i) == FromDigits(0x8, d2, d1, d0)
  {
    if d0 == 0x0 {
      LoadSound(d2, d1);
    } else if d0 == 0x1 {
      OrSound(d2, d1);
    } else if d0 == 0x2 {
      AndSound(d2, d1);
    } else if d0 == 0x3 {
      XorSound(d2, d1);
    } else if d0 == 0x4 {
      AddSound(d2, d1);
    } else if d0 == 0x5 {
      SubSound(d2, d1);
    } else if d0 == 0x6 {
      ShiftRightSound(d2, d1);
    } else if d0 == 0x7 {
      SubNumericSound(d2, d1);
    } else {
      ShiftLeftSound(d2, d1);
    }
  }

  lemma SkipNotEqualRowSound(d2: Nibble, d1: Nibble, d0: Nibble)
    requires Lookup(0x9, d2, d1, d0).Some?
    ensures var i := Lookup(0x9, d2, d1, d0).value;
      WellFormed(i) && !Shadowed(i) && Documented(i) == FromDigits(0x9, d2, d1, d0)
  {
    SkipNotEqualSound(d2, d1);
  }

  lemma LoadIRowSound(d2: Nibble, d1: Nibble, d0: Nibble)
    requires Lookup(0xA, d2, d1, d0).Some?
    ensures var i := Lookup(0xA, d2, d1, d0).value;
      WellFormed(i) && !Shadowed(i) && Documented(i) == FromDigits(0xA, d2, d1, d0)
  {
    LoadISound(d1, d0);
  }

  lemma JumpImmediateRowSound(d2: Nibble, d1: Nibble, d0: Nibble)
    requires Lookup(0xB, d2, d1, d0).Some?
    ensures var i := Lookup(0xB, d2, d1, d0).value;
      WellFormed(i) && !Shadowed(i) && Documented(i) == FromDigits(0xB, d2, d1, d0)
  {
    JumpImmediateSound(d1, d0);
  }

  lemma KeyRowSound(x: Nibble, oo: U8)
    requires KeyRow(x, oo).Some?
    ensures var i := KeyRow(x, oo).value;
      WellFormed(i) && !Shadowed(i) && Documented(i) == FromDigits(0xE, x, DigitOf(oo, 4), DigitOf(oo, 0))
  {
    if oo == 0x9E {
      SkipOnKeySound(x);
    } else {
      SkipNotOnKeySound(x);
    }
  }

  lemma MiscRowSound(x: Nibble, oo: U8)
    requires MiscRow(x, oo).Some?
    ensures var i := MiscRow(x, oo).value;
      WellFormed(i) && !Shadowed(i) && Documented(i) == FromDigits(0xF, x, DigitOf(oo, 4), DigitOf(oo, 0))
  {
    if oo == 0x07 {
      LoadDTIntoVSound(x);
    } else if oo == 0x0A {
      LoadKeySound(x);
    } else if oo == 0x15 {
      LoadVIntoDTSound(x);
    } else if oo == 0x18 {
      LoadVIntoSTSound(x);
    } else if oo == 0x1E {
      AddISound(x);
    } else if oo == 0x29 {
      LoadSpriteIntoISound(x);
    } else if oo == 0x33 {
      LoadBCDIntoISound(x);
    } else if oo == 0x55 {
      LoadVIntoMemSound(x);
    } else {
      LoadMemIntoVSound(x);
    }
  }

  /** What `Lookup` returns is well formed, not shadowed, and documented with the digits looked up. */
  lemma LookupSound(d3: Nibble, d2: Nibble, d1: Nibble, d0: Nibble)
    requires Lookup(d3, d2, d1, d0).Some?
    ensures var i := Lookup(d3, d2, d1, d0).value;
      WellFormed(i) && !Shadowed(i) && Documented(i) == FromDigits(d3, d2, d1, d0)
  {
    if d3 == 0x0 {
      SystemRowSound(d2, d1, d0);
    } else if d3 == 0x1 {
      JumpSound(d2, d1, d0);
    } else if d3 == 0x2 {
      CallSound(d2, d1, d0);
    } else if d3 == 0x3 {
      SkipEqualImmediateSound(d2, d1, d0);
    } else if d3 == 0x4 {
      SkipNotEqualImediateSound(d2, d1, d0);
    } else if d3 == 0x5 {
      SkipEqualRowSound(d2, d1, d0);
    } else if d3 == 0x6 {
      LoadImmediateSound(d2, d1, d0);
    } else if d3 == 0x7 {
      AddImmediateSound(d2, d1, d0);
    } else if d3 == 0x8 {
      ArithmeticRowSound(d2, d1, d0);
    } else if d3 == 0x9 {
      SkipNotEqualRowSound(d2, d1, d0);
    } else if d3 == 0xA {
      LoadIRowSound(d2, d1, d0);
    } else if d3 == 0xB {
      JumpImmediateRowSound(d2, d1, d0);
    } else if d3 == 0xC {
      RandomSound(d2, d1, d0);
    } else if d3 == 0xD {
      DrawSound(d2, d1, d0);
    } else if d3 == 0xE {
      KeyRowSound(d2, Join2(d1, d0));
    } else {
      MiscRowSound(d2, Join2(d1, d0));
    }
  }

  /** A word that reads back as an instruction is that instruction's documented word. */
  lemma DisassembleSound(w: Word)
    requires Disassemble(w).Some?
    ensures var i := Disassemble(w).value; WellFormed(i) && !Shadowed(i) && Documented(i) == w
  {
    var d3, d2, d1, d0 := DigitOf(w, 12), DigitOf(w, 8), DigitOf(w, 4), DigitOf(w, 0);
    LookupSound(d3, d2, d1, d0);
    DigitsDetermineWord(FromDigits(d3, d2, d1, d0), w);
  }

  // What reading back says about the encoders.

  /**
   * The corrected encoder loses nothing: two well-formed instructions that
   * the table gives words of their own encode to different words.
   */
  lemma CorrectedInjective(i: Instruction, j: Instruction)
    requires WellFormed(i) && !Shadowed(i) && WellFormed(j) && !Shadowed(j)
    requires EncodeCorrected(i) == EncodeCorrected(j)
    ensures i == j
  {
    CorrectedMatchesTable(i);
    CorrectedMatchesTable(j);
    DocumentedInjective(i, j);
  }

  /**
   * The corrected encoder loses nothing: the table read backwards recovers
   * every well-formed, unshadowed instruction from its word.
   */
  lemma CorrectedRoundTrip(i: Instruction)
    requires WellFormed(i) && !Shadowed(i)
    ensures Disassemble(EncodeCorrected(i)) == Some(i)
  {
    CorrectedMatchesTable(i);
    DisassembleDocumented(i);
  }

  /** As written, the encoder gets every `Ex__` or `Fx__` instruction wrong, whatever its register: its word reads back as something else or as nothing. */
  lemma AsWrittenMisreads(i: Instruction)
    requires IsKeyOrMisc(i)
    ensures Disassemble(Encode(i)) != Some(i)
  {
    AsWrittenMatchesTable(i);
    if Disassemble(Encode(i)).Some? {
      DisassembleSound(Encode(i));
    }
  }

  /** As written, two different well-formed instructions share a word. */
  lemma AsWrittenNotInjective()
    ensures WellFormed(LoadMemIntoV(0xA)) && WellFormed(LoadImmediate(0x5, 0xAF))
    ensures Encode(LoadMemIntoV(0xA)) == Encode(LoadImmediate(0x5, 0xAF))
    ensures Disassemble(Encode(LoadMemIntoV(0xA))) == Some(LoadImmediate(0x5, 0xAF))
  {
    LoadMemIntoVCollides(0xA);
    LoadImmediateReadBack();
  }

  lemma LoadImmediateReadBack()
    ensures Disassemble(Encode(LoadImmediate(0x5, 0xAF))) == Some(LoadImmediate(0x5, 0xAF))
  {
    AsWrittenMatchesTable(LoadImmediate(0x5, 0xAF));
    LoadImmediateRoundTrip(0x5, 0xAF);
  }

  /**
   * Different `8xy_` operations, or the same operation on different
   * registers, encode to different words.
   */
  lemma ArithmeticDistinct(i: Instruction, j: Instruction)
    requires IsArithmetic(i) && IsArithmetic(j) && WellFormed(i) && WellFormed(j)
    requires Encode(i) == Encode(j)
    ensures i == j
  {
    ArithmeticAsDocumented(i);
    ArithmeticAsDocumented(j);
    DocumentedInjective(i, j);
  }

  lemma ArithmeticAsDocumented(i: Instruction)
    requires IsArithmetic(i)
    ensures Encode(i) == Documented(i) && !Shadowed(i)
  {
    RowByOxyo(i);
  }
}
