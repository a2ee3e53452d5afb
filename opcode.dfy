/**
 * The 16-bit opcode word of src/opcode.rs: its bit-range view, the seven
 * layout builders and the `From<Instruction>` match that chooses them.
 * Bit 0 is the least significant bit (the `Lsb0` order of the source), and a
 * store into a range of width `n` keeps the low `n` bits of the value.
 */
module OpCodes {
  import opened Instructions

  type OpCode = bv16

  /** `Self::default()`: the all-zero word every builder starts from. */
  const Default: OpCode := 0

  /** `v mod 2^width`: the low `width` bits of `v`. */
  function Low(v: bv16, width: bv16): bv16
    requires width <= 16
  {
    v & !(0xFFFF << width)
  }

  /** The bits `lo..hi` set, all others clear. */
  function RangeMask(lo: bv16, hi: bv16): bv16
    requires lo <= hi <= 16
  {
    Low(0xFFFF, hi - lo) << lo
  }

  /** `opcode[lo..hi]`: the bits `lo..hi` of `w`, read as a number. */
  function Field(w: OpCode, lo: bv16, hi: bv16): bv16
    requires lo <= hi <= 16
  {
    Low(w >> lo, hi - lo)
  }

  /** A field one digit wide is the table's digit at that position. */
  lemma FieldDigit(w: OpCode, s: bv16)
    requires s == 0 || s == 4 || s == 8 || s == 12
    ensures Field(w, s, s + 4) == DigitOf(w, s)
  {}

  /** A range whose ends fall on digit boundaries, as every range the builders store into does. */
  predicate NibbleAligned(lo: bv16, hi: bv16)
  {
    (lo == 0 || lo == 4 || lo == 8 || lo == 12) &&
    (hi == 4 || hi == 8 || hi == 12 || hi == 16) && lo < hi
  }

  /**
   * `opcode[lo..hi].store(v)`: the low `hi - lo` bits of `v` go into bits
   * `lo..hi`, and every bit outside the range keeps its value.
   */
  function Store(w: OpCode, lo: bv16, hi: bv16, v: bv16): (r: OpCode)
    requires NibbleAligned(lo, hi)
    ensures Field(r, lo, hi) == Low(v, hi - lo)
    ensures r & !RangeMask(lo, hi) == w & !RangeMask(lo, hi)
  {
    (w & !RangeMask(lo, hi)) | (Low(v, hi - lo) << lo)
  }

  // The words the seven builders produce, in closed form.

  /** `oooo`: all sixteen bits come from the argument. */
  function Oooo(oooo: U16): OpCode
  {
    oooo
  }

  /** `oook`: a 12-bit prefix over a 4-bit literal. */
  function Oook(ooo: U16, k: U8): OpCode
  {
    ((ooo & 0xFFF) << 4) | (k & 0xF)
  }

  /** `oxoo` as written: the 8-bit sub-opcode in the HIGH byte, the register next, the family nibble LOWEST. */
  function Oxoo(o: U8, x: U8, oo: U8): OpCode
  {
    ((oo & 0xFF) << 8) | ((x & 0xF) << 4) | (o & 0xF)
  }

  /** `oxyo`: four nibbles, most significant first in argument order. */
  function Oxyo(om: U8, x: U8, y: U8, ol: U8): OpCode
  {
    ((om & 0xF) << 12) | ((x & 0xF) << 8) | ((y & 0xF) << 4) | (ol & 0xF)
  }

  /** `okkk`: a family nibble over a 12-bit address. */
  function Okkk(o: U8, kkk: U16): OpCode
  {
    ((o & 0xF) << 12) | (kkk & 0xFFF)
  }

  /** `oxkk`: a family nibble, a register and a byte. */
  function Oxkk(o: U8, x: U8, kk: U8): OpCode
  {
    ((o & 0xF) << 12) | ((x & 0xF) << 8) | (kk & 0xFF)
  }

  /** `oxyk`: a family nibble, two registers and a 4-bit literal. */
  function Oxyk(o: U8, x: U8, y: U8, k: U8): OpCode
  {
    ((o & 0xF) << 12) | ((x & 0xF) << 8) | ((y & 0xF) << 4) | (k & 0xF)
  }

  // What each builder stores where: one lemma per builder, every bit range
  // it fills. The ranges tile bits 0..16, so each field depends on its own
  // argument alone and changing one argument changes only its range.

  lemma OoooFields(oooo: U16)
    ensures Field(Oooo(oooo), 0, 16) == oooo
  {}

  lemma OookFields(ooo: U16, k: U8)
    ensures Field(Oook(ooo, k), 0, 4) == Low(k, 4)
    ensures Field(Oook(ooo, k), 4, 16) == Low(ooo, 12)
  {}

  lemma OxooFields(o: U8, x: U8, oo: U8)
    ensures Field(Oxoo(o, x, oo), 0, 4) == Low(o, 4)
    ensures Field(Oxoo(o, x, oo), 4, 8) == Low(x, 4)
    ensures Field(Oxoo(o, x, oo), 8, 16) == Low(oo, 8)
  {}

  lemma OxyoFields(om: U8, x: U8, y: U8, ol: U8)
    ensures Field(Oxyo(om, x, y, ol), 0, 4) == Low(ol, 4)
    ensures Field(Oxyo(om, x, y, ol), 4, 8) == Low(y, 4)
    ensures Field(Oxyo(om, x, y, ol), 8, 12) == Low(x, 4)
    ensures Field(Oxyo(om, x, y, ol), 12, 16) == Low(om, 4)
  {}

  lemma OkkkFields(o: U8, kkk: U16)
    ensures Field(Okkk(o, kkk), 0, 12) == Low(kkk, 12)
    ensures Field(Okkk(o, kkk), 12, 16) == Low(o, 4)
  {}

  lemma OxkkFields(o: U8, x: U8, kk: U8)
    ensures Field(Oxkk(o, x, kk), 0, 8) == Low(kk, 8)
    ensures Field(Oxkk(o, x, kk), 8, 12) == Low(x, 4)
    ensures Field(Oxkk(o, x, kk), 12, 16) == Low(o, 4)
  {}

  lemma OxykFields(o: U8, x: U8, y: U8, k: U8)
    ensures Field(Oxyk(o, x, y, k), 0, 4) == Low(k, 4)
    ensures Field(Oxyk(o, x, y, k), 4, 8) == Low(y, 4)
    ensures Field(Oxyk(o, x, y, k), 8, 12) == Low(x, 4)
    ensures Field(Oxyk(o, x, y, k), 12, 16) == Low(o, 4)
  {}

  // The builders as the source runs them: start from the default word and
  // store each argument into its range, in the source's order.

  method BuildOooo(oooo: U16) returns (opcode: OpCode)
    ensures opcode == Oooo(oooo)
  {
    opcode := Default;
    opcode := Store(opcode, 0, 16, oooo);
  }

  method BuildOook(ooo: U16, k: U8) returns (opcode: OpCode)
    ensures opcode == Oook(ooo, k)
  {
    opcode := Default;
    opcode := Store(opcode, 4, 16, ooo);
    opcode := Store(opcode, 0, 4, k);
  }

  method BuildOxoo(o: U8, x: U8, oo: U8) returns (opcode: OpCode)
    ensures opcode == Oxoo(o, x, oo)
  {
    opcode := Default;
    opcode := Store(opcode, 8, 16, oo);
    opcode := Store(opcode, 4, 8, x);
    opcode := Store(opcode, 0, 4, o);
  }

  method BuildOxyo(om: U8, x: U8, y: U8, ol: U8) returns (opcode: OpCode)
    ensures opcode == Oxyo(om, x, y, ol)
  {
    opcode := Default;
    opcode := Store(opcode, 12, 16, om);
    opcode := Store(opcode, 8, 12, x);
    opcode := Store(opcode, 4, 8, y);
    opcode := Store(opcode, 0, 4, ol);
  }

  method BuildOkkk(o: U8, kkk: U16) returns (opcode: OpCode)
    ensures opcode == Okkk(o, kkk)
  {
    opcode := Default;
    opcode := Store(opcode, 12, 16, o);
    opcode := Store(opcode, 0, 12, kkk);
  }

  method BuildOxkk(o: U8, x: U8, kk: U8) returns (opcode: OpCode)
    ensures opcode == Oxkk(o, x, kk)
  {
    opcode := Default;
    opcode := Store(opcode, 12, 16, o);
    opcode := Store(opcode, 8, 12, x);
    opcode := Store(opcode, 0, 8, kk);
  }

  method BuildOxyk(o: U8, x: U8, y: U8, k: U8) returns (opcode: OpCode)
    ensures opcode == Oxyk(o, x, y, k)
  {
    opcode := Default;
    opcode := Store(opcode, 12, 16, o);
    opcode := Store(opcode, 8, 12, x);
    opcode := Store(opcode, 4, 8, y);
    opcode := Store(opcode, 0, 4, k);
  }

  // `From<Instruction> for OpCode`.

  /** A call of one of the seven builders, with its arguments. */
  datatype BuilderCall =
    | CallOooo(oooo: U16)
    | CallOook(ooo: U16, k: U8)
    | CallOxoo(o: U8, x: U8, oo: U8)
    | CallOxyo(om: U8, x: U8, y: U8, ol: U8)
    | CallOkkk(o: U8, kkk: U16)
    | CallOxkk(o: U8, x: U8, kk: U8)
    | CallOxyk(o: U8, x: U8, y: U8, k: U8)

  /** The word a builder call returns. */
  function Apply(c: BuilderCall): OpCode
  {
    match c
    case CallOooo(w) => Oooo(w)
    case CallOook(ooo, k) => Oook(ooo, k)
    case CallOxoo(o, x, oo) => Oxoo(o, x, oo)
    case CallOxyo(om, x, y, ol) => Oxyo(om, x, y, ol)
    case CallOkkk(o, kkk) => Okkk(o, kkk)
    case CallOxkk(o, x, kk) => Oxkk(o, x, kk)
    case CallOxyk(o, x, y, k) => Oxyk(o, x, y, k)
  }

  /**
   * The arms of the match in `From<Instruction> for OpCode`: the builder
   * each variant calls and its arguments. The match has no arm for `Sys`.
   * `LoadI` and `JumpImmediate` pass a `u8` where `okkk` takes a `u16`, which
   * Rust rejects; they are read here as passing `u16::from(addr)`.
   */
  function BuilderFor(i: Instruction): (c: BuilderCall)
    requires !i.Sys?
  {
    match i
    case ScrollDown(k) => CallOook(0x00C, k)
    case ScrollRight => CallOooo(0x00FB)
    case ScrollLeft => CallOooo(0x00FC)
    case Exit => CallOooo(0x00FD)
    case LowRes => CallOooo(0x00FE)
    case HighRes => CallOooo(0x00FF)
    case ClearScreen => CallOooo(0x00E0)
    case Return => CallOooo(0x00EE)
    case Jump(addr) => CallOkkk(0x1, addr)
    case Call(addr) => CallOkkk(0x2, addr)
    case SkipEqualImmediate(vx, byte) => CallOxkk(0x3, vx, byte)
    case SkipNotEqualImediate(vx, byte) => CallOxkk(0x4, vx, byte)
    case SkipEqual(vx, vy) => CallOxyo(0x5, vx, vy, 0x0)
    case LoadImmediate(vx, byte) => CallOxkk(0x6, vx, byte)
    case AddImmediate(vx, byte) => CallOxkk(0x7, vx, byte)
    case Load(vx, vy) => CallOxyo(0x8, vx, vy, 0x0)
    case Or(vx, vy) => CallOxyo(0x8, vx, vy, 0x1)
    case And(vx, vy) => CallOxyo(0x8, vx, vy, 0x2)
    case Xor(vx, vy) => CallOxyo(0x8, vx, vy, 0x3)
    case Add(vx, vy) => CallOxyo(0x8, vx, vy, 0x4)
    case Sub(vx, vy) => CallOxyo(0x8, vx, vy, 0x5)
    case ShiftRight(vx, vy) => CallOxyo(0x8, vx, vy, 0x6)
    case SubNumeric(vx, vy) => CallOxyo(0x8, vx, vy, 0x7)
    case ShiftLeft(vx, vy) => CallOxyo(0x8, vx, vy, 0xE)
    case SkipNotEqual(vx, vy) => CallOxyo(0x9, vx, vy, 0x0)
    case LoadI(addr) => CallOkkk(0xA, addr)
    case JumpImmediate(addr) => CallOkkk(0xB, addr)
    case Random(vx, addr) => CallOxkk(0xC, vx, addr)
    case Draw(vx, vy, nibble) => CallOxyk(0xD, vx, vy, nibble)
    case SkipOnKey(vx) => CallOxoo(0xE, vx, 0x9E)
    case SkipNotOnKey(vx) => CallOxoo(0xE, vx, 0xA1)
    case LoadDTIntoV(vx) => CallOxoo(0xF, vx, 0x07)
    case LoadKey(vx) => CallOxoo(0xF, vx, 0x0A)
    case LoadVIntoDT(vx) => CallOxoo(0xF, vx, 0x15)
    case LoadVIntoST(vx) => CallOxoo(0xF, vx, 0x18)
    case AddI(vx) => CallOxoo(0xF, vx, 0x1E)
    case LoadSpriteIntoI(vx) => CallOxoo(0xF, vx, 0x29)
    case LoadBCDIntoI(vx) => CallOxoo(0xF, vx, 0x33)
    case LoadVIntoMem(vx) => CallOxoo(0xF, vx, 0x55)
    case LoadMemIntoV(vx) => CallOxoo(0xF, vx, 0x65)
  }

  /** `From<Instruction> for OpCode` of src/opcode.rs, for every variant but `Sys`. */
  function FromInstruction(i: Instruction): OpCode
    requires !i.Sys?
  {
    Apply(BuilderFor(i))
  }

  /**
   * `oxoo` laid out as the `Ex__` and `Fx__` rows of the opcode table say:
   * the family nibble highest, then the register, then the 8-bit sub-opcode.
   */
  function OxooCorrected(o: U8, x: U8, oo: U8): OpCode
  {
    ((o & 0xF) << 12) | ((x & 0xF) << 8) | (oo & 0xFF)
  }

  lemma OxooCorrectedFields(o: U8, x: U8, oo: U8)
    ensures Field(OxooCorrected(o, x, oo), 0, 8) == Low(oo, 8)
    ensures Field(OxooCorrected(o, x, oo), 8, 12) == Low(x, 4)
    ensures Field(OxooCorrected(o, x, oo), 12, 16) == Low(o, 4)
  {}

  /** `Apply` with `oxoo` replaced by `OxooCorrected`. */
  function ApplyCorrected(c: BuilderCall): OpCode
  {
    if c.CallOxoo? then OxooCorrected(c.o, c.x, c.oo) else Apply(c)
  }

  /** The match of `From<Instruction> for OpCode` over the corrected `oxoo`. */
  function FromInstructionCorrected(i: Instruction): OpCode
    requires !i.Sys?
  {
    ApplyCorrected(BuilderFor(i))
  }
}
