# chirp instruction encoder, in Dafny

This project models the instruction encoder of the `chirp` CHIP-8 /
Super-CHIP emulator and proves properties of it.

The encoder turns an `Instruction` (one variant per row of the opcode table
in the doc comment of `src/instructions.rs`) into a 16-bit `OpCode`. It works
in two layers:

- seven bit-field builders, `oooo` … `oxyk`, each of which starts from the
  zero word and stores its arguments into fixed bit ranges;
- the `From<Instruction> for OpCode` match, which picks a builder and its
  arguments for each variant. `Sys` is encoded by the stub in
  `src/instructions.rs`.

The files:

- `instructions.dfy` (module `Instructions`) holds:
  - the variants, with the source's `u8`/`u16` operand types;
  - the width legend, as `WellFormed`;
  - the opcode table, transcribed row by row as symbolic patterns (`Row`);
    `Documented` fills in a pattern with an instruction's operands to give
    the word the table promises;
  - the most-significant-byte-first layout of a word in memory, and of a
    whole program (`Image`), instruction `k` at byte offset `2 * k`. The
    source has no function that builds or reads such an image; `Image` and
    `Words` formalise the layout its documentation describes;
  - the `Sys`-only stub.
- `opcode.dfy` (module `OpCodes`) holds:
  - the bit-range view (`Field`, `Store`);
  - each builder, both as a method that runs the source's sequence of
    stores and as the closed-form function that method is proved equal to;
  - the `From<Instruction>` match, as `BuilderFor` (which builder, which
    arguments) and `Apply` (run it);
  - a corrected `oxoo` that lays its fields out as the table does.
- `encoding.dfy` (module `Encoding`) holds:
  - the encoder as written (`Encode`) and with the corrected `oxoo`
    (`EncodeCorrected`);
  - the repository's literal test vectors;
  - the comparison of both encoders with the table, family by family.
- `disassembly.dfy` (module `Disassembly`) reads the table backwards
  (`Disassemble`). The repository has no decoder. This one is a reference
  inverse, used to prove two things:
  - the documented encoding, and the corrected encoder, lose no information
    for in-range operands;
  - the encoder as written does lose information.

Operands are `bv16` values, and a `u8` is a `bv16` below `0x100`. The
match passes the `u8` address of `LoadI` and `JumpImmediate` to `okkk`,
which takes a `u16`. The model reads that argument as `u16::from(addr)`,
the same number (see "## Left out"). A `store` into a range of width `n` keeps the
low `n` bits of the value, as `bitvec`'s `Lsb0` store does. Every builder
therefore masks each argument to its field's width.

The proof that `Disassemble` inverts the table is split by instruction:

- `<Variant>Shape` gives the variant's row and operands;
- `<Variant>RoundTrip` reads back the variant's word;
- `<Variant>Sound` gives the word of what `Lookup` builds from digits.

These lemmas are the cases of `Disassembly.DisassembleDocumented` and
`Disassembly.LookupSound` below. The same goes for the `Shape…`, `…Fill`
and `RowBy…` lemmas of `Encoding` behind `CorrectedMatchesTable` and
`AsWrittenMatchesTable`.

## Model

| member | source | states |
|---|---|---|
| Instructions.WellFormed | src/instructions.rs:10-13 | The width legend: an instruction is well formed when every operand fits its symbols (`x`, `y` and `k` 4 bits, `kk` 8, `kkk` 12). The lemmas below take it as their hypothesis. |
| Instructions.Row | src/instructions.rs:15-57 | The OpCode column, one symbolic pattern per variant. Its shape is stated by `FamilyDigitFixed`, `ArithmeticFamilyRows`, `KeyOrMiscFamilyRows` and `FixedRowsWithoutSymbols`. |
| Instructions.Documented | src/instructions.rs:10-57 | The word the table promises for an instruction. Its digits are given by `DocumentedDigits`. `Disassembly.DocumentedInjective` shows that no two well-formed, unshadowed instructions share one. |
| Instructions.FromBytes | src/instructions.rs:5-6 | Two stored bytes joined into a word, the first one high. It is the inverse of `ToBytes` by `BytesRoundTrip` and `WordRoundTrip`. |
| OpCodes.Field | src/opcode.rs:17-22 | `opcode[lo..hi]` read as a number. `Store` writes what `Field` then reads, and `FieldDigit` equates a digit-wide field with the table's digit. |
| OpCodes.Oooo | src/opcode.rs:39-43 | The word `oooo` builds. `BuildOooo` proves it equal to the source's store, and `OoooFields` states its field. |
| OpCodes.Oook | src/opcode.rs:44-49 | The word `oook` builds. `BuildOook` proves it equal to the source's stores, and `OookFields` states its fields. |
| OpCodes.Oxoo | src/opcode.rs:50-56 | The word `oxoo` builds as written. `BuildOxoo` proves it equal to the source's stores, and `OxooFields` states its fields. |
| OpCodes.Oxyo | src/opcode.rs:57-64 | The word `oxyo` builds. `BuildOxyo` proves it equal to the source's stores, and `OxyoFields` states its fields. |
| OpCodes.Okkk | src/opcode.rs:65-70 | The word `okkk` builds. `BuildOkkk` proves it equal to the source's stores, and `OkkkFields` states its fields. |
| OpCodes.Oxkk | src/opcode.rs:71-77 | The word `oxkk` builds. `BuildOxkk` proves it equal to the source's stores, and `OxkkFields` states its fields. |
| OpCodes.Oxyk | src/opcode.rs:78-85 | The word `oxyk` builds. `BuildOxyk` proves it equal to the source's stores, and `OxykFields` states its fields. |
| OpCodes.BuilderFor | src/opcode.rs:91-132 | The arm of the match for each variant but `Sys`: which builder runs and with which arguments. Each arm is checked against its table row by the `Shape…` lemmas of `Encoding` (builder and constant digits), gathered by `Encoding.AsWrittenRowByRow` and `Encoding.CorrectedRowByRow`. |
| OpCodes.FromInstruction | src/opcode.rs:88-134 | `From<Instruction> for OpCode`: the chosen builder run on its arguments. `Encoding.AsWrittenMatchesTable` compares its words with the table. |
| Encoding.Encode | src/opcode.rs:88-134 | The whole encoder as written: `Sys` by the stub, every other variant by the match. `AsWrittenMatchesTable` says on which instructions it agrees with the table. `Disassembly.AsWrittenNotInjective` shows two instructions sharing a word. |
| Encoding.EncodeCorrected | src/instructions.rs:47-57 | The encoder with `oxoo` laid out as the `Ex__`/`Fx__` rows say. `CorrectedMatchesTable` shows it agrees with the table on every instruction except a `Sys` at or above `0x1000`. `Disassembly.CorrectedInjective` shows it is injective. |
| Instructions.DocumentedDigits | src/instructions.rs:10-57 | Each hex digit of a documented word is what its table symbol stands for: a fixed digit, the low digit of `x` or `y`, or the matching digit of `k`. |
| Instructions.FamilyDigitFixed | src/instructions.rs:15-57 | Every row of the table starts with a fixed family digit. |
| Instructions.ArithmeticFamilyRows | src/instructions.rs:33-41 | A variant is one of the nine register-arithmetic operations exactly when its row is in family `8`. |
| Instructions.KeyOrMiscFamilyRows | src/instructions.rs:47-57 | A variant is a key, timer, I or memory operation exactly when its row is in family `E` or `F`. |
| Instructions.FixedRowsWithoutSymbols | src/instructions.rs:19-25 | The seven operand-less variants are exactly the rows with no operand symbol. |
| Instructions.DigitsOfFromDigits | src/instructions.rs:15-57 | The four hex digits of a word built from digits read back unchanged. |
| Instructions.ToBytes | src/instructions.rs:5-6 | An instruction word is stored as exactly two bytes. |
| Instructions.BytesRoundTrip | src/instructions.rs:5-6 | Splitting a word into its high and low byte and rejoining them gives the word back. |
| Instructions.WordRoundTrip | src/instructions.rs:5-6 | Joining two bytes and splitting the word again gives the same two bytes. |
| Instructions.JoinedBytes | src/instructions.rs:5-6 | The first stored byte is the most significant byte of the word. |
| Instructions.Image | src/instructions.rs:5-6 | A program of `n` instructions occupies exactly `2 * n` bytes. |
| Instructions.Words | src/instructions.rs:5-6 | Reading an even number of bytes two at a time gives half as many instructions. |
| Instructions.ImageAt | src/instructions.rs:5-6 | Instruction `k` of a program sits at the even offset `2 * k` of its image, most significant byte first. |
| Instructions.ImageRoundTrip | src/instructions.rs:5-6 | Reading back the image of a program gives the program. |
| Instructions.WordsRoundTrip | src/instructions.rs:5-6 | Every byte sequence of even length is the image of the instructions read from it. |
| Instructions.StubFromInstruction | src/instructions.rs:227-234 | The stub returns a word exactly for `Sys`; every other variant reaches `todo!()` (`None`). |
| Instructions.StubSysUnmasked | src/instructions.rs:231 | `Sys(addr)` encodes to `addr` itself, with no mask. Its top digit is 0, and its word is the table's `0kkk`, exactly when `addr < 0x1000`. |
| OpCodes.FieldDigit | src/opcode.rs:17-22 | A one-digit field `opcode[s..s+4]` is the table's hex digit at that position, so the bit-range view and the table's digit view agree. |
| OpCodes.Store | src/opcode.rs:17-28 | A store into a bit range puts the value's low bits into that range and leaves every bit outside it unchanged. |
| OpCodes.OoooFields | src/opcode.rs:39-43 | `oooo(w)` holds exactly `w` in bits 0..16. |
| OpCodes.OookFields | src/opcode.rs:44-49 | `oook` holds `k mod 16` in bits 0..4 and `ooo mod 4096` in bits 4..16. |
| OpCodes.OxooFields | src/opcode.rs:50-56 | `oxoo` as written holds `o mod 16` in bits 0..4, `x mod 16` in 4..8 and `oo mod 256` in 8..16. |
| OpCodes.OxyoFields | src/opcode.rs:57-64 | `oxyo` holds `ol`, `y`, `x` and `om`, each mod 16, in the four nibbles from least to most significant. |
| OpCodes.OkkkFields | src/opcode.rs:65-70 | `okkk` holds `kkk mod 4096` in bits 0..12 and `o mod 16` in 12..16. |
| OpCodes.OxkkFields | src/opcode.rs:71-77 | `oxkk` holds `kk mod 256` in bits 0..8, `x mod 16` in 8..12 and `o mod 16` in 12..16. |
| OpCodes.OxykFields | src/opcode.rs:78-85 | `oxyk` holds `k`, `y`, `x` and `o`, each mod 16, in the four nibbles from least to most significant. |
| OpCodes.BuildOooo | src/opcode.rs:39-43 | Starting from the default word and storing as the source does yields the `oooo` word described by `OoooFields`. |
| OpCodes.BuildOook | src/opcode.rs:44-49 | The two stores of `oook`, run in order from zero, yield the word of `OookFields`. |
| OpCodes.BuildOxoo | src/opcode.rs:50-56 | The three stores of `oxoo`, run in order from zero, yield the word of `OxooFields`. |
| OpCodes.BuildOxyo | src/opcode.rs:57-64 | The four stores of `oxyo`, run in order from zero, yield the word of `OxyoFields`. |
| OpCodes.BuildOkkk | src/opcode.rs:65-70 | The two stores of `okkk`, run in order from zero, yield the word of `OkkkFields`. |
| OpCodes.BuildOxkk | src/opcode.rs:71-77 | The three stores of `oxkk`, run in order from zero, yield the word of `OxkkFields`. |
| OpCodes.BuildOxyk | src/opcode.rs:78-85 | The four stores of `oxyk`, run in order from zero, yield the word of `OxykFields`. |
| OpCodes.OxooCorrectedFields | src/instructions.rs:47-57 | The corrected `oxoo` holds `oo` in bits 0..8, `x` in 8..12 and `o` in 12..16, the layout of the `Ex__`/`Fx__` rows. |
| Encoding.ScrollDownVector | src/opcode.rs:140-146 | `ScrollDown(0xA)` encodes to `0x00CA`. |
| Encoding.FixedVectors | src/opcode.rs:148-202 | The seven operand-less variants encode to `00FB`, `00FC`, `00FD`, `00FE`, `00FF`, `00E0` and `00EE`. |
| Encoding.JumpVector | src/opcode.rs:204-210 | `Jump(0xABC)` encodes to `0x1ABC`. |
| Encoding.CallVector | src/opcode.rs:101 | `Call(0xABC)` encodes to `0x2ABC`, top digit 2. |
| Encoding.DrawVector | src/opcode.rs:120 | `Draw(0xA, 0xB, 0xC)` encodes to `0xDABC`. |
| Encoding.OxooMissesRow | src/opcode.rs:50-56 | Whenever the sub-opcode's high digit is not the family digit (true of every `Ex__`/`Fx__` row), `oxoo` as written differs from the `o x oo` row it is used for. |
| Encoding.OxooCorrectedFill | src/instructions.rs:47-57 | The corrected `oxoo` is exactly the `o x oo` row filled with its arguments. |
| Encoding.CorrectedRowByRow | src/opcode.rs:88-134 | With the corrected `oxoo`, the match gives every variant other than `Sys` its table word. |
| Encoding.AsWrittenRowByRow | src/opcode.rs:88-134 | As written, the match gives a variant other than `Sys` its table word exactly when it is not in the `Ex__`/`Fx__` rows. |
| Encoding.CorrectedMatchesTable | src/opcode.rs:88-134 | The corrected encoder writes the table's word for every instruction, except a `Sys` address of 0x1000 or more. |
| Encoding.AsWrittenMatchesTable | src/opcode.rs:88-134 | The encoder as written writes the table's word exactly for instructions outside `Ex__`/`Fx__`, with the same `Sys` exception. |
| Encoding.OxooDigits | src/opcode.rs:50-56 | As written, `oxoo`'s digits are, from most significant down: the two sub-opcode digits, then the register, then the family digit. |
| Encoding.KeyOrMiscAsWritten | src/opcode.rs:121-131 | For every key/misc variant, the word as written has the family digit lowest, the register next and the sub-opcode on top. Its top digit is never `E` or `F`. |
| Encoding.LoadMemIntoVWord | src/opcode.rs:131 | As written, `LoadMemIntoV(x)` encodes to `65xF`. |
| Encoding.LoadMemIntoVVector | src/opcode.rs:131 | As written, `LoadMemIntoV(0xA)` encodes to `0x65AF`. |
| Encoding.LoadMemIntoVDocumented | src/instructions.rs:57 | The table's word for `LoadMemIntoV(0xA)` is `0xFA65`. |
| Encoding.LoadMemIntoVCorrected | src/instructions.rs:57 | The corrected encoder gives `LoadMemIntoV(0xA)` the table's `0xFA65`. |
| Encoding.LoadImmediateWord | src/opcode.rs:105 | `LoadImmediate(x, kk)` encodes to `6xkk`. |
| Encoding.LoadMemIntoVCollides | src/opcode.rs:105-131 | As written, `LoadMemIntoV(x)` and `LoadImmediate(5, x·16 + 0xF)` share a word. |
| Encoding.LoadDTIntoVCollides | src/opcode.rs:123 | As written, `LoadDTIntoV(x)` shares its word with `Sys(0x7xF)`. |
| Encoding.AddICollides | src/opcode.rs:127 | As written, `AddI(x)` shares its word with `Jump(0xExF)`. |
| Encoding.SysShadowsSystemRows | src/instructions.rs:17-25 | Every word of a fixed system row or of `ScrollDown` is also the word of a `Sys`. |
| Encoding.ClearScreenShadowed | src/instructions.rs:231 | `Sys(0x0E0)` and `ClearScreen` encode to the same word. |
| Encoding.TopDigit | src/opcode.rs:88-134 | Every instruction's word has the table's family digit on top, except key/misc ones as written, and `Sys` at 0x1000 or more. |
| Encoding.OkkkByte | src/opcode.rs:65-70 | `okkk` of a `u8` address leaves the address's top digit 0. |
| Encoding.LoadIWidened | src/opcode.rs:117 | `LoadI(a)` with a `u8` address encodes to `A0aa`. |
| Encoding.JumpImmediateWidened | src/opcode.rs:118 | `JumpImmediate(a)` with a `u8` address encodes to `B0aa`. |
| Encoding.ArithmeticShape | src/instructions.rs:33-41 | The rows of the nine arithmetic variants are `8xy?`, with last digit 0 to 7 or E. |
| Encoding.ArithmeticFamily | src/opcode.rs:107-115 | An arithmetic variant's word has top digit 8, then the two registers, then its sub-opcode, which is 0 to 7 or E. |
| Encoding.OxyoDigits | src/opcode.rs:57-64 | `oxyo`'s four digits are its four arguments, each mod 16, most significant first. |
| Disassembly.ShadowedDigits | src/instructions.rs:17-25 | The `Sys` addresses that fall on `00Ck`, `00E0`, `00EE` or `00FB`–`00FF` are exactly those with those digits. |
| Disassembly.DisassembleDocumented | src/instructions.rs:15-57 | Reading a documented word back gives the instruction, for every well-formed instruction that has a word of its own. |
| Disassembly.DocumentedInjective | src/instructions.rs:10-57 | Two such instructions with the same documented word are equal: in-range operands lose nothing. |
| Disassembly.LookupSound | src/instructions.rs:15-57 | Whatever the table gives for four digits is well formed, has a word of its own, and that word has those digits. |
| Disassembly.DisassembleSound | src/instructions.rs:15-57 | A word that reads back as an instruction is that instruction's documented word. |
| Disassembly.CorrectedRoundTrip | src/instructions.rs:47-57 | The corrected encoder's word of every well-formed, unshadowed instruction reads back, through the table, as that instruction. |
| Disassembly.CorrectedInjective | src/opcode.rs:88-134 | With the corrected `oxoo`, two well-formed instructions that have words of their own encode to different words. |
| Disassembly.AsWrittenMisreads | src/opcode.rs:50-56 | As written, the word of every key/misc variant reads back as something else, or as nothing. |
| Disassembly.AsWrittenNotInjective | src/opcode.rs:50-56 | As written, the well-formed `LoadMemIntoV(0xA)` and `LoadImmediate(5, 0xAF)` share a word, which reads back as the latter. |
| Disassembly.ArithmeticDistinct | src/opcode.rs:107-115 | Two well-formed arithmetic variants with the same word are the same operation on the same registers. |

## Left out

- `src/main.rs` is not part of this model. It is a process entry point that loads a file and prints.
- `src/memory.rs` is not part of this model. It has only a zero-filled 4096-byte constructor and formatting.
- `src/register.rs` is not part of this model. It declares a struct with no operations. Its `v: [u8; 0xF]` and `stack: [u16; 0xF]` hold 15 entries, while their comments promise 16 (src/register.rs:4-9, 24-26).
- `fmt::Debug for OpCode` (hexadecimal formatting, src/opcode.rs:11-15) is not modelled, because it is string output only.
- `bitvec` is not modelled as a library. `BitSlice` and `store` become explicit shift-and-mask arithmetic on the 16-bit word.
- `OpCodes.Store` is stated only for ranges whose ends fall on digit boundaries. These are the only ranges the builders use.
- The two `From<Instruction>` impls are joined into one encoder. `Sys` comes from the stub in `src/instructions.rs` and every other variant from `src/opcode.rs`. In the source they sit in different modules, on two distinct `OpCode` types. The stub's `todo!()` arm is modelled as `None`.
- The padding of sprite data so that instructions stay at even addresses (src/instructions.rs:6-8) is not modelled. `Instructions.Image` holds instructions only.
- `src/opcode.rs` does not compile as written, for two reasons. First, the arms `LoadI(addr) => OpCode::okkk(0xA, addr)` and `JumpImmediate(addr) => OpCode::okkk(0xB, addr)` (src/opcode.rs:117-118) pass a `u8` where `okkk` takes a `u16`, and Rust does no implicit widening. Second, the match (src/opcode.rs:91-132) has neither a `Sys` arm nor a `_` arm, so it is not exhaustive. The model reads the first as `okkk(0xA, u16::from(addr))` and takes `Sys` from the stub in `src/instructions.rs`. "As written" in this document means the source under that reading.
- `LoadI` and `JumpImmediate` keep the source's `u8` address (src/instructions.rs:166, 170), although their rows `Akkk` and `Bkkk` promise 12 bits (src/instructions.rs:43-44). No encoded `LD I` or `JP V0` can therefore name an address from `0x100` to `0xFFF`, which includes the program area at `0x200` (`Encoding.LoadIWidened`, `Encoding.JumpImmediateWidened`). A 12-bit variant is not modelled, because it would change the enum the rest of the source declares.
- There is no decoder, interpreter, timer, display, keypad or audio in the source, so none is modelled. `Disassembly.Disassemble` is a reference inverse written from the table. It is not a source operation.

## Findings

| source | as written | input that shows it | evidently intended | confidence | as-written member | corrected member |
|---|---|---|---|---|---|---|
| src/opcode.rs:50-56 | `oxoo` stores `oo` in bits 8..16, `x` in 4..8 and `o` in 0..4: the family digit ends up lowest. | `LoadMemIntoV(0xA)` gives `0x65AF` instead of the table's `0xFA65`. That is also the word of `LoadImmediate(5, 0xAF)`. | `o` in bits 12..16, `x` in 8..12 and `oo` in 0..8, as rows `Ex9E` … `Fx65` of the table say (src/instructions.rs:47-57). | high; not executed | Encoding.LoadMemIntoVCollides, Disassembly.AsWrittenNotInjective | Encoding.CorrectedMatchesTable, Disassembly.CorrectedInjective, Disassembly.CorrectedRoundTrip |
