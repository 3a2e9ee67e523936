/** The opcode table of `disassemble_8080_op` (src/disassembler.rs): for every opcode
    byte, the text printed, how its operand bytes are printed, and how many bytes the
    instruction occupies. */
module Disassembler {
  import opened Types

  /** How an instruction's operand bytes follow its text. */
  datatype Operand =
    | Implied    // no operand
    | Immediate  // buff[pc + 1] as two hex digits
    | Address    // buff[pc + 2] then buff[pc + 1], two hex digits each

  datatype Entry = Entry(text: string, operand: Operand, bytesUsed: nat)

  /** One hex digit of an opcode: the row or the column of the table. */
  type Nibble = x: int | 0 <= x < 16

  function OperandBytes(o: Operand): nat
  {
    match o
    case Implied => 0
    case Immediate => 1
    case Address => 2
  }

  /** The table, entry for entry as written (0x76 is "MOV    M,M", 0x77 is "HLT"), looked
      up by the high hex digit of the opcode and then the low one. Every entry's byte count
      is one plus the operand bytes it prints. */
  function Table(op: u8): (e: Entry)
    ensures e.bytesUsed == 1 + OperandBytes(e.operand)
  {
    var high: Nibble, low: Nibble := op / 16, op % 16;
    match high
    case 0 => Row0(low)
    case 1 => Row1(low)
    case 2 => Row2(low)
    case 3 => Row3(low)
    case 4 => Row4(low)
    case 5 => Row5(low)
    case 6 => Row6(low)
    case 7 => Row7(low)
    case 8 => Row8(low)
    case 9 => Row9(low)
    case 10 => RowA(low)
    case 11 => RowB(low)
    case 12 => RowC(low)
    case 13 => RowD(low)
    case 14 => RowE(low)
    case 15 => RowF(low)
  }

  function Row0(low: Nibble): (e: Entry)
    ensures e.bytesUsed == 1 + OperandBytes(e.operand)
  {
    match low
    case 0 => Entry("NOP", Implied, 1)
    case 1 => Entry("LXI    B,#$", Address, 3)
    case 2 => Entry("STAX   B", Implied, 1)
    case 3 => Entry("INX    B", Implied, 1)
    case 4 => Entry("INR    B", Implied, 1)
    case 5 => Entry("DCR    B", Implied, 1)
    case 6 => Entry("MVI    B,#$", Immediate, 2)
    case 7 => Entry("RLC", Implied, 1)
    case 8 => Entry("NOP", Implied, 1)
    case 9 => Entry("DAD    B", Implied, 1)
    case 10 => Entry("LDAX   B", Implied, 1)
    case 11 => Entry("DCX    B", Implied, 1)
    case 12 => Entry("INR    C", Implied, 1)
    case 13 => Entry("DCR    C", Implied, 1)
    case 14 => Entry("MVI    C,#$", Immediate, 2)
    case 15 => Entry("RRC", Implied, 1)
  }

  function Row1(low: Nibble): (e: Entry)
    ensures e.bytesUsed == 1 + OperandBytes(e.operand)
  {
    match low
    case 0 => Entry("NOP", Implied, 1)
    case 1 => Entry("LXI    D,#$", Address, 3)
    case 2 => Entry("STAX   D", Implied, 1)
    case 3 => Entry("INX    D", Implied, 1)
    case 4 => Entry("INR    D", Implied, 1)
    case 5 => Entry("DCR    D", Implied, 1)
    case 6 => Entry("MVI    D,#$", Immediate, 2)
    case 7 => Entry("RAL", Implied, 1)
    case 8 => Entry("NOP", Implied, 1)
    case 9 => Entry("DAD    D", Implied, 1)
    case 10 => Entry("LDAX   D", Implied, 1)
    case 11 => Entry("DCX    D", Implied, 1)
    case 12 => Entry("INR    E", Implied, 1)
    case 13 => Entry("DCR    E", Implied, 1)
    case 14 => Entry("MVI    E,#$", Immediate, 2)
    case 15 => Entry("RAR", Implied, 1)
  }

  function Row2(low: Nibble): (e: Entry)
    ensures e.bytesUsed == 1 + OperandBytes(e.operand)
  {
    match low
    case 0 => Entry("RIM", Implied, 1)
    case 1 => Entry("LXI    H,#$", Address, 3)
    case 2 => Entry("SHLD   $", Address, 3)
    case 3 => Entry("INX    H", Implied, 1)
    case 4 => Entry("INR    H", Implied, 1)
    case 5 => Entry("DCR    H", Implied, 1)
    case 6 => Entry("MVI    H,#$", Immediate, 2)
    case 7 => Entry("DAA", Implied, 1)
    case 8 => Entry("NOP", Implied, 1)
    case 9 => Entry("DAD    H", Implied, 1)
    case 10 => Entry("LHLD   $", Address, 3)
    case 11 => Entry("DCX    H", Implied, 1)
    case 12 => Entry("INR    L", Implied, 1)
    case 13 => Entry("DCR    L", Implied, 1)
    case 14 => Entry("MVI    L,#$", Immediate, 2)
    case 15 => Entry("CMA", Implied, 1)
  }

  function Row3(low: Nibble): (e: Entry)
    ensures e.bytesUsed == 1 + OperandBytes(e.operand)
  {
    match low
    case 0 => Entry("SIM", Implied, 1)
    case 1 => Entry("LXI    SP,#$", Address, 3)
    case 2 => Entry("STA    $", Address, 3)
    case 3 => Entry("INX    SP", Implied, 1)
    case 4 => Entry("INR    M", Implied, 1)
    case 5 => Entry("DCR    M", Implied, 1)
    case 6 => Entry("MVI    M,#$", Immediate, 2)
    case 7 => Entry("STC", Implied, 1)
    case 8 => Entry("NOP", Implied, 1)
    case 9 => Entry("DAD    SP", Implied, 1)
    case 10 => Entry("LDA    $", Address, 3)
    case 11 => Entry("DCX    SP", Implied, 1)
    case 12 => Entry("INR    A", Implied, 1)
    case 13 => Entry("DCR    A", Implied, 1)
    case 14 => Entry("MVI    A,#$", Immediate, 2)
    case 15 => Entry("CMC", Implied, 1)
  }

  function Row4(low: Nibble): (e: Entry)
    ensures e.bytesUsed == 1 + OperandBytes(e.operand)
  {
    match low
    case 0 => Entry("MOV    B,B", Implied, 1)
    case 1 => Entry("MOV    B,C", Implied, 1)
    case 2 => Entry("MOV    B,D", Implied, 1)
    case 3 => Entry("MOV    B,E", Implied, 1)
    case 4 => Entry("MOV    B,H", Implied, 1)
    case 5 => Entry("MOV    B,L", Implied, 1)
    case 6 => Entry("MOV    B,M", Implied, 1)
    case 7 => Entry("MOV    B,A", Implied, 1)
    case 8 => Entry("MOV    C,B", Implied, 1)
    case 9 => Entry("MOV    C,C", Implied, 1)
    case 10 => Entry("MOV    C,D", Implied, 1)
    case 11 => Entry("MOV    C,E", Implied, 1)
    case 12 => Entry("MOV    C,H", Implied, 1)
    case 13 => Entry("MOV    C,L", Implied, 1)
    case 14 => Entry("MOV    C,M", Implied, 1)
    case 15 => Entry("MOV    C,A", Implied, 1)
  }

  function Row5(low: Nibble): (e: Entry)
    ensures e.bytesUsed == 1 + OperandBytes(e.operand)
  {
    match low
    case 0 => Entry("MOV    D,B", Implied, 1)
    case 1 => Entry("MOV    D,C", Implied, 1)
    case 2 => Entry("MOV    D,D", Implied, 1)
    case 3 => Entry("MOV    D,E", Implied, 1)
    case 4 => Entry("MOV    D,H", Implied, 1)
    case 5 => Entry("MOV    D,L", Implied, 1)
    case 6 => Entry("MOV    D,M", Implied, 1)
    case 7 => Entry("MOV    D,A", Implied, 1)
    case 8 => Entry("MOV    E,B", Implied, 1)
    case 9 => Entry("MOV    E,C", Implied, 1)
    case 10 => Entry("MOV    E,D", Implied, 1)
    case 11 => Entry("MOV    E,E", Implied, 1)
    case 12 => Entry("MOV    E,H", Implied, 1)
    case 13 => Entry("MOV    E,L", Implied, 1)
    case 14 => Entry("MOV    E,M", Implied, 1)
    case 15 => Entry("MOV    E,A", Implied, 1)
  }

  function Row6(low: Nibble): (e: Entry)
    ensures e.bytesUsed == 1 + OperandBytes(e.operand)
  {
    match low
    case 0 => Entry("MOV    H,B", Implied, 1)
    case 1 => Entry("MOV    H,C", Implied, 1)
    case 2 => Entry("MOV    H,D", Implied, 1)
    case 3 => Entry("MOV    H,E", Implied, 1)
    case 4 => Entry("MOV    H,H", Implied, 1)
    case 5 => Entry("MOV    H,L", Implied, 1)
    case 6 => Entry("MOV    H,M", Implied, 1)
    case 7 => Entry("MOV    H,A", Implied, 1)
    case 8 => Entry("MOV    L,B", Implied, 1)
    case 9 => Entry("MOV    L,C", Implied, 1)
    case 10 => Entry("MOV    L,D", Implied, 1)
    case 11 => Entry("MOV    L,E", Implied, 1)
    case 12 => Entry("MOV    L,H", Implied, 1)
    case 13 => Entry("MOV    L,L", Implied, 1)
    case 14 => Entry("MOV    L,M", Implied, 1)
    case 15 => Entry("MOV    L,A", Implied, 1)
  }

  function Row7(low: Nibble): (e: Entry)
    ensures e.bytesUsed == 1 + OperandBytes(e.operand)
  {
    match low
    case 0 => Entry("MOV    M,B", Implied, 1)
    case 1 => Entry("MOV    M,C", Implied, 1)
    case 2 => Entry("MOV    M,D", Implied, 1)
    case 3 => Entry("MOV    M,E", Implied, 1)
    case 4 => Entry("MOV    M,H", Implied, 1)
    case 5 => Entry("MOV    M,L", Implied, 1)
    case 6 => Entry("MOV    M,M", Implied, 1)
    case 7 => Entry("HLT", Implied, 1)
    case 8 => Entry("MOV    A,B", Implied, 1)
    case 9 => Entry("MOV    A,C", Implied, 1)
    case 10 => Entry("MOV    A,D", Implied, 1)
    case 11 => Entry("MOV    A,E", Implied, 1)
    case 12 => Entry("MOV    A,H", Implied, 1)
    case 13 => Entry("MOV    A,L", Implied, 1)
    case 14 => Entry("MOV    A,M", Implied, 1)
    case 15 => Entry("MOV    A,A", Implied, 1)
  }

  function Row8(low: Nibble): (e: Entry)
    ensures e.bytesUsed == 1 + OperandBytes(e.operand)
  {
    match low
    case 0 => Entry("ADD    B", Implied, 1)
    case 1 => Entry("ADD    C", Implied, 1)
    case 2 => Entry("ADD    D", Implied, 1)
    case 3 => Entry("ADD    E", Implied, 1)
    case 4 => Entry("ADD    H", Implied, 1)
    case 5 => Entry("ADD    L", Implied, 1)
    case 6 => Entry("ADD    M", Implied, 1)
    case 7 => Entry("ADD    A", Implied, 1)
    case 8 => Entry("ADC    B", Implied, 1)
    case 9 => Entry("ADC    C", Implied, 1)
    case 10 => Entry("ADC    D", Implied, 1)
    case 11 => Entry("ADC    E", Implied, 1)
    case 12 => Entry("ADC    H", Implied, 1)
    case 13 => Entry("ADC    L", Implied, 1)
    case 14 => Entry("ADC    M", Implied, 1)
    case 15 => Entry("ADC    A", Implied, 1)
  }

  function Row9(low: Nibble): (e: Entry)
    ensures e.bytesUsed == 1 + OperandBytes(e.operand)
  {
    match low
    case 0 => Entry("SUB    B", Implied, 1)
    case 1 => Entry("SUB    C", Implied, 1)
    case 2 => Entry("SUB    D", Implied, 1)
    case 3 => Entry("SUB    E", Implied, 1)
    case 4 => Entry("SUB    H", Implied, 1)
    case 5 => Entry("SUB    L", Implied, 1)
    case 6 => Entry("SUB    M", Implied, 1)
    case 7 => Entry("SUB    A", Implied, 1)
    case 8 => Entry("SBB    B", Implied, 1)
    case 9 => Entry("SBB    C", Implied, 1)
    case 10 => Entry("SBB    D", Implied, 1)
    case 11 => Entry("SBB    E", Implied, 1)
    case 12 => Entry("SBB    H", Implied, 1)
    case 13 => Entry("SBB    L", Implied, 1)
    case 14 => Entry("SBB    M", Implied, 1)
    case 15 => Entry("SBB    A", Implied, 1)
  }

  function RowA(low: Nibble): (e: Entry)
    ensures e.bytesUsed == 1 + OperandBytes(e.operand)
  {
    match low
    case 0 => Entry("ANA    B", Implied, 1)
    case 1 => Entry("ANA    C", Implied, 1)
    case 2 => Entry("ANA    D", Implied, 1)
    case 3 => Entry("ANA    E", Implied, 1)
    case 4 => Entry("ANA    H", Implied, 1)
    case 5 => Entry("ANA    L", Implied, 1)
    case 6 => Entry("ANA    M", Implied, 1)
    case 7 => Entry("ANA    A", Implied, 1)
    case 8 => Entry("XRA    B", Implied, 1)
    case 9 => Entry("XRA    C", Implied, 1)
    case 10 => Entry("XRA    D", Implied, 1)
    case 11 => Entry("XRA    E", Implied, 1)
    case 12 => Entry("XRA    H", Implied, 1)
    case 13 => Entry("XRA    L", Implied, 1)
    case 14 => Entry("XRA    M", Implied, 1)
    case 15 => Entry("XRA    A", Implied, 1)
  }

  function RowB(low: Nibble): (e: Entry)
    ensures e.bytesUsed == 1 + OperandBytes(e.operand)
  {
    match low
    case 0 => Entry("ORA    B", Implied, 1)
    case 1 => Entry("ORA    C", Implied, 1)
    case 2 => Entry("ORA    D", Implied, 1)
    case 3 => Entry("ORA    E", Implied, 1)
    case 4 => Entry("ORA    H", Implied, 1)
    case 5 => Entry("ORA    L", Implied, 1)
    case 6 => Entry("ORA    M", Implied, 1)
    case 7 => Entry("ORA    A", Implied, 1)
    case 8 => Entry("CMP    B", Implied, 1)
    case 9 => Entry("CMP    C", Implied, 1)
    case 10 => Entry("CMP    D", Implied, 1)
    case 11 => Entry("CMP    E", Implied, 1)
    case 12 => Entry("CMP    H", Implied, 1)
    case 13 => Entry("CMP    L", Implied, 1)
    case 14 => Entry("CMP    M", Implied, 1)
    case 15 => Entry("CMP    A", Implied, 1)
  }

  function RowC(low: Nibble): (e: Entry)
    ensures e.bytesUsed == 1 + OperandBytes(e.operand)
  {
    match low
    case 0 => Entry("RNZ", Implied, 1)
    case 1 => Entry("POP    B", Implied, 1)
    case 2 => Entry("JNZ    $", Address, 3)
    case 3 => Entry("JMP    $", Address, 3)
    case 4 => Entry("CNZ    $", Address, 3)
    case 5 => Entry("PUSH   B", Implied, 1)
    case 6 => Entry("ADI    #$", Immediate, 2)
    case 7 => Entry("RST    0", Implied, 1)
    case 8 => Entry("RZ", Implied, 1)
    case 9 => Entry("RET", Implied, 1)
    case 10 => Entry("JZ     $", Address, 3)
    case 11 => Entry("NOP", Implied, 1)
    case 12 => Entry("CZ     $", Address, 3)
    case 13 => Entry("CALL   $", Address, 3)
    case 14 => Entry("ACI    #$", Immediate, 2)
    case 15 => Entry("RST    1", Implied, 1)
  }

  function RowD(low: Nibble): (e: Entry)
    ensures e.bytesUsed == 1 + OperandBytes(e.operand)
  {
    match low
    case 0 => Entry("RNC", Implied, 1)
    case 1 => Entry("POP    D", Implied, 1)
    case 2 => Entry("JNC    $", Address, 3)
    case 3 => Entry("OUT    #$", Immediate, 2)
    case 4 => Entry("CNC    $", Address, 3)
    case 5 => Entry("PUSH   D", Implied, 1)
    case 6 => Entry("SUI    #$", Immediate, 2)
    case 7 => Entry("RST    2", Implied, 1)
    case 8 => Entry("RC", Implied, 1)
    case 9 => Entry("NOP", Implied, 1)
    case 10 => Entry("JC     $", Address, 3)
    case 11 => Entry("IN     #$", Immediate, 2)
    case 12 => Entry("CC     $", Address, 3)
    case 13 => Entry("NOP", Implied, 1)
    case 14 => Entry("SBI    #$", Immediate, 2)
    case 15 => Entry("RST    3", Implied, 1)
  }

  function RowE(low: Nibble): (e: Entry)
    ensures e.bytesUsed == 1 + OperandBytes(e.operand)
  {
    match low
    case 0 => Entry("RPO", Implied, 1)
    case 1 => Entry("POP    H", Implied, 1)
    case 2 => Entry("JPO    $", Address, 3)
    case 3 => Entry("XTHL", Implied, 1)
    case 4 => Entry("CPO    $", Address, 3)
    case 5 => Entry("PUSH   H", Implied, 1)
    case 6 => Entry("ANI    #$", Immediate, 2)
    case 7 => Entry("RST    4", Implied, 1)
    case 8 => Entry("RPE", Implied, 1)
    case 9 => Entry("PCHL", Implied, 1)
    case 10 => Entry("JPE    $", Address, 3)
    case 11 => Entry("XCHG", Implied, 1)
    case 12 => Entry("CPE    $", Address, 3)
    case 13 => Entry("NOP", Implied, 1)
    case 14 => Entry("XRI    #$", Immediate, 2)
    case 15 => Entry("RST    5", Implied, 1)
  }

  function RowF(low: Nibble): (e: Entry)
    ensures e.bytesUsed == 1 + OperandBytes(e.operand)
  {
    match low
    case 0 => Entry("RP", Implied, 1)
    case 1 => Entry("POP    PSW", Implied, 1)
    case 2 => Entry("JP     $", Address, 3)
    case 3 => Entry("DI", Implied, 1)
    case 4 => Entry("CP     $", Address, 3)
    case 5 => Entry("PUSH   PSW", Implied, 1)
    case 6 => Entry("ORI    #$", Immediate, 2)
    case 7 => Entry("RST    6", Implied, 1)
    case 8 => Entry("RIM", Implied, 1)
    case 9 => Entry("SPHL", Implied, 1)
    case 10 => Entry("JM     $", Address, 3)
    case 11 => Entry("EI", Implied, 1)
    case 12 => Entry("CM     $", Address, 3)
    case 13 => Entry("NOP", Implied, 1)
    case 14 => Entry("CPI    #$", Immediate, 2)
    case 15 => Entry("RST    7", Implied, 1)
  }

  /** The `bytes_used` column. */
  function BytesUsed(op: u8): (n: nat)
    ensures 1 <= n <= 3
    ensures n == 1 + OperandBytes(Table(op).operand)
  {
    Table(op).bytesUsed
  }

  /** LXI, SHLD, LHLD, STA, LDA, the eight Jcc, JMP, CALL and the eight Ccc. */
  const ThreeByteOps: set<u8> := {0x01, 0x11, 0x21, 0x31, 0x22, 0x2a, 0x32, 0x3a, 0xc2, 0xc3, 0xca, 0xd2, 0xda, 0xe2, 0xea, 0xf2, 0xfa, 0xcd, 0xc4, 0xcc, 0xd4, 0xdc, 0xe4, 0xec, 0xf4, 0xfc}

  /** The eight MVI, the eight immediate ALU operations, OUT and IN. */
  const TwoByteOps: set<u8> := {0x06, 0x0e, 0x16, 0x1e, 0x26, 0x2e, 0x36, 0x3e, 0xc6, 0xce, 0xd6, 0xde, 0xe6, 0xee, 0xf6, 0xfe, 0xd3, 0xdb}

  lemma ThreeByteOpsUseThree(op: u8)
    requires op in ThreeByteOps
    ensures BytesUsed(op) == 3
  {
  }

  lemma OnlyThreeByteOpsUseThree(op: u8)
    requires BytesUsed(op) == 3
    ensures op in ThreeByteOps
  {
  }

  lemma TwoByteOpsUseTwo(op: u8)
    requires op in TwoByteOps
    ensures BytesUsed(op) == 2
  {
  }

  lemma OnlyTwoByteOpsUseTwo(op: u8)
    requires BytesUsed(op) == 2
    ensures op in TwoByteOps
  {
  }

  /** Every opcode outside those two sets is one byte long. */
  lemma OtherOpsUseOne(op: u8)
    requires op !in ThreeByteOps && op !in TwoByteOps
    ensures BytesUsed(op) == 1
  {
  }

  /** The MOV, ADD, ADC, SUB, SBB, ANA, XRA, ORA and CMP block is all one-byte. */
  lemma RegisterBlockUsesOne(op: u8)
    requires 0x40 <= op <= 0xBF
    ensures BytesUsed(op) == 1
  {
  }

  /** Two entries that differ from the Intel mnemonics, kept as written. */
  lemma TableAsWritten()
    ensures Table(0x76).text == "MOV    M,M" && Table(0x77).text == "HLT"
    ensures Table(0x20).text == "RIM" && Table(0xf8).text == "RIM"
  {
  }

  const HexDigits: string := "0123456789abcdef"

  /** Rust's zero-padded hex format: lowercase hex, zero-padded to at least `width` digits. */
  function Hex(n: nat, width: nat): (s: string)
    ensures |s| >= 1
    ensures forall i | 0 <= i < |s| :: s[i] in HexDigits
    decreases n, width
  {
    (if n < 16 && width <= 1 then "" else Hex(n / 16, if width == 0 then 0 else width - 1))
      + [HexDigits[n % 16]]
  }

  function DigitValue(ch: char): nat
  {
    if '0' <= ch <= '9' then ch as int - '0' as int
    else if 'a' <= ch <= 'f' then ch as int - 'a' as int + 10
    else 0
  }

  /** Reads a string of hex digits back as a number. */
  function HexValue(s: string): nat
  {
    if s == [] then 0 else HexValue(s[..|s| - 1]) * 16 + DigitValue(s[|s| - 1])
  }

  lemma DigitValueOfHexDigit(k: nat)
    requires k < 16
    ensures DigitValue(HexDigits[k]) == k
  {
  }

  function Pow16(k: nat): nat
  {
    if k == 0 then 1 else 16 * Pow16(k - 1)
  }

  lemma {:induction false} HexRoundTrip(n: nat, width: nat)
    ensures HexValue(Hex(n, width)) == n
    decreases n, width
  {
    HexValueLastDigit(n, width);
    if !(n < 16 && width <= 1) {
      HexRoundTrip(n / 16, if width == 0 then 0 else width - 1);
    }
  }

  /** The last digit of `Hex(n, width)` contributes `n % 16`, the rest sixteen times its value. */
  lemma HexValueLastDigit(n: nat, width: nat)
    ensures HexValue(Hex(n, width))
      == (if n < 16 && width <= 1 then 0 else HexValue(Hex(n / 16, if width == 0 then 0 else width - 1))) * 16
         + n % 16
  {
    var last := HexDigits[n % 16];
    DigitValueOfHexDigit(n % 16);
    var prefix := if n < 16 && width <= 1 then "" else Hex(n / 16, if width == 0 then 0 else width - 1);
    assert Hex(n, width) == prefix + [last];
    HexValueSnoc(prefix, last);
  }

  /** Appending a digit multiplies the value so far by 16 and adds the digit. */
  lemma HexValueSnoc(prefix: string, ch: char)
    ensures HexValue(prefix + [ch]) == HexValue(prefix) * 16 + DigitValue(ch)
  {
    assert (prefix + [ch])[..|prefix + [ch]| - 1] == prefix;
  }

  lemma {:induction false} HexWidth(n: nat, width: nat)
    requires width >= 1 && n < Pow16(width)
    ensures |Hex(n, width)| == width
    decreases width
  {
    if width > 1 {
      HexWidth(n / 16, width - 1);
    }
  }

  /** Appending two digits shifts the value read so far by two hex places. */
  lemma HexValueAppendTwo(x: string, y: string)
    requires |y| == 2
    ensures HexValue(x + y) == HexValue(x) * 0x100 + HexValue(y)
  {
    assert x + y == (x + [y[0]]) + [y[1]];
    assert y == [] + [y[0]] + [y[1]];
    HexValueSnoc(x + [y[0]], y[1]);
    HexValueSnoc(x, y[0]);
    HexValueSnoc([] + [y[0]], y[1]);
    HexValueSnoc([], y[0]);
  }

  /** The operand bytes of the instruction at `pc`, as the table's format prints them. */
  function OperandText(buff: seq<u8>, pc: nat): (t: string)
    requires pc < |buff| && pc + BytesUsed(buff[pc]) <= |buff|
    ensures |t| == 2 * OperandBytes(Table(buff[pc]).operand)
    ensures forall i | 0 <= i < |t| :: t[i] in HexDigits
  {
    match Table(buff[pc]).operand
    case Implied => ""
    case Immediate =>
      HexWidth(buff[pc + 1], 2);
      Hex(buff[pc + 1], 2)
    case Address =>
      HexWidth(buff[pc + 2], 2);
      HexWidth(buff[pc + 1], 2);
      Hex(buff[pc + 2], 2) + Hex(buff[pc + 1], 2)
  }

  /** `disassemble_8080_op`: the address as at least four hex digits and a space, the
      entry's text, then its operand bytes; and the instruction length. Reading past the
      end of the buffer panics in the source. */
  function Disassemble8080Op(buff: seq<u8>, pc: nat): (r: (string, nat))
    requires pc < |buff| && pc + BytesUsed(buff[pc]) <= |buff|
    ensures 1 <= r.1 <= 3 && r.1 == BytesUsed(buff[pc])
    ensures pc <= 0xFFFF ==>
      && |r.0| >= 5
      && (forall i | 0 <= i < 4 :: r.0[i] in HexDigits)
      && HexValue(r.0[..4]) == pc
      && r.0[4] == ' '
  {
    var entry := Table(buff[pc]);
    var address := Hex(pc, 4);
    var result := address + " " + entry.text + OperandText(buff, pc);
    if pc <= 0xFFFF then
      HexWidth(pc, 4);
      HexRoundTrip(pc, 4);
      assert result[..4] == address;
      (result, entry.bytesUsed)
    else
      (result, entry.bytesUsed)
  }

  /** The output depends only on the bytes of the instruction itself. */
  lemma DisassembleReadsOnlyInstruction(buff: seq<u8>, other: seq<u8>, pc: nat)
    requires pc < |buff| && pc + BytesUsed(buff[pc]) <= |buff|
    requires pc + BytesUsed(buff[pc]) <= |other|
    requires buff[pc..pc + BytesUsed(buff[pc])] == other[pc..pc + BytesUsed(buff[pc])]
    ensures other[pc] == buff[pc]
    ensures Disassemble8080Op(other, pc) == Disassemble8080Op(buff, pc)
  {
    var n := BytesUsed(buff[pc]);
    assert forall i | pc <= i < pc + n :: other[i] == buff[i] by {
      forall i | pc <= i < pc + n ensures other[i] == buff[i] {
        assert other[i] == other[pc..pc + n][i - pc];
      }
    }
  }

  /** A 16-bit address operand is printed high byte first, so the printed number is the
      little-endian word buff[pc + 1] + 0x100 * buff[pc + 2]. */
  lemma AddressOperandIsLittleEndian(buff: seq<u8>, pc: nat)
    requires pc < |buff| && pc + BytesUsed(buff[pc]) <= |buff|
    requires Table(buff[pc]).operand == Address
    ensures var text := Disassemble8080Op(buff, pc).0;
      |text| >= 4 && HexValue(text[|text| - 4..]) == buff[pc + 1] as int + 0x100 * buff[pc + 2] as int
  {
    assert pc + 2 < |buff|;
    var hi, lo := Hex(buff[pc + 2], 2), Hex(buff[pc + 1], 2);
    assert OperandText(buff, pc) == hi + lo;
    var head := Hex(pc, 4) + " " + Table(buff[pc]).text;
    assert Disassemble8080Op(buff, pc).0 == head + (hi + lo);
    TwoDigitWord(buff[pc + 2], buff[pc + 1]);
    var text := head + (hi + lo);
    assert text[|text| - 4..] == hi + lo;
  }

  /** Two bytes printed as two two-digit fields read back as one four-digit word. */
  lemma TwoDigitWord(upper: u8, lower: u8)
    ensures |Hex(upper, 2) + Hex(lower, 2)| == 4
    ensures HexValue(Hex(upper, 2) + Hex(lower, 2)) == upper as int * 0x100 + lower as int
  {
    HexWidth(upper, 2);
    HexWidth(lower, 2);
    HexValueAppendTwo(Hex(upper, 2), Hex(lower, 2));
    HexRoundTrip(upper, 2);
    HexRoundTrip(lower, 2);
  }
}
