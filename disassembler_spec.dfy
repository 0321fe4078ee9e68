/**
 * The disassembler as functions of its state: `dis` on one word, the
 * label bookkeeping it does on the way (`next*Name` and the three label
 * maps), the linear pass of `disassemble`, the reclassification done by
 * `enhance`, and the text `getDisassembleResultAsString` builds.
 *
 * Memory bytes are the Java `byte` values; `b & 0xFF` is `b % 256`, which
 * Dafny's Euclidean remainder gives for negative bytes too.
 */
module DisassemblerSpec {
  import opened Wrappers
  import opened JavaString

  /** `DasmLineType`. */
  datatype LineType = Normal | CodeJump | CodeConditionalSkip | CodeCall | CodeReturn | CodeLoadI | Data

  /**
   * `DasmLine`. `data` and `data1` start out `null` in the Java code and are
   * only read on a data record, which always sets them first; here they
   * start out empty.
   */
  datatype DasmLine = DasmLine(asm: Asm, data: string, data1: string, bin: int, labelName: string, labelName1: string,
                               addr: nat, addr1: nat, comment: Option<string>, kind: LineType)

  /** The bookkeeping fields `dis` updates: the three counters, the three label maps and `lastRet`. */
  datatype Labels = Labels(srCounter: nat, lbCounter: nat, dtCounter: nat,
                           subroutines: map<int, string>, jumpLabels: map<int, string>, dataLabels: map<int, string>,
                           lastRet: int)

  /** What `disassemble` resets before its first pass. */
  const Fresh: Labels := Labels(0, 0, 0, map[], map[], map[], -1)

  const RetOpcode: int := 0x00EE

  // ---------------------------------------------------------------------------
  // Formatting

  /** A hexadecimal digit as `Formatter` writes it: `0-9`, then `a-f`, or `A-F` for `%X`. */
  function HexDigit(d: nat, upper: bool): char
    requires d < 16
  {
    if d < 10 then ('0' as int + d) as char
    else if upper then ('A' as int + d - 10) as char
    else ('a' as int + d - 10) as char
  }

  /** `%0wx` (`%0wX` when `upper`) of a value that is not negative: at least w digits, more when the value needs them. */
  function Hex(v: nat, w: nat, upper: bool): (s: string)
    ensures |s| >= 1 && |s| >= w
    decreases v, w
  {
    if v < 16 && w <= 1 then [HexDigit(v, upper)]
    else Hex(v / 16, if w > 0 then w - 1 else 0, upper) + [HexDigit(v % 16, upper)]
  }

  /** `V%01X`: a register by its number. */
  function Reg(x: nat): string
  {
    "V" + Hex(x, 1, true)
  }

  /** `DB #%02X`: one byte as data. */
  function DbText(b: int): string
  {
    "DB #" + Hex(b % 0x100, 2, true)
  }

  function Names(prefix: string, n: nat): string
  {
    prefix + Decimal(n)
  }

  // ---------------------------------------------------------------------------
  // One word

  /** An operand of an instruction: a register, a number written `#%0wx`, or a fixed word or label. */
  datatype Operand = Vx(x: nat) | Num(v: nat, width: nat) | Fixed(w: string)

  /** A word whose text names no label: every instruction but `JP nnn`, `CALL nnn` and `LD I, nnn`. */
  type Unlabelled = op: nat | op / 0x1000 !in {0x1, 0x2, 0xA}

  /**
   * What `dis` formats: a mnemonic with operands separated by `, `, a shift
   * `m Vx {, Vy}`, or no text; `Formatted(op)` stands for the form of a word
   * that names no label, which its fields alone decide (see `Format`).
   */
  datatype Asm = Op(mnemonic: string, operands: seq<Operand>) | Shift(mnemonic: string, x: nat, y: nat) | NoText
               | Formatted(op: Unlabelled)

  function OperandText(o: Operand): string
  {
    match o
    case Vx(x) => Reg(x)
    case Num(v, w) => "#" + Hex(v, w, false)
    case Fixed(w) => w
  }

  function OperandsText(os: seq<Operand>): string
    requires |os| > 0
  {
    if |os| == 1 then OperandText(os[0]) else OperandText(os[0]) + ", " + OperandsText(os[1..])
  }

  /** The text `String.format` makes of a form. */
  function Text(a: Asm): string
    decreases if a.Formatted? then 1 else 0
  {
    match a
    case Op(m, os) => if os == [] then m else m + " " + OperandsText(os)
    case Shift(m, x, y) => m + " " + Reg(x) + " {, " + Reg(y) + "}"
    case NoText => ""
    case Formatted(op) => Text(Format(op))
  }

  /** The form of a word, its record type and the bookkeeping after it. */
  datatype Decoded = Decoded(asm: Asm, kind: LineType, labels: Labels)

  /** Register x of a word (bits 8-11), register y (bits 4-7), the low nibble, byte and address. */
  function X(op: nat): nat { (op / 0x100) % 0x10 }
  function Y(op: nat): nat { (op / 0x10) % 0x10 }
  function N(op: nat): nat { op % 0x10 }
  function KK(op: nat): nat { op % 0x100 }
  function NNN(op: nat): nat { op % 0x1000 }

  /** `0nnn`: the fixed system instructions, `SCD n` for 00Cn, `SYS nnn` for the rest. */
  function SystemForm(op: nat): Asm
  {
    if op == 0x00E0 then Op("CLS", [])
    else if op == RetOpcode then Op("RET", [])
    else if op == 0x00FB then Op("SCR", [])
    else if op == 0x00FC then Op("SCL", [])
    else if op == 0x00FD then Op("EXT", [])
    else if op == 0x00FE then Op("LOW", [])
    else if op == 0x00FF then Op("HIGH", [])
    else if Y(op) == 0xC then Op("SCD", [Num(N(op), 1)])
    else Op("SYS", [Num(NNN(op), 3)])
  }

  /** `JP nnn`: the address's jump label, or the next `LABELn` recorded for it. */
  function DisJump(op: nat, s: Labels): Decoded
  {
    var a := NNN(op);
    if a in s.jumpLabels then Decoded(Op("JP", [Fixed(s.jumpLabels[a])]), CodeJump, s)
    else
      var name := Names("LABEL", s.lbCounter);
      Decoded(Op("JP", [Fixed(name)]), CodeJump, s.(lbCounter := s.lbCounter + 1, jumpLabels := s.jumpLabels[a := name]))
  }

  /** `CALL nnn`: the address's subroutine name, or the next `SUBn` recorded for it. */
  function DisCall(op: nat, s: Labels): Decoded
  {
    var a := NNN(op);
    if a in s.subroutines then Decoded(Op("CALL", [Fixed(s.subroutines[a])]), CodeCall, s)
    else
      var name := Names("SUB", s.srCounter);
      Decoded(Op("CALL", [Fixed(name)]), CodeCall, s.(srCounter := s.srCounter + 1, subroutines := s.subroutines[a := name]))
  }

  /** `LD I, nnn`: always the next `DATAn`, which replaces whatever name the address had. */
  function DisLoadI(op: nat, s: Labels): Decoded
  {
    var name := Names("DATA", s.dtCounter);
    Decoded(Op("LD", [Fixed("I"), Fixed(name)]), CodeLoadI, s.(dtCounter := s.dtCounter + 1, dataLabels := s.dataLabels[NNN(op) := name]))
  }

  /** `8xyn`: the register-to-register forms; an unknown n gives no text. */
  function DisArith(op: nat): Asm
  {
    var pair := [Vx(X(op)), Vx(Y(op))];
    var n := N(op);
    if n == 0 then Op("LD", pair)
    else if n == 1 then Op("OR", pair)
    else if n == 2 then Op("AND", pair)
    else if n == 3 then Op("XOR", pair)
    else if n == 4 then Op("ADD", pair)
    else if n == 5 then Op("SUB", pair)
    else if n == 6 then Shift("SHR", X(op), Y(op))
    else if n == 7 then Op("SUBN", pair)
    else if n == 0xE then Shift("SHL", X(op), Y(op))
    else NoText
  }

  /** `Ex9E` and `ExA1`; any other low byte gives no text. */
  function DisKey(op: nat): Asm
  {
    if KK(op) == 0x9E then Op("SKP", [Vx(X(op))])
    else if KK(op) == 0xA1 then Op("SKNP", [Vx(X(op))])
    else NoText
  }

  /** `Fxkk`: timers, keys, `I`, fonts, BCD, register stores and loads; any other low byte gives no text. */
  function DisMisc(op: nat): Asm
  {
    var r := Vx(X(op));
    var k := KK(op);
    if k == 0x07 then Op("LD", [r, Fixed("DT")])
    else if k == 0x0A then Op("LD", [r, Fixed("K")])
    else if k == 0x15 then Op("LD", [Fixed("DT"), r])
    else if k == 0x18 then Op("LD", [Fixed("ST"), r])
    else if k == 0x1E then Op("ADD", [Fixed("I"), r])
    else if k == 0x29 then Op("LD", [Fixed("F"), r])
    else if k == 0x30 then Op("LD", [Fixed("HF"), r])
    else if k == 0x33 then Op("LD", [Fixed("B"), r])
    else if k == 0x55 then Op("LD", [Fixed("[I]"), r])
    else if k == 0x65 then Op("LD", [r, Fixed("[I]")])
    else if k == 0x75 then Op("LD", [Fixed("R"), r])
    else if k == 0x85 then Op("LD", [r, Fixed("R")])
    else NoText
  }

  /** The form of a word that names no label: the `switch` of `dis` without its `JP`, `CALL` and `LD I` cases. */
  function Format(op: Unlabelled): (a: Asm)
    ensures !a.Formatted?
  {
    var top := op / 0x1000;
    if top == 0x0 then SystemForm(op)
    else if top == 0x3 then Op("SE", [Vx(X(op)), Num(KK(op), 2)])
    else if top == 0x4 then Op("SNE", [Vx(X(op)), Num(KK(op), 2)])
    else if top == 0x5 then Op("SE", [Vx(X(op)), Vx(Y(op))])
    else if top == 0x6 then Op("LD", [Vx(X(op)), Num(KK(op), 2)])
    else if top == 0x7 then Op("ADD", [Vx(X(op)), Num(KK(op), 2)])
    else if top == 0x8 then DisArith(op)
    else if top == 0x9 then Op("SNE", [Vx(X(op)), Vx(Y(op))])
    else if top == 0xB then Op("JP", [Fixed("V0"), Num(NNN(op), 3)])
    else if top == 0xC then Op("RND", [Vx(X(op)), Num(KK(op), 3)])
    else if top == 0xD then Op("DRW", [Vx(X(op)), Vx(Y(op)), Num(N(op), 1)])
    else if top == 0xE then DisKey(op)
    else DisMisc(op)
  }

  /** A form with `Formatted` spelled out; it has the same text. */
  function Form(a: Asm): (f: Asm)
    ensures !f.Formatted? && Text(f) == Text(a)
  {
    if a.Formatted? then Format(a.op) else a
  }

  /** The record type `dis` gives such a word: the return, the skips, `JP V0`, or an ordinary line. */
  function FormatKind(op: nat): LineType
  {
    var top := op / 0x1000;
    if op == RetOpcode then CodeReturn
    else if top in {0x3, 0x4, 0x5, 0x9} then CodeConditionalSkip
    else if top == 0xB then CodeJump
    else if top == 0xE && KK(op) in {0x9E, 0xA1} then CodeConditionalSkip
    else Normal
  }

  /** The `switch` of `dis` on the top nibble of a word at address `addr`; `RET` records its address as the last return. */
  function Decode(op: nat, addr: nat, s: Labels): Decoded
    requires op < 0x1_0000
  {
    var top := op / 0x1000;
    if top == 0x1 then DisJump(op, s)
    else if top == 0x2 then DisCall(op, s)
    else if top == 0xA then DisLoadI(op, s)
    else Decoded(Formatted(op), FormatKind(op), if op == RetOpcode then s.(lastRet := addr) else s)
  }

  /** The record `dis` returns for a decoded word. */
  function Record(op: int, addr: nat, d: Decoded): (l: DasmLine)
    ensures l.bin == op && l.addr == addr && l.addr1 == addr + 1 && l.asm == d.asm && l.kind == d.kind
    ensures l.labelName == "" && l.labelName1 == "" && l.comment.None?
  {
    DasmLine(d.asm, "", "", op, "", "", addr, addr + 1, None, d.kind)
  }

  // ---------------------------------------------------------------------------
  // The first pass

  /** The big-endian word at c. */
  function Word(mem: seq<int>, c: nat): (w: nat)
    requires c + 1 < |mem|
    ensures w < 0x1_0000
  {
    (mem[c] % 0x100) * 0x100 + mem[c + 1] % 0x100
  }

  /** The records so far, the bookkeeping, where the cursor stands, and whether `disassemble` ended in an exception. */
  datatype Outcome = Outcome(lines: seq<DasmLine>, labels: Labels, cursor: int, raised: bool)

  /**
   * The loop of `disassemble` from cursor c, appending one record per word
   * to `lines`; a word that starts before 0 or runs past the end raises.
   */
  function DisLoop(mem: seq<int>, c: int, lines: seq<DasmLine>, s: Labels): Outcome
    decreases |mem| - c
  {
    if c >= |mem| then Outcome(lines, s, c, false)
    else if c < 0 || c + 1 >= |mem| then Outcome(lines, s, c, true)
    else
      var d := Decode(Word(mem, c), c, s);
      DisLoop(mem, c + 2, lines + [Record(Word(mem, c), c, d)], d.labels)
  }

  // ---------------------------------------------------------------------------
  // The second pass

  /** `enhance` on one record. */
  function EnhanceLine(l: DasmLine, s: Labels): DasmLine
  {
    var l1 := if l.addr in s.subroutines then l.(labelName := s.subroutines[l.addr])
      else if l.addr in s.jumpLabels then l.(labelName := s.jumpLabels[l.addr])
      else l;
    var hi := DbText(l.bin / 0x100);
    var lo := DbText(l.bin);
    if l.addr <= s.lastRet then
      var l2 := if l.addr in s.dataLabels
        then l1.(kind := Data, labelName := s.dataLabels[l.addr], data := hi, data1 := lo, comment := Some("data?"))
        else l1;
      if l.addr1 in s.dataLabels
      then l2.(kind := Data, labelName1 := s.dataLabels[l.addr1], data := hi, data1 := lo, comment := Some("data?"))
      else l2
    else
      var l2 := l1.(comment := Some("data?"), kind := Data, data := hi, data1 := lo);
      var l3 := if l.addr in s.dataLabels then l2.(labelName := s.dataLabels[l.addr]) else l2;
      if l.addr1 in s.dataLabels then l3.(labelName1 := s.dataLabels[l.addr1]) else l3
  }

  function EnhanceAll(lines: seq<DasmLine>, s: Labels): (r: seq<DasmLine>)
    ensures |r| == |lines| && forall k :: 0 <= k < |lines| ==> r[k] == EnhanceLine(lines[k], s)
  {
    seq(|lines|, k requires 0 <= k < |lines| => EnhanceLine(lines[k], s))
  }

  /**
   * `disassemble`: the bookkeeping is reset, but the records of earlier
   * calls are kept; a missing input raises after the reset, and an
   * exception in the loop leaves the records appended so far without
   * `enhance`.
   */
  function Disassembly(lines: seq<DasmLine>, code: Option<seq<int>>, start: int): Outcome
  {
    if code.None? then Outcome(lines, Fresh, start, true)
    else
      var p := DisLoop(code.value, start, lines, Fresh);
      if p.raised then p else p.(lines := EnhanceAll(p.lines, p.labels))
  }

  // ---------------------------------------------------------------------------
  // Text

  /** `0x%03x: `, the address prefix. */
  function AddressText(a: nat, show: bool): string
  {
    if show then "0x" + Hex(a, 3, false) + ": " else ""
  }

  function LabelText(name: string, nl: string): string
  {
    if |name| > 0 then name + ":" + nl else ""
  }

  /** One record of `getDisassembleResultAsString`; `nl` is the platform line separator. */
  function LineText(l: DasmLine, showAddress: bool, showComment: bool, nl: string): string
  {
    var body := if l.kind != Data then "\t" + Text(l.asm)
      else "\t" + l.data + nl + LabelText(l.labelName1, nl) + AddressText(l.addr1, showAddress) + "\t" + l.data1;
    LabelText(l.labelName, nl) + AddressText(l.addr, showAddress) + body +
    (if showComment && l.comment.Some? then " ;; " + l.comment.value else "") + nl
  }

  function LinesText(lines: seq<DasmLine>, showAddress: bool, showComment: bool, nl: string): string
  {
    if lines == [] then ""
    else LinesText(lines[..|lines| - 1], showAddress, showComment, nl) + LineText(lines[|lines| - 1], showAddress, showComment, nl)
  }

  /** The whole listing, closed by `END`. */
  function Listing(lines: seq<DasmLine>, showAddress: bool, showComment: bool, nl: string): string
  {
    LinesText(lines, showAddress, showComment, nl) + "END" + nl
  }
}
