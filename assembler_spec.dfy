/**
 * The two-pass assembler as functions of its state: the operand checks,
 * the instruction table, the directives, one source line at a time
 * (`assembleOneLine`), a pass over the lines, the resolution of deferred
 * `EQU` expressions, the stack of conditional-assembly stacks and the
 * encoding of the lines into a memory image.
 *
 * Words are kept as their unsigned 16-bit pattern and bytes as 0..255;
 * each field of an instruction word fits its slot and the fixed bits under
 * it are 0, so the Java code's `|` of shifted fields is written as a sum.
 */
module AssemblerSpec {
  import opened Wrappers
  import opened JavaString
  import opened AsmErrors
  import EP = ExpressionParser
  import Tokenizer

  const FirstPass: int := 0
  const SecondPass: int := 1
  const MaxPasses: int := 2
  /** `lastPass_`: the pass in which an undefined operand is an error. */
  const LastPass: int := MaxPasses - 1
  /** The marks `checkIfBalance` is called with. */
  const IfMark: int := 1
  const ElseMark: int := 2
  const EndIfMark: int := -1
  const MaxMemSize: int := 4096
  /** `AsmLine.UNINITIALIZED`: the offset of a line that takes no space. */
  const NoOffset: int := -1
  /** `S_TRUE_I` and `S_FALSE_I`: what `DEFINE` and `UNDEF` store. */
  const DefinedValue: int := 1
  const UndefinedValue: int := 0

  // ---------------------------------------------------------------------------
  // Pure helpers

  const HexDigits: string := "0123456789ABCDEF"

  /** `isVxVy`: a register name `V0`..`VF` and its number, or (false, -1). */
  function IsVxVy(s: string): (p: EP.Pair)
    ensures p.ok <==> |s| == 2 && s[0] == 'V' && s[1] in HexDigits
    ensures p.ok ==> 0 <= p.value < 16 && HexDigits[p.value] == s[1]
    ensures !p.ok ==> p.value == -1
  {
    // The sixteen characters `isVxVy` compares with one by one.
    if |s| == 2 && s[0] == 'V' && s[1] in HexDigits
    then
      var c := s[1] as int;
      EP.Pair(true, if c < 58 then c - 48 else c - 55)
    else EP.Pair(false, -1)
  }

  /** The name of register `x`. */
  function Register(x: nat): (s: string)
    requires x < 16
    ensures |s| == 2 && s[0] == 'V'
  {
    "V" + [HexDigits[x]]
  }

  /** `isNumberInRange`: `(int) Math.pow(2, n)` saturates at the largest `int` for n >= 31. */
  predicate IsNumberInRange(number: int, n: int)
  {
    0 <= n <= 32 && number >= 0 && number < EP.JavaPow(2, n)
  }

  /** The characters `checkVarNameValid` accepts. */
  predicate NameChar(c: char)
  {
    ('0' <= c <= '9') || ('A' <= c <= 'Z') || c == '_'
  }

  predicate ValidName(s: string)
  {
    forall k :: 0 <= k < |s| ==> NameChar(s[k])
  }

  /** `reservedKeywords_`: the mnemonics, register names and directives. */
  const Reserved: seq<string> := [
    "CLS", "RET", "SCR", "SCL", "EXT", "LOW", "HIGH", "SCD", "SYS", "JP",
    "CALL", "SE", "SNE", "LD", "ADD", "OR", "AND", "XOR", "SUB", "SHR",
    "SUBN", "SHL", "RND", "DRW", "SKP", "SKNP", "DT", "ST", "K", "I", "V",
    "ALIGN", "DA", "DB", "DEFINE", "DS", "DW", "ELSE", "END", "ENDIF", "EQU",
    "IFDEF", "IFUND", "INCLUDE", "OPTION", "ORG", "NO", "YES", "OFF", "ON",
    "UNDEF", "USED", "XREF",
    "V0", "V1", "V2", "V3", "V4", "V5", "V6", "V7", "V8", "V9",
    "VA", "VB", "VC", "VD", "VE", "VF"]

  /** A name `checkReservedWord` refuses: some reserved word up to case. */
  predicate IsReserved(s: string)
  {
    exists k :: 0 <= k < |Reserved| && EqualsIgnoreCase(Reserved[k], s)
  }

  /** `checkNumOfArgs`'s test on the token index of the head and the token count. */
  predicate ArgsOk(hpos: int, count: int, min: int, max: int)
  {
    !(hpos < count - 1 - max || hpos > count - 1 - min)
  }

  /** `minglePreprocessingDefName`: the table key of a conditional-assembly symbol. */
  function Mingle(name: string): (r: string)
    ensures |r| == |name| + 3 && r[..3] == "p::" && r[3..] == name
  {
    "p::" + name
  }

  /** A data length padded to a whole word when the line is aligned. */
  function Padded(n: int, align: bool): (r: int)
    ensures r == n || (r == n + 1 && align && n % 2 == 1)
    ensures align && n >= 0 ==> r % 2 == 0
  {
    if align && n % 2 == 1 then n + 1 else n
  }

  function Zeros(n: nat): (z: seq<int>)
    ensures |z| == n && forall k :: 0 <= k < n ==> z[k] == 0
  {
    seq(n, _ => 0)
  }

  /** `getBytes` with the ASCII charset: a character outside ASCII becomes `?`. */
  function AsciiByte(c: char): (b: int)
    ensures 0 <= b < 128
  {
    if (c as int) < 128 then c as int else '?' as int
  }

  function Ascii(s: string): (b: seq<int>)
    ensures |b| == |s| && forall k :: 0 <= k < |s| ==> b[k] == AsciiByte(s[k])
  {
    seq(|s|, k requires 0 <= k < |s| => AsciiByte(s[k]))
  }

  // ---------------------------------------------------------------------------
  // The state

  datatype OutputMode = Binary | HexString

  /**
   * The fields `assembleOneLine` reads and writes, apart from the current
   * pass, which it only reads. `unresolved_` is kept as its entries in
   * iteration order, one per name; `used` is the parser's used-symbol set;
   * the top of `ifStacks` is its last element.
   */
  datatype State = State(
    table: map<string, int>,
    lineOf: map<string, int>,
    unresolved: seq<(string, string)>,
    errors: seq<AsmError>,
    used: set<string>,
    offset: int,
    start: int,
    skip: bool,
    wordAlign: bool,
    ifStacks: seq<seq<int>>,
    warnUnused: bool,
    autoUse: bool,
    mode: OutputMode)

  /** `AsmLine`: `data` None is the `null` that makes the line a word. */
  datatype AsmLine = AsmLine(bin: int, data: Option<seq<int>>, offset: int, align: bool,
                             tokens: seq<string>, srcLineNo: int, translated: bool)

  /** A line as `preprocess` creates it. */
  function NewLine(tokens: seq<string>, lineNo: int): (l: AsmLine)
    ensures l.tokens == tokens && l.srcLineNo == lineNo && !l.translated && l.offset == NoOffset
  {
    AsmLine(0, None, NoOffset, true, tokens, lineNo, false)
  }

  function Record(st: State, code: int, extra: string, lineNo: int): (r: State)
    ensures r == st.(errors := st.errors + [Err(code, extra, lineNo)])
  {
    st.(errors := st.errors + [Err(code, extra, lineNo)])
  }

  /** `unresolved_.put`: a known name keeps its place and takes the new expression. */
  function Put(u: seq<(string, string)>, name: string, expr: string): (r: seq<(string, string)>)
    ensures (name, expr) in r
    ensures forall e :: e in r ==> e == (name, expr) || e in u
    ensures forall e :: e in u && e.0 != name ==> e in r
  {
    if u == [] then [(name, expr)]
    else if u[0].0 == name then [(name, expr)] + u[1..]
    else [u[0]] + Put(u[1..], name, expr)
  }

  // ---------------------------------------------------------------------------
  // Checks

  datatype Checked = Checked(ok: bool, st: State)

  /** `checkNumOfArgs`. */
  function CheckArgs(st: State, name: string, hpos: int, count: int, min: int, max: int, lineNo: int): (c: Checked)
  {
    if ArgsOk(hpos, count, min, max) then Checked(true, st)
    else Checked(false, Record(st, WrongNumArgs, "(" + name + ")", lineNo))
  }

  /** `checkVarNameValid`. */
  function CheckName(st: State, name: string, msg: string, lineNo: int): (c: Checked)
  {
    if ValidName(name) then Checked(true, st)
    else Checked(false, Record(st, WrongVariableName, msg, lineNo))
  }

  /** `checkReservedWord`: `ok` says the name is reserved, which records an error. */
  function CheckReserved(st: State, name: string, lineNo: int): (c: Checked)
  {
    if IsReserved(name) then Checked(true, Record(st, ReservedKeyword, "(" + name + ")", lineNo))
    else Checked(false, st)
  }

  /** `ep_.parse(expr, symbolTable_)`. */
  function Parse(st: State, expr: string): EP.Ending
  {
    EP.Parsed(expr, st.table, st.used).end
  }

  /** What `checkOperandAndRange` ends with; `raised` is an exception out of the parser. */
  datatype Operand = Operand(raised: bool, ok: bool, value: int, st: State)

  /** `checkOperandAndRange`. */
  function CheckOperand(st: State, pass: int, name: string, expr: string, bits: int, lineNo: int): (o: Operand)
    ensures o.ok ==> !o.raised && IsNumberInRange(o.value, bits)
    ensures o.st == st.(used := o.st.used, errors := o.st.errors)
  {
    var e := Parse(st, expr);
    var st1 := st.(used := e.used);
    if e.raised then Operand(true, false, e.p.value, st1)
    else if !e.p.ok then
      Operand(false, false, e.p.value,
        if pass == LastPass then Record(st1, UndefinedVariable, "(" + name + ")", lineNo) else st1)
    else if !IsNumberInRange(e.p.value, bits) then
      Operand(false, false, e.p.value, Record(st1, NumberOutOfRange, "(" + name + ") " + EP.FormatInt(e.p.value), lineNo))
    else Operand(false, true, e.p.value, st1)
  }

  // ---------------------------------------------------------------------------
  // Conditional assembly

  /** `checkIfBalance` on the stack of stacks (tops last): whether the mark balances, and the new stacks. */
  function Balance(stacks: seq<seq<int>>, op: int): (r: (bool, seq<seq<int>>))
  {
    var s := if stacks == [] || op == IfMark then stacks + [[]] else stacks;
    var rest := s[..|s| - 1];
    var top := s[|s| - 1];
    if top == [] then
      if op == IfMark then (true, rest + [[op]]) else (false, s)
    else if op == EndIfMark then
      var popped := top[..|top| - 1];
      if popped != [] then (false, rest + [popped]) else (true, rest)
    else if op == ElseMark then (top[|top| - 1] == IfMark, s)
    else (true, rest + [top + [op]])
  }

  function CheckBalance(st: State, op: int, msg: string, lineNo: int): (c: Checked)
  {
    var (t, stacks) := Balance(st.ifStacks, op);
    var st1 := st.(ifStacks := stacks);
    if t then Checked(true, st1) else Checked(false, Record(st1, PreprocessUnbalancedIf, msg, lineNo))
  }

  // ---------------------------------------------------------------------------
  // Instructions

  /** An instruction's outcome: the exception, or the word (None leaves the line untranslated). */
  datatype Emit = Emit(raised: bool, bin: Option<int>, st: State)

  predicate IsInstruction(head: string)
  {
    head in {"ADD", "AND", "OR", "XOR", "CALL", "DRW", "JP", "LD", "RND", "SCD",
             "SE", "SNE", "SHL", "SHR", "SKP", "SKNP", "SUB", "SUBN", "SYS"}
  }

  /** The opcodes of the instructions without operands, which take no argument check. */
  function FixedOpcode(head: string): Option<int>
  {
    if head == "CLS" then Some(0x00E0)
    else if head == "EXT" then Some(0x00FD)
    else if head == "HIGH" then Some(0x00FF)
    else if head == "LOW" then Some(0x00FE)
    else if head == "RET" then Some(0x00EE)
    else if head == "SCL" then Some(0x00FC)
    else if head == "SCR" then Some(0x00FB)
    else None
  }

  function WrongArgs(st: State, name: string, lineNo: int): State
  {
    Record(st, WrongNumArgs, "(" + name + ")", lineNo)
  }

  /** The word `base` plus a checked immediate; the mask the Java code applies keeps a value already in range. */
  function Immediate(o: Operand, base: int): (e: Emit)
    ensures e.bin.Some? ==> o.ok && e.bin.value == base + o.value
    ensures e.st == o.st
  {
    if o.raised then Emit(true, None, o.st)
    else if !o.ok then Emit(false, None, o.st)
    else Emit(false, Some(base + o.value), o.st)
  }

  /** `xNNN` register-to-register forms (AND, OR, XOR, SUB, SUBN). */
  function RegisterPair(st: State, t: seq<string>, h: nat, lineNo: int, base: int): (e: Emit)
    requires h < |t|
    ensures e.st == st.(used := e.st.used, errors := e.st.errors)
  {
    if !ArgsOk(h, |t|, 2, 2) then Emit(false, None, WrongArgs(st, t[h], lineNo))
    else
      var p1 := IsVxVy(t[h + 1]);
      var p2 := IsVxVy(t[h + 2]);
      if !p1.ok || !p2.ok then Emit(false, None, Record(st, WrongTypeOperand, t[h] + " Vx, Vy", lineNo))
      else Emit(false, Some(base + p1.value * 0x100 + p2.value * 0x10), st)
  }

  /** `ADD`: 8xy4 with two registers, 7xkk with a byte, Fx1E with `I`. */
  function Add(st: State, pass: int, t: seq<string>, h: nat, lineNo: int): (e: Emit)
    requires h < |t|
    ensures e.st == st.(used := e.st.used, errors := e.st.errors)
  {
    if !ArgsOk(h, |t|, 2, 2) then Emit(false, None, WrongArgs(st, "ADD", lineNo))
    else
      var p := IsVxVy(t[h + 1]);
      if p.ok then
        var q := IsVxVy(t[h + 2]);
        if q.ok then Emit(false, Some(0x8004 + p.value * 0x100 + q.value * 0x10), st)
        else Immediate(CheckOperand(st, pass, "ADD", t[h + 2], 8, lineNo), 0x7000 + p.value * 0x100)
      else if t[h + 1] == "I" then
        var q := IsVxVy(t[h + 2]);
        if q.ok then Emit(false, Some(0xF01E + q.value * 0x100), st) else Emit(false, None, st)
      else Emit(false, None, Record(st, WrongTypeOperand, "LD I, Vx", lineNo))
  }

  /** `CALL nnn` (2nnn) and `SYS nnn` (0nnn). */
  function Address(st: State, pass: int, t: seq<string>, h: nat, lineNo: int, base: int): (e: Emit)
    requires h < |t|
    ensures e.st == st.(used := e.st.used, errors := e.st.errors)
  {
    if !ArgsOk(h, |t|, 1, 1) then Emit(false, None, WrongArgs(st, t[h], lineNo))
    else Immediate(CheckOperand(st, pass, t[h], t[h + 1], 12, lineNo), base)
  }

  /** `DRW Vx, Vy, n` (Dxyn). */
  function Draw(st: State, pass: int, t: seq<string>, h: nat, lineNo: int): (e: Emit)
    requires h < |t|
    ensures e.st == st.(used := e.st.used, errors := e.st.errors)
  {
    if !ArgsOk(h, |t|, 3, 3) then Emit(false, None, WrongArgs(st, "DRW", lineNo))
    else DrawOperands(st, pass, t, h, lineNo)
  }

  /** The operands of `DRW` once there are three: two registers and a nibble. */
  function DrawOperands(st: State, pass: int, t: seq<string>, h: nat, lineNo: int): (e: Emit)
    requires h + 3 < |t|
    ensures e.st == st.(used := e.st.used, errors := e.st.errors)
  {
    var p1 := IsVxVy(t[h + 1]);
    var p2 := IsVxVy(t[h + 2]);
    if !p1.ok || !p2.ok then Emit(false, None, Record(st, WrongTypeOperand, "DRW Vx, Vy, Nibble", lineNo))
    else Immediate(CheckOperand(st, pass, "DRW", t[h + 3], 4, lineNo), 0xD000 + p1.value * 0x100 + p2.value * 0x10)
  }

  /** `JP nnn` (1nnn) with one operand, `JP V0, nnn` (Bnnn) with two. */
  function Jump(st: State, pass: int, t: seq<string>, h: nat, lineNo: int): (e: Emit)
    requires h < |t|
    ensures e.st == st.(used := e.st.used, errors := e.st.errors)
  {
    if !ArgsOk(h, |t|, 1, 2) then Emit(false, None, WrongArgs(st, "JP", lineNo))
    else if h == |t| - 2 then Immediate(CheckOperand(st, pass, "JP", t[h + 1], 12, lineNo), 0x1000)
    else if t[h + 1] != "V0" then Emit(false, None, Record(st, WrongTypeOperand, "JP V0, addr", lineNo))
    else Immediate(CheckOperand(st, pass, "JP", t[h + 2], 12, lineNo), 0xB000)
  }

  /** `LD Vx, ...`: DT (Fx07), K (Fx0A), [I] (Fx65), R (Fx85), a register (8xy0) or a byte (6xkk). */
  function LoadRegister(st: State, pass: int, x: int, a: string, lineNo: int): (e: Emit)
    ensures e.st == st.(used := e.st.used, errors := e.st.errors)
  {
    if a == "DT" then Emit(false, Some(0xF007 + x * 0x100), st)
    else if a == "K" then Emit(false, Some(0xF00A + x * 0x100), st)
    else if a == "[I]" then Emit(false, Some(0xF065 + x * 0x100), st)
    else if a == "R" then Emit(false, Some(0xF085 + x * 0x100), st)
    else
      var q := IsVxVy(a);
      if q.ok then Emit(false, Some(0x8000 + x * 0x100 + q.value * 0x10), st)
      else Immediate(CheckOperand(st, pass, "LD", a, 8, lineNo), 0x6000 + x * 0x100)
  }

  /** `LD d, Vx` for a destination other than `I`: the word with the register, or the form's error. */
  function FromRegister(st: State, a: string, base: int, msg: string, lineNo: int): (e: Emit)
    ensures e.st == st.(used := e.st.used, errors := e.st.errors)
  {
    var q := IsVxVy(a);
    if q.ok then Emit(false, Some(base + q.value * 0x100), st)
    else Emit(false, None, Record(st, WrongTypeOperand, msg, lineNo))
  }

  /** `LD d, ...` where d is not a register: I (Annn), DT (Fx15), ST (Fx18), F/LF (Fx29), B (Fx33), [I] (Fx55), R (Fx75), HF (Fx30). */
  function LoadOther(st: State, pass: int, d: string, a: string, lineNo: int): (e: Emit)
    ensures e.st == st.(used := e.st.used, errors := e.st.errors)
  {
    if d == "I" then Immediate(CheckOperand(st, pass, "LD", a, 12, lineNo), 0xA000)
    else if d == "DT" then FromRegister(st, a, 0xF015, "LD DT, Vx", lineNo)
    else if d == "ST" then FromRegister(st, a, 0xF018, "LD ST, Vx", lineNo)
    else if d == "F" || d == "LF" then FromRegister(st, a, 0xF029, "LD F, Vx", lineNo)
    else if d == "B" then FromRegister(st, a, 0xF033, "LD B, Vx", lineNo)
    else if d == "[I]" then FromRegister(st, a, 0xF055, "LD [I], Vx", lineNo)
    else if d == "R" then FromRegister(st, a, 0xF075, "LD R, Vx", lineNo)
    else if d == "HF" then FromRegister(st, a, 0xF030, "LD HF, Vx", lineNo)
    else Emit(false, None, Record(st, WrongTypeOperand, "LD ..., ...", lineNo))
  }

  function Load(st: State, pass: int, t: seq<string>, h: nat, lineNo: int): (e: Emit)
    requires h < |t|
    ensures e.st == st.(used := e.st.used, errors := e.st.errors)
  {
    if !ArgsOk(h, |t|, 2, 2) then Emit(false, None, WrongArgs(st, "LD", lineNo))
    else
      var p := IsVxVy(t[h + 1]);
      if p.ok then LoadRegister(st, pass, p.value, t[h + 2], lineNo)
      else LoadOther(st, pass, t[h + 1], t[h + 2], lineNo)
  }

  /** `RND Vx, kk` (Cxkk). */
  function Random(st: State, pass: int, t: seq<string>, h: nat, lineNo: int): (e: Emit)
    requires h < |t|
    ensures e.st == st.(used := e.st.used, errors := e.st.errors)
  {
    if !ArgsOk(h, |t|, 2, 2) then Emit(false, None, WrongArgs(st, "RND", lineNo))
    else
      var p := IsVxVy(t[h + 1]);
      if !p.ok then Emit(false, None, Record(st, WrongTypeOperand, "RND Vx, Byte", lineNo))
      else Immediate(CheckOperand(st, pass, "RND", t[h + 2], 8, lineNo), 0xC000 + p.value * 0x100)
  }

  /** `SCD n` (00Cn). */
  function ScrollDown(st: State, pass: int, t: seq<string>, h: nat, lineNo: int): (e: Emit)
    requires h < |t|
    ensures e.st == st.(used := e.st.used, errors := e.st.errors)
  {
    if !ArgsOk(h, |t|, 1, 1) then Emit(false, None, WrongArgs(st, "SCD", lineNo))
    else Immediate(CheckOperand(st, pass, "SCD", t[h + 1], 4, lineNo), 0x00C0)
  }

  /** `SE`/`SNE Vx, Vy` (5xy0/9xy0) and `SE`/`SNE Vx, kk` (3xkk/4xkk). */
  function SkipIf(st: State, pass: int, t: seq<string>, h: nat, lineNo: int): (e: Emit)
    requires h < |t|
    ensures e.st == st.(used := e.st.used, errors := e.st.errors)
  {
    if !ArgsOk(h, |t|, 2, 2) then Emit(false, None, WrongArgs(st, t[h], lineNo))
    else
      var p := IsVxVy(t[h + 1]);
      if !p.ok then Emit(false, None, Record(st, WrongArgTypeNeedV, t[h] + " Vx, kk / " + t[h] + " Vx, Vy", lineNo))
      else
        var q := IsVxVy(t[h + 2]);
        var sne := t[h] == "SNE";
        if q.ok then Emit(false, Some((if sne then 0x9000 else 0x5000) + p.value * 0x100 + q.value * 0x10), st)
        else Immediate(CheckOperand(st, pass, t[h], t[h + 2], 8, lineNo), (if sne then 0x4000 else 0x3000) + p.value * 0x100)
  }

  /** `SHL`/`SHR Vx {, Vy}` (8xyE/8xy6); y is 0 when left out. */
  function Shift(st: State, t: seq<string>, h: nat, lineNo: int): (e: Emit)
    requires h < |t|
    ensures e.st == st.(used := e.st.used, errors := e.st.errors)
  {
    if !ArgsOk(h, |t|, 1, 2) then Emit(false, None, WrongArgs(st, t[h], lineNo))
    else
      var p := IsVxVy(t[h + 1]);
      var base := if t[h] == "SHL" then 0x800E else 0x8006;
      if !p.ok then Emit(false, None, Record(st, WrongTypeOperand, t[h] + " Vx {,Vy}", lineNo))
      else if h == |t| - 3 then
        var q := IsVxVy(t[h + 2]);
        if !q.ok then Emit(false, None, Record(st, WrongTypeOperand, t[h] + " Vx {,Vy}", lineNo))
        else Emit(false, Some(base + p.value * 0x100 + q.value * 0x10), st)
      else Emit(false, Some(base + p.value * 0x100), st)
  }

  /** `SKP`/`SKNP Vx` (Ex9E/ExA1). */
  function SkipKey(st: State, t: seq<string>, h: nat, lineNo: int): (e: Emit)
    requires h < |t|
    ensures e.st == st.(used := e.st.used, errors := e.st.errors)
  {
    if !ArgsOk(h, |t|, 1, 1) then Emit(false, None, WrongArgs(st, t[h], lineNo))
    else
      var p := IsVxVy(t[h + 1]);
      if !p.ok then Emit(false, None, Record(st, WrongTypeOperand, t[h] + " Vx", lineNo))
      else Emit(false, Some((if t[h] == "SKNP" then 0xE0A1 else 0xE09E) + p.value * 0x100), st)
  }

  /** The instruction table of `assembleOneLine`. */
  function Instruction(st: State, pass: int, t: seq<string>, h: nat, lineNo: int): (e: Emit)
    requires h < |t| && IsInstruction(t[h])
    ensures e.st == st.(used := e.st.used, errors := e.st.errors)
  {
    var head := t[h];
    if head == "ADD" then Add(st, pass, t, h, lineNo)
    else if head == "AND" then RegisterPair(st, t, h, lineNo, 0x8002)
    else if head == "OR" then RegisterPair(st, t, h, lineNo, 0x8001)
    else if head == "XOR" then RegisterPair(st, t, h, lineNo, 0x8003)
    else if head == "SUB" then RegisterPair(st, t, h, lineNo, 0x8005)
    else if head == "SUBN" then RegisterPair(st, t, h, lineNo, 0x8007)
    else if head == "CALL" then Address(st, pass, t, h, lineNo, 0x2000)
    else if head == "SYS" then Address(st, pass, t, h, lineNo, 0)
    else if head == "DRW" then Draw(st, pass, t, h, lineNo)
    else if head == "JP" then Jump(st, pass, t, h, lineNo)
    else if head == "LD" then Load(st, pass, t, h, lineNo)
    else if head == "RND" then Random(st, pass, t, h, lineNo)
    else if head == "SCD" then ScrollDown(st, pass, t, h, lineNo)
    else if head == "SE" || head == "SNE" then SkipIf(st, pass, t, h, lineNo)
    else if head == "SHL" || head == "SHR" then Shift(st, t, h, lineNo)
    else SkipKey(st, t, h, lineNo)
  }

  // ---------------------------------------------------------------------------
  // One line

  /** The locals of `assembleOneLine`: the state, the line and the offset increment. */
  datatype Work = Work(st: State, line: AsmLine, incr: int)

  /** What one head does: stop the line, go on at a later token (after a label), or raise. */
  datatype Next = Stop(w: Work) | Again(w: Work, h: nat) | Raise

  /** The result of a whole line. */
  datatype LineRun = LineDone(st: State, line: AsmLine) | LineThrew

  /** A directive that takes no space: offset -1 and no increment. */
  function Aside(w: Work): (r: Work)
    ensures r == w.(line := w.line.(offset := NoOffset), incr := 0)
  {
    w.(line := w.line.(offset := NoOffset), incr := 0)
  }

  function Translate(w: Work): Work
  {
    w.(line := w.line.(translated := true))
  }

  /** An instruction line: the word and the translated mark when it encodes. */
  function EmitLine(w: Work, e: Emit): Next
  {
    if e.raised then Raise
    else if e.bin.Some? then Stop(w.(st := e.st, line := w.line.(bin := e.bin.value, translated := true)))
    else Stop(w.(st := e.st))
  }

  /** `ALIGN ON|OFF`. */
  function Align(w: Work, h: nat): Next
    requires h < |w.line.tokens|
  {
    var t := w.line.tokens;
    var ln := w.line.srcLineNo;
    var c := CheckArgs(w.st, "ALIGN", h, |t|, 1, 1, ln);
    if !c.ok then Stop(w.(st := c.st))
    else
      var a := Aside(w);
      var st := if t[h + 1] == "ON" then a.st.(wordAlign := true)
        else if t[h + 1] == "OFF" then a.st.(wordAlign := false)
        else Record(a.st, DirectiveError, "[ALIGN] ON|OFF", ln);
      Stop(Translate(a.(st := st)))
  }

  /** `DEFINE name` and `UNDEF name`: the mingled name gets 1 or 0. */
  function Define(w: Work, h: nat, value: int): Next
    requires h < |w.line.tokens|
  {
    var t := w.line.tokens;
    var ln := w.line.srcLineNo;
    var c := CheckArgs(w.st, t[h], h, |t|, 1, 1, ln);
    if !c.ok then Stop(w.(st := c.st))
    else
      var a := Aside(w.(st := c.st));
      var n := CheckName(a.st, t[h + 1], "[" + t[h] + "]", ln);
      if !n.ok then Stop(a.(st := Record(n.st, PreprocessSymbol, "Not a valid condition name : " + t[h + 1], ln)))
      else Stop(Translate(a.(st := n.st.(table := n.st.table[Mingle(t[h + 1]) := value]))))
  }

  /** Whether `IFDEF` (ifdef) or `IFUND` (not ifdef) assembles what follows. */
  function Holds(table: map<string, int>, name: string, ifdef: bool): bool
  {
    var r := Mingle(name);
    if ifdef then r in table && table[r] == DefinedValue
    else r !in table || table[r] == UndefinedValue
  }

  /** `IFDEF name` and `IFUND name`. */
  function Conditional(w: Work, h: nat): Next
    requires h < |w.line.tokens|
  {
    var t := w.line.tokens;
    var ln := w.line.srcLineNo;
    var c := CheckArgs(w.st, t[h], h, |t|, 1, 1, ln);
    if !c.ok then Stop(w.(st := c.st))
    else
      var a := Aside(w.(st := c.st));
      var n := CheckName(a.st, t[h + 1], "[" + t[h] + "]", ln);
      if !n.ok then Stop(a.(st := Record(n.st, PreprocessSymbol, "Not a valid condition name : " + t[h + 1], ln)))
      else
        var b := CheckBalance(n.st, IfMark, "[" + t[h] + "]", ln);
        if !b.ok then Stop(a.(st := b.st))
        else Stop(Translate(a.(st := b.st.(skip := !Holds(b.st.table, t[h + 1], t[h] == "IFDEF")))))
  }

  /** `ELSE` toggles skipping and `ENDIF` ends it, when the balance check passes. */
  function ElseEnd(w: Work, h: nat): Next
    requires h < |w.line.tokens|
  {
    var t := w.line.tokens;
    var ln := w.line.srcLineNo;
    var isElse := t[h] == "ELSE";
    var c := CheckArgs(w.st, t[h], h, |t|, 0, 0, ln);
    if !c.ok then Stop(w.(st := c.st))
    else
      var a := Aside(w.(st := c.st));
      var b := CheckBalance(a.st, if isElse then ElseMark else EndIfMark, "[" + t[h] + "]", ln);
      if !b.ok then Stop(a.(st := b.st))
      else Stop(Translate(a.(st := b.st.(skip := if isElse then !b.st.skip else false))))
  }

  /** `XREF x`, accepted and ignored; its argument check is reported under ENDIF's name. */
  function Xref(w: Work, h: nat): Next
    requires h < |w.line.tokens|
  {
    var t := w.line.tokens;
    var c := CheckArgs(w.st, "ENDIF", h, |t|, 1, 1, w.line.srcLineNo);
    if !c.ok then Stop(w.(st := c.st)) else Stop(Translate(Aside(w.(st := c.st))))
  }

  const Targets: set<string> := {"CHIP8", "CHIP48", "HPASC", "HPBIN", "SCHIP10", "SCHIP11"}

  /** `OPTION`: the output mode, a target accepted and ignored, or an error. */
  function OptionDirective(w: Work, h: nat): Next
    requires h < |w.line.tokens|
  {
    var t := w.line.tokens;
    var ln := w.line.srcLineNo;
    var c := CheckArgs(w.st, "ENDIF", h, |t|, 1, 1, ln);
    if !c.ok then Stop(w.(st := c.st))
    else
      var a := Aside(w.(st := c.st));
      var v := t[h + 1];
      if v == "BINARY" then Stop(Translate(a.(st := a.st.(mode := Binary))))
      else if v == "STRING" then Stop(Translate(a.(st := a.st.(mode := HexString))))
      else if v in Targets then Stop(Translate(a))
      else Stop(a.(st := Record(a.st, PreprocessWrongDirective, "[OPTION]", ln)))
  }

  /** `USED`: NO/YES switch the unused-symbol warning on/off, ON/OFF switch automatic use, a name is marked used. */
  function Used(w: Work, h: nat): Next
    requires h < |w.line.tokens|
  {
    var t := w.line.tokens;
    var c := CheckArgs(w.st, "USED", h, |t|, 1, 1, w.line.srcLineNo);
    if !c.ok then Stop(w.(st := c.st))
    else
      var a := Aside(w.(st := c.st));
      var v := t[h + 1];
      var st := if v == "NO" then a.st.(warnUnused := true)
        else if v == "YES" then a.st.(warnUnused := false)
        else if v == "ON" then a.st.(autoUse := true)
        else if v == "OFF" then a.st.(autoUse := false)
        else a.st.(used := a.st.used + {v});
      Stop(Translate(a.(st := st)))
  }

  /** `ORG addr`: rebases the addresses so that the current offset is at `addr`. */
  function Org(w: Work, pass: int, h: nat): Next
    requires h < |w.line.tokens|
  {
    var t := w.line.tokens;
    var ln := w.line.srcLineNo;
    var c := CheckArgs(w.st, "ORG", h, |t|, 1, 1, ln);
    if !c.ok then Stop(w.(st := c.st))
    else
      var a := Aside(w.(st := c.st));
      var o := CheckOperand(a.st, pass, "ORG", t[h + 1], 12, ln);
      if o.raised then Raise
      else if !o.ok then Stop(a.(st := o.st))
      else Stop(Translate(a.(st := o.st.(start := o.value - o.st.offset))))
  }

  /** `DA 'text'`: the ASCII bytes, zero-padded to a word on an aligned line. */
  function Da(w: Work, h: nat): Next
    requires h < |w.line.tokens|
  {
    var t := w.line.tokens;
    var c := CheckArgs(w.st, "DA", h, |t|, 1, 1, w.line.srcLineNo);
    if !c.ok then Stop(w.(st := c.st))
    else
      var ba := Ascii(t[h + 1]);
      var incr := Padded(|ba|, w.line.align);
      Stop(Translate(w.(st := c.st, line := w.line.(data := Some(ba + Zeros(incr - |ba|))), incr := incr)))
  }

  /** The outcome of filling a data block: the exception, whether every operand was accepted, the bytes and the state. */
  datatype Fill = Fill(raised: bool, ok: bool, data: seq<int>, st: State)

  /** `DB`'s loop from token i: each operand a byte; the first one refused ends the loop. */
  function DbFill(st: State, pass: int, t: seq<string>, h: nat, i: nat, data: seq<int>, lineNo: int): (f: Fill)
    requires h < i <= |t| && |data| >= |t| - h - 1
    ensures |f.data| == |data|
    decreases |t| - i, 1
  {
    if i == |t| then Fill(false, true, data, st) else DbByte(st, pass, t, h, i, data, lineNo)
  }

  /** One operand of `DB`'s loop. */
  function DbByte(st: State, pass: int, t: seq<string>, h: nat, i: nat, data: seq<int>, lineNo: int): (f: Fill)
    requires h < i < |t| && |data| >= |t| - h - 1
    ensures |f.data| == |data|
    decreases |t| - i, 0
  {
    var o := CheckOperand(st, pass, "DB", t[i], 8, lineNo);
    if o.raised then Fill(true, false, data, o.st)
    else if !o.ok then Fill(false, false, data, o.st)
    else DbFill(o.st, pass, t, h, i + 1, data[i - h - 1 := o.value], lineNo)
  }

  /** `DW`'s loop from token i: each operand a 16-bit word, high byte first. */
  function DwFill(st: State, pass: int, t: seq<string>, h: nat, i: nat, data: seq<int>, lineNo: int): (f: Fill)
    requires h < i <= |t| && |data| == 2 * (|t| - h - 1)
    ensures |f.data| == |data|
    decreases |t| - i, 1
  {
    if i == |t| then Fill(false, true, data, st) else DwWord(st, pass, t, h, i, data, lineNo)
  }

  /** One operand of `DW`'s loop. */
  function DwWord(st: State, pass: int, t: seq<string>, h: nat, i: nat, data: seq<int>, lineNo: int): (f: Fill)
    requires h < i < |t| && |data| == 2 * (|t| - h - 1)
    ensures |f.data| == |data|
    decreases |t| - i, 0
  {
    var o := CheckOperand(st, pass, "DW", t[i], 16, lineNo);
    var k := i - h - 1;
    if o.raised then Fill(true, false, data, o.st)
    else if !o.ok then Fill(false, false, data, o.st)
    else DwFill(o.st, pass, t, h, i + 1, data[2 * k := o.value / 0x100][2 * k + 1 := o.value % 0x100], lineNo)
  }

  /** The line after a data loop: its bytes, and the translated mark when every operand was accepted. */
  function Filled(w: Work, f: Fill, incr: int): Next
  {
    if f.raised then Raise
    else
      var w1 := w.(st := f.st, line := w.line.(data := Some(f.data)), incr := incr);
      if f.ok then Stop(Translate(w1)) else Stop(w1)
  }

  /** `DB b, ...`: up to 1023 bytes, padded to a word on an aligned line. */
  function Db(w: Work, pass: int, h: nat): Next
    requires h < |w.line.tokens|
  {
    var t := w.line.tokens;
    var ln := w.line.srcLineNo;
    var c := CheckArgs(w.st, "DB", h, |t|, 1, 1023, ln);
    if !c.ok then Stop(w.(st := c.st))
    else
      var incr := Padded(|t| - h - 1, w.line.align);
      Filled(w, DbFill(c.st, pass, t, h, h + 1, Zeros(incr), ln), incr)
  }

  /** `DW w, ...`: up to 511 words. */
  function Dw(w: Work, pass: int, h: nat): Next
    requires h < |w.line.tokens|
  {
    var t := w.line.tokens;
    var ln := w.line.srcLineNo;
    var c := CheckArgs(w.st, "DW", h, |t|, 1, 511, ln);
    if !c.ok then Stop(w.(st := c.st))
    else
      var incr := (|t| - h - 1) * 2;
      Filled(w, DwFill(c.st, pass, t, h, h + 1, Zeros(incr), ln), incr)
  }

  /** `DS n`: n zero bytes, padded to a word on an aligned line. */
  function Ds(w: Work, pass: int, h: nat): Next
    requires h < |w.line.tokens|
  {
    var t := w.line.tokens;
    var ln := w.line.srcLineNo;
    var c := CheckArgs(w.st, "DS", h, |t|, 1, 1, ln);
    if !c.ok then Stop(w.(st := c.st))
    else
      var o := CheckOperand(c.st, pass, "DS", t[h + 1], 8, ln);
      if o.raised then Raise
      else if !o.ok then Stop(w.(st := o.st))
      else
        var incr := Padded(o.value, w.line.align);
        Stop(Translate(w.(st := o.st, line := w.line.(data := Some(Zeros(incr))), incr := incr)))
  }

  /** `name EQU expr` / `name = expr`: the value, or the expression deferred (an error in the last pass). */
  function Assign(w: Work, pass: int, h: nat): Next
    requires h + 1 < |w.line.tokens|
  {
    var t := w.line.tokens;
    var ln := w.line.srcLineNo;
    var name := t[h];
    var n := CheckName(w.st, name, "Variable names contains non alpha-numeric values.", ln);
    if !n.ok then Stop(w.(st := n.st))
    else
      var c := CheckArgs(n.st, "EQU/=", h, |t|, 2, 2, ln);
      if !c.ok then Stop(w.(st := c.st))
      else
        var e := Parse(c.st, t[h + 2]);
        var st1 := c.st.(used := e.used);
        if e.raised then Raise
        else if !e.p.ok then
          Stop(w.(st := if pass == LastPass then Record(st1, UndefinedVariable, "Can't resolve : " + t[h + 2], ln)
                        else st1.(unresolved := Put(st1.unresolved, name, t[h + 2]))))
        else
          var st2 := st1.(table := st1.table[name := e.p.value], lineOf := st1.lineOf[name := ln],
                          used := if st1.autoUse then st1.used + {name} else st1.used);
          Stop(Translate(Aside(w.(st := st2))))
  }

  /** `name :`: the name gets the current address and the line goes on after the colon. */
  function Label(w: Work, h: nat): (r: Next)
    requires h + 1 < |w.line.tokens|
    ensures r.Again? ==> r.h == h + 2 && r.w.line == w.line
    ensures !r.Raise?
  {
    var t := w.line.tokens;
    var ln := w.line.srcLineNo;
    var name := t[h];
    var n := CheckName(w.st, name, "Lable names contains non alpha-numeric values.", ln);
    if !n.ok then Stop(w.(st := n.st))
    else
      var r := CheckReserved(n.st, name, ln);
      if r.ok then Stop(w.(st := r.st))
      else
        var st := r.st;
        var st1 := st.(table := st.table[name := st.offset + st.start], lineOf := st.lineOf[name := ln],
                       used := if st.autoUse then st.used + {name} else st.used);
        Again(w.(st := st1), h + 2)
  }

  /** The default case: a variable assignment, a label, or nothing. */
  function Symbol(w: Work, pass: int, h: nat): (r: Next)
    requires h < |w.line.tokens|
    ensures r.Again? ==> r.h == h + 2 <= |w.line.tokens| && r.w.line == w.line
  {
    var t := w.line.tokens;
    if |t| < 2 then Stop(w.(st := Record(w.st, WrongVariableName, "Not enough tokens on this line.", w.line.srcLineNo)))
    else if h + 1 >= |t| then Raise   // the token after the name is read past the end of the line
    else if t[h + 1] == "EQU" || t[h + 1] == "=" then Assign(w, pass, h)
    else if t[h + 1] == ":" then Label(w, h)
    else Stop(w)
  }

  /** The `switch` of `assembleOneLine` on the token at h. */
  function Head(w: Work, pass: int, h: nat): (r: Next)
    requires h < |w.line.tokens|
    ensures r.Again? ==> r.h == h + 2 <= |w.line.tokens| && r.w.line == w.line
  {
    var t := w.line.tokens;
    var head := t[h];
    if IsInstruction(head) then EmitLine(w, Instruction(w.st, pass, t, h, w.line.srcLineNo))
    else if FixedOpcode(head).Some? then Stop(Translate(w.(line := w.line.(bin := FixedOpcode(head).value))))
    else if head == "ALIGN" then Align(w, h)
    else if head == "DEFINE" then Define(w, h, DefinedValue)
    else if head == "UNDEF" then Define(w, h, UndefinedValue)
    else if head == "IFDEF" || head == "IFUND" then Conditional(w, h)
    else if head == "ELSE" || head == "ENDIF" then ElseEnd(w, h)
    else if head == "XREF" then Xref(w, h)
    else if head == "OPTION" then OptionDirective(w, h)
    else if head == "USED" then Used(w, h)
    else if head == "ORG" then Org(w, pass, h)
    else if head == "DA" then Da(w, h)
    else if head == "DB" then Db(w, pass, h)
    else if head == "DW" then Dw(w, pass, h)
    else if head == "DS" then Ds(w, pass, h)
    else Symbol(w, pass, h)
  }

  predicate IsConditional(head: string)
  {
    head == "IFDEF" || head == "IFUND" || head == "ELSE" || head == "ENDIF"
  }

  /** The end of `assembleOneLine`: in the first pass the offset moves on by the increment. */
  function Finish(w: Work, pass: int): (r: LineRun)
    ensures r.LineDone? && r.line == w.line
  {
    LineDone(if pass == FirstPass && w.incr != 0 then w.st.(offset := w.st.offset + w.incr) else w.st, w.line)
  }

  /** The token loop of `assembleOneLine` from token h. */
  function Scan(w: Work, pass: int, h: nat): LineRun
    requires h <= |w.line.tokens|
    decreases |w.line.tokens| - h, 2
  {
    if h == |w.line.tokens| then LineDone(w.st, w.line.(translated := true, offset := NoOffset))
    else Skip(w, pass, h)
  }

  /** A head other than a conditional-assembly directive marks the line translated while `skip` is on. */
  function Skip(w: Work, pass: int, h: nat): LineRun
    requires h < |w.line.tokens|
    decreases |w.line.tokens| - h, 1
  {
    var line := if IsConditional(w.line.tokens[h]) then w.line else w.line.(translated := w.st.skip);
    if line.translated then LineDone(w.st, line.(offset := NoOffset))
    else Turn(w.(line := line), pass, h)
  }

  /** The `switch` on the head at h, and where the token loop goes from there. */
  function Turn(w: Work, pass: int, h: nat): LineRun
    requires h < |w.line.tokens|
    decreases |w.line.tokens| - h, 0
  {
    match Head(w, pass, h)
    case Stop(w') => Finish(w', pass)
    case Again(w', h') => Scan(w', pass, h')
    case Raise => LineThrew
  }

  /** The state and line `assembleOneLine` starts its token loop with. */
  function Begin(st: State, pass: int, line: AsmLine): Work
  {
    if pass == FirstPass then Work(st.(table := st.table["?" := st.offset + st.start]), line.(offset := st.offset, align := st.wordAlign), 2)
    else Work(st, line, 2)
  }

  /** `assembleOneLine`. */
  function OneLine(st: State, pass: int, line: AsmLine): LineRun
  {
    Scan(Begin(st, pass, line), pass, 0)
  }

  // ---------------------------------------------------------------------------
  // Passes

  /** A pass over the lines from line i: the state, the lines, and whether every line was already translated. */
  datatype PassRun = Passed(st: State, lines: seq<AsmLine>, fulfilled: bool) | PassThrew

  /** The loop of `assemble` over `lines_`, from line i: only untranslated lines are assembled. */
  function PassFrom(st: State, pass: int, lines: seq<AsmLine>, i: nat, fulfilled: bool): (r: PassRun)
    requires i <= |lines|
    ensures r.Passed? ==> |r.lines| == |lines|
    decreases |lines| - i, 1
  {
    if i == |lines| then Passed(st, lines, fulfilled) else PassLine(st, pass, lines, i, fulfilled)
  }

  /** Line i of a pass. */
  function PassLine(st: State, pass: int, lines: seq<AsmLine>, i: nat, fulfilled: bool): (r: PassRun)
    requires i < |lines|
    ensures r.Passed? ==> |r.lines| == |lines|
    decreases |lines| - i, 0
  {
    if lines[i].translated then PassFrom(st, pass, lines, i + 1, fulfilled)
    else
      match OneLine(st, pass, lines[i])
      case LineThrew => PassThrew
      case LineDone(st', line') => PassFrom(st', pass, lines[i := line'], i + 1, false)
  }

  /** `resolveIntermediateExpr`: a name already defined counts as resolved. */
  datatype Resolved = Resolved(raised: bool, ok: bool, st: State)

  function ResolveOne(st: State, name: string, expr: string): (r: Resolved)
  {
    if name in st.table then Resolved(false, true, st)
    else
      var e := Parse(st, expr);
      var st1 := st.(used := e.used);
      if e.raised then Resolved(true, false, st1)
      else if e.p.ok then Resolved(false, true, st1.(table := st1.table[name := e.p.value]))
      else Resolved(false, false, st1)
  }

  /** The outcome of a sweep over the deferred expressions. */
  datatype Sweep = Swept(st: State) | SweepThrew

  /**
   * One iteration over `unresolved_` from entry i, removing each entry that
   * resolves: `kept` are the entries before i still deferred.
   */
  function SweepFrom(st: State, entries: seq<(string, string)>, i: nat, kept: seq<(string, string)>): Sweep
    requires i <= |entries|
    decreases |entries| - i, 1
  {
    if i == |entries| then Swept(st) else SweepEntry(st, entries, i, kept)
  }

  /** Entry i of a sweep. */
  function SweepEntry(st: State, entries: seq<(string, string)>, i: nat, kept: seq<(string, string)>): Sweep
    requires i < |entries|
    decreases |entries| - i, 0
  {
    var r := ResolveOne(st, entries[i].0, entries[i].1);
    if r.raised then SweepThrew
    else
      var kept' := if r.ok then kept else kept + [entries[i]];
      SweepFrom(r.st.(unresolved := kept' + entries[i + 1..]), entries, i + 1, kept')
  }

  /** `resolveAllIntermediateExpr`: a sweep, and a second one when something is left. */
  function ResolveAll(st: State): Sweep
  {
    match SweepFrom(st, st.unresolved, 0, [])
    case SweepThrew => SweepThrew
    case Swept(st1) =>
      if st1.unresolved == [] then Swept(st1)
      else SweepFrom(st1, st1.unresolved, 0, [])
  }

  /** The state after the passes, with the pass counter, or the exception. */
  datatype Assembled = Assembled(st: State, pass: int, lines: seq<AsmLine>) | AsmThrew

  /** The pass loop of `assemble` from pass `pass`: it stops after a pass that found nothing to do, or after the last pass. */
  function Passes(st: State, pass: int, lines: seq<AsmLine>): Assembled
    decreases MaxPasses - pass
  {
    var before := if pass == SecondPass then ResolveAll(st) else Swept(st);
    match before
    case SweepThrew => AsmThrew
    case Swept(st1) =>
      match PassFrom(st1, pass, lines, 0, true)
      case PassThrew => AsmThrew
      case Passed(st2, lines2, fulfilled) =>
        if fulfilled || pass + 1 >= MaxPasses then Assembled(st2, pass + 1, lines2)
        else Passes(st2, pass + 1, lines2)
  }

  /** `init`: the errors, the output mode and the two `USED` switches carry over from an earlier run. */
  function Reset(st: State, start: int): State
  {
    st.(table := map[], lineOf := map[], unresolved := [], used := {"?"}, offset := 0, start := start,
        skip := false, wordAlign := true, ifStacks := [])
  }

  /** `preprocess`: a line for each tokenized line that has tokens. */
  function Lines(tl: seq<Tokenizer.TokenizedLine>): (r: seq<AsmLine>)
    ensures |r| <= |tl|
  {
    if tl == [] then []
    else
      var last := tl[|tl| - 1];
      Lines(tl[..|tl| - 1]) + (if |last.tokens| > 0 then [NewLine(last.tokens, last.lineNo)] else [])
  }

  /** `init`, `preprocess` and the passes over a text; an empty text raises in `preprocess`. */
  function Assembly(st: State, input: string, start: int): Assembled
  {
    match Tokenizer.Tokens(Some(input))
    case None => AsmThrew
    case Some(tl) => Passes(Reset(st, start), FirstPass, Lines(tl))
  }

  /**
   * The warnings `assemble` adds when they are on: one for each symbol
   * that no expression used, in the table's iteration order, with the line
   * the symbol was defined on, or -1.
   */
  predicate UnusedWarnings(ws: seq<AsmError>, st: State)
  {
    if !st.warnUnused then ws == []
    else
      (forall k :: 0 <= k < |ws| ==>
        ws[k].code == UnusedSymbol && ws[k].level == Warning && ws[k].extra in st.table && ws[k].extra !in st.used &&
        ws[k].lineNumber == (if ws[k].extra in st.lineOf then st.lineOf[ws[k].extra] else -1)) &&
      (forall name :: name in st.table && name !in st.used ==> exists k :: 0 <= k < |ws| && ws[k].extra == name) &&
      (forall j, k :: 0 <= j < k < |ws| ==> ws[j].extra != ws[k].extra)
  }

  // ---------------------------------------------------------------------------
  // The image

  /** What `encodeBinary` puts at a line's offset: its data, or its word high byte first. */
  function Bytes(l: AsmLine): seq<int>
  {
    if l.data.Some? then l.data.value else [l.bin / 0x100, l.bin % 0x100]
  }

  function Write(mem: seq<int>, at: nat, b: seq<int>): (r: seq<int>)
    requires at + |b| <= |mem|
    ensures |r| == |mem|
  {
    mem[..at] + b + mem[at + |b|..]
  }

  /**
   * The loop of `encodeBinary` from line i over a 4096-byte buffer at
   * position `pos`: a line with offset -1 is passed over, an offset outside
   * 0..4094 or data running past the buffer raises, and the image is the
   * buffer up to the position after the last write.
   */
  function EncodeFrom(lines: seq<AsmLine>, i: nat, mem: seq<int>, pos: int): Option<seq<int>>
    requires i <= |lines| && |mem| == MaxMemSize && 0 <= pos <= MaxMemSize
    decreases |lines| - i
  {
    if i == |lines| then Some(mem[..pos])
    else
      var l := lines[i];
      if l.offset == NoOffset then EncodeFrom(lines, i + 1, mem, pos)
      else if l.offset < 0 || l.offset > MaxMemSize - 2 then None
      else
        var b := Bytes(l);
        if l.offset + |b| > MaxMemSize then None
        else EncodeFrom(lines, i + 1, Write(mem, l.offset, b), l.offset + |b|)
  }

  /** `encodeBinary`. */
  function Encode(lines: seq<AsmLine>): Option<seq<int>>
  {
    EncodeFrom(lines, 0, Zeros(MaxMemSize), 0)
  }

  /** `assemble`: None for a missing text or when anything raised; the errors recorded do not stop it. */
  function Image(st: State, input: Option<string>, start: int): Option<seq<int>>
  {
    if input.None? then None
    else
      match Assembly(st, input.value, start)
      case AsmThrew => None
      case Assembled(_, _, lines) => Encode(lines)
  }
}
