/**
 * The assembler object: its fields are those of `AssemblerSpec.State` plus
 * the current pass and the source lines, and each method is proved to do
 * what the function of the same name in `AssemblerSpec` says. `ep` is the
 * expression parser the assembler owns; its used-symbol set is part of the
 * state. A method that can raise returns `raised`/`thrown`; after a raise
 * the fields are not described, since `assemble` then returns null.
 */
module Assembler {
  import opened Wrappers
  import opened AsmErrors
  import opened AssemblerSpec
  import EP = ExpressionParser
  import Tokenizer

  /** How a head of `assembleOneLine` ends: the line is done, the loop goes on at token h, or an exception. */
  datatype Flow = Stopped | Continue(h: nat) | Raised

  class Assembler {
    var table: map<string, int>
    var lineOf: map<string, int>
    var unresolved: seq<(string, string)>
    var errors: seq<AsmError>
    var offset: int
    var start: int
    var pass: int
    var skip: bool
    var wordAlign: bool
    var ifStacks: seq<seq<int>>
    var warnUnused: bool
    var autoUse: bool
    var mode: OutputMode
    var lines: seq<AsmLine>
    const ep: EP.ExpressionParser
    const tk: Tokenizer.Tokenizer

    /** The fields as a value. */
    function Snapshot(): State
      reads this, ep
    {
      State(table, lineOf, unresolved, errors, ep.usedSymbols, offset, start, skip, wordAlign, ifStacks,
            warnUnused, autoUse, mode)
    }

    /** What a head method ended with agrees with the head's function. */
    predicate Follows(n: Next, flow: Flow, l: AsmLine, incr: int)
      reads this, ep
    {
      match flow
      case Stopped => n == Stop(Work(Snapshot(), l, incr))
      case Continue(h) => n == Again(Work(Snapshot(), l, incr), h)
      case Raised => n == Raise
    }

    constructor ()
      ensures Snapshot() == State(map[], map[], [], [], {}, 0, 0x200, false, true, [], true, false, Binary)
      ensures pass == FirstPass && lines == []
      ensures fresh(ep) && fresh(tk)
    {
      table := map[];
      lineOf := map[];
      unresolved := [];
      errors := [];
      offset := 0;
      start := 0x200;
      pass := 0;
      skip := false;
      wordAlign := true;
      ifStacks := [];
      warnUnused := true;
      autoUse := false;
      mode := Binary;
      lines := [];
      ep := new EP.ExpressionParser();
      tk := new Tokenizer.Tokenizer();
    }

    /** `init`. */
    method Init(startAddress: int)
      modifies this`table, this`lineOf, this`unresolved, this`offset, this`start, this`pass, this`skip,
        this`wordAlign, this`ifStacks, this`lines, ep
      ensures Snapshot() == Reset(old(Snapshot()), startAddress)
      ensures pass == FirstPass && lines == []
    {
      ep.Init();
      wordAlign := true;
      skip := false;
      ifStacks := [];
      table := map[];
      lines := [];
      unresolved := [];
      pass := 0;
      offset := 0;
      start := startAddress;
      lineOf := map[];
    }

    // -------------------------------------------------------------------------
    // Checks

    /** `checkNumOfArgs`. */
    method CheckNumOfArgs(name: string, hpos: int, count: int, min: int, max: int, lineNo: int) returns (f: bool)
      modifies this`errors
      ensures Checked(f, Snapshot()) == CheckArgs(old(Snapshot()), name, hpos, count, min, max, lineNo)
    {
      f := true;
      if hpos < count - 1 - max || hpos > count - 1 - min {
        errors := errors + [Err(WrongNumArgs, "(" + name + ")", lineNo)];
        f := false;
      }
    }

    /** `checkVarNameValid`. */
    method CheckVarNameValid(name: string, msg: string, lineNo: int) returns (f: bool)
      modifies this`errors
      ensures Checked(f, Snapshot()) == CheckName(old(Snapshot()), name, msg, lineNo)
    {
      f := true;
      var i := 0;
      while i < |name|
        invariant 0 <= i <= |name| && f
        invariant forall k :: 0 <= k < i ==> NameChar(name[k])
      {
        var c := name[i];
        if !(('0' <= c <= '9') || ('A' <= c <= 'Z') || c == '_') {
          f := false;
          break;
        }
        i := i + 1;
      }
      if !f {
        errors := errors + [Err(WrongVariableName, msg, lineNo)];
      }
    }

    /** `checkReservedWord`. */
    method CheckReservedWord(s: string, lineNo: int) returns (r: bool)
      modifies this`errors
      ensures Checked(r, Snapshot()) == CheckReserved(old(Snapshot()), s, lineNo)
    {
      r := false;
      var i := 0;
      while i < |Reserved|
        invariant 0 <= i <= |Reserved| && !r
        invariant forall k :: 0 <= k < i ==> !JavaStringEq(Reserved[k], s)
      {
        if JavaStringEq(Reserved[i], s) {
          r := true;
          break;
        }
        i := i + 1;
      }
      if r {
        errors := errors + [Err(ReservedKeyword, "(" + s + ")", lineNo)];
      }
    }

    /** `compareToIgnoreCase(..) == 0` on ASCII text. */
    static predicate JavaStringEq(a: string, b: string)
    {
      JavaString.EqualsIgnoreCase(a, b)
    }

    /** `checkOperandAndRange`. */
    method CheckOperandAndRange(name: string, expr: string, bits: int, lineNo: int) returns (raised: bool, ok: bool, value: int)
      modifies this`errors, ep
      ensures Operand(raised, ok, value, Snapshot()) == CheckOperand(old(Snapshot()), pass, name, expr, bits, lineNo)
    {
      var p: EP.Pair;
      raised, p := ep.Parse(expr, Some(table));
      if raised {
        return true, false, p.value;
      }
      if !p.ok {
        if pass == LastPass {
          errors := errors + [Err(UndefinedVariable, "(" + name + ")", lineNo)];
        }
        return false, false, p.value;
      }
      if !IsNumberInRange(p.value, bits) {
        errors := errors + [Err(NumberOutOfRange, "(" + name + ") " + EP.FormatInt(p.value), lineNo)];
        return false, false, p.value;
      }
      return false, true, p.value;
    }

    /** `checkIfBalance`: the inner stack on top is changed in place, which here replaces the last element. */
    method CheckIfBalance(op: int, msg: string, lineNo: int) returns (t: bool)
      modifies this`ifStacks, this`errors
      ensures Checked(t, Snapshot()) == CheckBalance(old(Snapshot()), op, msg, lineNo)
    {
      t := true;
      if ifStacks == [] || op == IfMark {
        ifStacks := ifStacks + [[]];
      }
      var top := ifStacks[|ifStacks| - 1];
      var rest := ifStacks[..|ifStacks| - 1];
      if top == [] {
        if op == IfMark {
          ifStacks := rest + [[op]];
        } else {
          t := false;
        }
      } else {
        if op == EndIfMark {
          top := top[..|top| - 1];
          ifStacks := rest + [top];
          if top != [] {
            t := false;
          } else {
            ifStacks := rest;
          }
        } else if op == ElseMark {
          if top[|top| - 1] != IfMark {
            t := false;
          }
        } else {
          ifStacks := rest + [top + [op]];
        }
      }
      if !t {
        errors := errors + [Err(PreprocessUnbalancedIf, msg, lineNo)];
      }
    }

    // -------------------------------------------------------------------------
    // Instructions

    /** A checked operand added to `base`. */
    method OperandWord(name: string, expr: string, bits: int, lineNo: int, base: int) returns (raised: bool, bin: Option<int>)
      modifies this`errors, ep
      ensures Emit(raised, bin, Snapshot()) == Immediate(CheckOperand(old(Snapshot()), pass, name, expr, bits, lineNo), base)
    {
      var ok, v;
      raised, ok, v := CheckOperandAndRange(name, expr, bits, lineNo);
      if raised {
        return true, None;
      }
      if !ok {
        return false, None;
      }
      return false, Some(base + v);
    }

    method EncodeRegisterPair(t: seq<string>, h: nat, lineNo: int, base: int) returns (bin: Option<int>)
      requires h < |t|
      modifies this`errors
      ensures Emit(false, bin, Snapshot()) == RegisterPair(old(Snapshot()), t, h, lineNo, base)
    {
      var f := CheckNumOfArgs(t[h], h, |t|, 2, 2, lineNo);
      if !f {
        return None;
      }
      var p1 := IsVxVy(t[h + 1]);
      var p2 := IsVxVy(t[h + 2]);
      if !p1.ok || !p2.ok {
        errors := errors + [Err(WrongTypeOperand, t[h] + " Vx, Vy", lineNo)];
        return None;
      }
      return Some(base + p1.value * 0x100 + p2.value * 0x10);
    }

    method EncodeAdd(t: seq<string>, h: nat, lineNo: int) returns (raised: bool, bin: Option<int>)
      requires h < |t|
      modifies this`errors, ep
      ensures Emit(raised, bin, Snapshot()) == Add(old(Snapshot()), pass, t, h, lineNo)
    {
      var f := CheckNumOfArgs("ADD", h, |t|, 2, 2, lineNo);
      if !f {
        return false, None;
      }
      var p := IsVxVy(t[h + 1]);
      if p.ok {
        var q := IsVxVy(t[h + 2]);
        if q.ok {
          return false, Some(0x8004 + p.value * 0x100 + q.value * 0x10);
        }
        raised, bin := OperandWord("ADD", t[h + 2], 8, lineNo, 0x7000 + p.value * 0x100);
      } else if t[h + 1] == "I" {
        var q := IsVxVy(t[h + 2]);
        if !q.ok {
          return false, None;
        }
        return false, Some(0xF01E + q.value * 0x100);
      } else {
        errors := errors + [Err(WrongTypeOperand, "LD I, Vx", lineNo)];
        return false, None;
      }
    }

    /** `CALL` and `SYS`. */
    method EncodeAddress(t: seq<string>, h: nat, lineNo: int, base: int) returns (raised: bool, bin: Option<int>)
      requires h < |t|
      modifies this`errors, ep
      ensures Emit(raised, bin, Snapshot()) == Address(old(Snapshot()), pass, t, h, lineNo, base)
    {
      var f := CheckNumOfArgs(t[h], h, |t|, 1, 1, lineNo);
      if !f {
        return false, None;
      }
      raised, bin := OperandWord(t[h], t[h + 1], 12, lineNo, base);
    }

    method EncodeDraw(t: seq<string>, h: nat, lineNo: int) returns (raised: bool, bin: Option<int>)
      requires h < |t|
      modifies this`errors, ep
      ensures Emit(raised, bin, Snapshot()) == Draw(old(Snapshot()), pass, t, h, lineNo)
    {
      var f := CheckNumOfArgs("DRW", h, |t|, 3, 3, lineNo);
      if !f {
        return false, None;
      }
      raised, bin := EncodeDrawOperands(t, h, lineNo);
    }

    method EncodeDrawOperands(t: seq<string>, h: nat, lineNo: int) returns (raised: bool, bin: Option<int>)
      requires h + 3 < |t|
      modifies this`errors, ep
      ensures Emit(raised, bin, Snapshot()) == DrawOperands(old(Snapshot()), pass, t, h, lineNo)
    {
      var p1 := IsVxVy(t[h + 1]);
      var p2 := IsVxVy(t[h + 2]);
      if !p1.ok || !p2.ok {
        errors := errors + [Err(WrongTypeOperand, "DRW Vx, Vy, Nibble", lineNo)];
        return false, None;
      }
      ghost var s0 := Snapshot();
      var base := 0xD000 + p1.value * 0x100 + p2.value * 0x10;
      assert DrawOperands(s0, pass, t, h, lineNo) == Immediate(CheckOperand(s0, pass, "DRW", t[h + 3], 4, lineNo), base);
      raised, bin := OperandWord("DRW", t[h + 3], 4, lineNo, base);
    }

    method EncodeJump(t: seq<string>, h: nat, lineNo: int) returns (raised: bool, bin: Option<int>)
      requires h < |t|
      modifies this`errors, ep
      ensures Emit(raised, bin, Snapshot()) == Jump(old(Snapshot()), pass, t, h, lineNo)
    {
      var f := CheckNumOfArgs("JP", h, |t|, 1, 2, lineNo);
      if !f {
        return false, None;
      }
      if h == |t| - 2 {
        raised, bin := OperandWord("JP", t[h + 1], 12, lineNo, 0x1000);
      } else {
        if t[h + 1] != "V0" {
          errors := errors + [Err(WrongTypeOperand, "JP V0, addr", lineNo)];
          return false, None;
        }
        raised, bin := OperandWord("JP", t[h + 2], 12, lineNo, 0xB000);
      }
    }

    method EncodeLoadRegister(x: int, a: string, lineNo: int) returns (raised: bool, bin: Option<int>)
      modifies this`errors, ep
      ensures Emit(raised, bin, Snapshot()) == LoadRegister(old(Snapshot()), pass, x, a, lineNo)
    {
      if a == "DT" {
        return false, Some(0xF007 + x * 0x100);
      } else if a == "K" {
        return false, Some(0xF00A + x * 0x100);
      } else if a == "[I]" {
        return false, Some(0xF065 + x * 0x100);
      } else if a == "R" {
        return false, Some(0xF085 + x * 0x100);
      }
      var q := IsVxVy(a);
      if q.ok {
        return false, Some(0x8000 + x * 0x100 + q.value * 0x10);
      }
      raised, bin := OperandWord("LD", a, 8, lineNo, 0x6000 + x * 0x100);
    }

    method EncodeFromRegister(a: string, base: int, msg: string, lineNo: int) returns (bin: Option<int>)
      modifies this`errors
      ensures Emit(false, bin, Snapshot()) == FromRegister(old(Snapshot()), a, base, msg, lineNo)
    {
      var q := IsVxVy(a);
      if !q.ok {
        errors := errors + [Err(WrongTypeOperand, msg, lineNo)];
        return None;
      }
      return Some(base + q.value * 0x100);
    }

    method EncodeLoadOther(d: string, a: string, lineNo: int) returns (raised: bool, bin: Option<int>)
      modifies this`errors, ep
      ensures Emit(raised, bin, Snapshot()) == LoadOther(old(Snapshot()), pass, d, a, lineNo)
    {
      raised := false;
      if d == "I" {
        raised, bin := OperandWord("LD", a, 12, lineNo, 0xA000);
      } else if d == "DT" {
        bin := EncodeFromRegister(a, 0xF015, "LD DT, Vx", lineNo);
      } else if d == "ST" {
        bin := EncodeFromRegister(a, 0xF018, "LD ST, Vx", lineNo);
      } else if d == "F" || d == "LF" {
        bin := EncodeFromRegister(a, 0xF029, "LD F, Vx", lineNo);
      } else if d == "B" {
        bin := EncodeFromRegister(a, 0xF033, "LD B, Vx", lineNo);
      } else if d == "[I]" {
        bin := EncodeFromRegister(a, 0xF055, "LD [I], Vx", lineNo);
      } else if d == "R" {
        bin := EncodeFromRegister(a, 0xF075, "LD R, Vx", lineNo);
      } else if d == "HF" {
        bin := EncodeFromRegister(a, 0xF030, "LD HF, Vx", lineNo);
      } else {
        errors := errors + [Err(WrongTypeOperand, "LD ..., ...", lineNo)];
        bin := None;
      }
    }

    method EncodeLoad(t: seq<string>, h: nat, lineNo: int) returns (raised: bool, bin: Option<int>)
      requires h < |t|
      modifies this`errors, ep
      ensures Emit(raised, bin, Snapshot()) == Load(old(Snapshot()), pass, t, h, lineNo)
    {
      var f := CheckNumOfArgs("LD", h, |t|, 2, 2, lineNo);
      if !f {
        return false, None;
      }
      var p := IsVxVy(t[h + 1]);
      if p.ok {
        raised, bin := EncodeLoadRegister(p.value, t[h + 2], lineNo);
      } else {
        raised, bin := EncodeLoadOther(t[h + 1], t[h + 2], lineNo);
      }
    }

    method EncodeRandom(t: seq<string>, h: nat, lineNo: int) returns (raised: bool, bin: Option<int>)
      requires h < |t|
      modifies this`errors, ep
      ensures Emit(raised, bin, Snapshot()) == Random(old(Snapshot()), pass, t, h, lineNo)
    {
      var f := CheckNumOfArgs("RND", h, |t|, 2, 2, lineNo);
      if !f {
        return false, None;
      }
      var p := IsVxVy(t[h + 1]);
      if !p.ok {
        errors := errors + [Err(WrongTypeOperand, "RND Vx, Byte", lineNo)];
        return false, None;
      }
      raised, bin := OperandWord("RND", t[h + 2], 8, lineNo, 0xC000 + p.value * 0x100);
    }

    method EncodeScrollDown(t: seq<string>, h: nat, lineNo: int) returns (raised: bool, bin: Option<int>)
      requires h < |t|
      modifies this`errors, ep
      ensures Emit(raised, bin, Snapshot()) == ScrollDown(old(Snapshot()), pass, t, h, lineNo)
    {
      var f := CheckNumOfArgs("SCD", h, |t|, 1, 1, lineNo);
      if !f {
        return false, None;
      }
      raised, bin := OperandWord("SCD", t[h + 1], 4, lineNo, 0x00C0);
    }

    method EncodeSkipIf(t: seq<string>, h: nat, lineNo: int) returns (raised: bool, bin: Option<int>)
      requires h < |t|
      modifies this`errors, ep
      ensures Emit(raised, bin, Snapshot()) == SkipIf(old(Snapshot()), pass, t, h, lineNo)
    {
      var f := CheckNumOfArgs(t[h], h, |t|, 2, 2, lineNo);
      if !f {
        return false, None;
      }
      var p := IsVxVy(t[h + 1]);
      if !p.ok {
        errors := errors + [Err(WrongArgTypeNeedV, t[h] + " Vx, kk / " + t[h] + " Vx, Vy", lineNo)];
        return false, None;
      }
      var q := IsVxVy(t[h + 2]);
      if q.ok {
        var base := if t[h] == "SNE" then 0x9000 else 0x5000;
        return false, Some(base + p.value * 0x100 + q.value * 0x10);
      }
      var base := if t[h] == "SNE" then 0x4000 else 0x3000;
      raised, bin := OperandWord(t[h], t[h + 2], 8, lineNo, base + p.value * 0x100);
    }

    method EncodeShift(t: seq<string>, h: nat, lineNo: int) returns (bin: Option<int>)
      requires h < |t|
      modifies this`errors
      ensures Emit(false, bin, Snapshot()) == Shift(old(Snapshot()), t, h, lineNo)
    {
      var f := CheckNumOfArgs(t[h], h, |t|, 1, 2, lineNo);
      if !f {
        return None;
      }
      var p := IsVxVy(t[h + 1]);
      if !p.ok {
        errors := errors + [Err(WrongTypeOperand, t[h] + " Vx {,Vy}", lineNo)];
        return None;
      }
      var y := 0;
      if h == |t| - 3 {
        var q := IsVxVy(t[h + 2]);
        if !q.ok {
          errors := errors + [Err(WrongTypeOperand, t[h] + " Vx {,Vy}", lineNo)];
          return None;
        }
        y := q.value;
      }
      var base := if t[h] == "SHL" then 0x800E else 0x8006;
      return Some(base + p.value * 0x100 + y * 0x10);
    }

    method EncodeSkipKey(t: seq<string>, h: nat, lineNo: int) returns (bin: Option<int>)
      requires h < |t|
      modifies this`errors
      ensures Emit(false, bin, Snapshot()) == SkipKey(old(Snapshot()), t, h, lineNo)
    {
      var f := CheckNumOfArgs(t[h], h, |t|, 1, 1, lineNo);
      if !f {
        return None;
      }
      var p := IsVxVy(t[h + 1]);
      if !p.ok {
        errors := errors + [Err(WrongTypeOperand, t[h] + " Vx", lineNo)];
        return None;
      }
      var base := if t[h] == "SKNP" then 0xE0A1 else 0xE09E;
      return Some(base + p.value * 0x100);
    }

    /** The instruction cases of the `switch` in `assembleOneLine`. */
    method EncodeInstruction(t: seq<string>, h: nat, lineNo: int) returns (raised: bool, bin: Option<int>)
      requires h < |t| && IsInstruction(t[h])
      modifies this`errors, ep
      ensures Emit(raised, bin, Snapshot()) == Instruction(old(Snapshot()), pass, t, h, lineNo)
    {
      var head := t[h];
      raised := false;
      if head == "ADD" {
        raised, bin := EncodeAdd(t, h, lineNo);
      } else if head == "AND" {
        bin := EncodeRegisterPair(t, h, lineNo, 0x8002);
      } else if head == "OR" {
        bin := EncodeRegisterPair(t, h, lineNo, 0x8001);
      } else if head == "XOR" {
        bin := EncodeRegisterPair(t, h, lineNo, 0x8003);
      } else if head == "SUB" {
        bin := EncodeRegisterPair(t, h, lineNo, 0x8005);
      } else if head == "SUBN" {
        bin := EncodeRegisterPair(t, h, lineNo, 0x8007);
      } else if head == "CALL" {
        raised, bin := EncodeAddress(t, h, lineNo, 0x2000);
      } else if head == "SYS" {
        raised, bin := EncodeAddress(t, h, lineNo, 0);
      } else if head == "DRW" {
        raised, bin := EncodeDraw(t, h, lineNo);
      } else if head == "JP" {
        raised, bin := EncodeJump(t, h, lineNo);
      } else if head == "LD" {
        raised, bin := EncodeLoad(t, h, lineNo);
      } else if head == "RND" {
        raised, bin := EncodeRandom(t, h, lineNo);
      } else if head == "SCD" {
        raised, bin := EncodeScrollDown(t, h, lineNo);
      } else if head == "SE" || head == "SNE" {
        raised, bin := EncodeSkipIf(t, h, lineNo);
      } else if head == "SHL" || head == "SHR" {
        bin := EncodeShift(t, h, lineNo);
      } else {
        bin := EncodeSkipKey(t, h, lineNo);
      }
    }

    // -------------------------------------------------------------------------
    // Directives. Each starts from the line and the increment of `assembleOneLine`.

    method DoAlign(l: AsmLine, incr: int, h: nat) returns (flow: Flow, l': AsmLine, incr': int)
      requires h < |l.tokens|
      modifies this`errors, this`wordAlign
      ensures Follows(Align(Work(old(Snapshot()), l, incr), h), flow, l', incr')
    {
      var t := l.tokens;
      flow, l', incr' := Stopped, l, incr;
      var f := CheckNumOfArgs("ALIGN", h, |t|, 1, 1, l.srcLineNo);
      if !f {
        return;
      }
      l' := l'.(offset := NoOffset);
      incr' := 0;
      if t[h + 1] == "ON" {
        wordAlign := true;
      } else if t[h + 1] == "OFF" {
        wordAlign := false;
      } else {
        errors := errors + [Err(DirectiveError, "[ALIGN] ON|OFF", l.srcLineNo)];
      }
      l' := l'.(translated := true);
    }

    /** `DEFINE` (value 1) and `UNDEF` (value 0). */
    method DoDefine(l: AsmLine, incr: int, h: nat, value: int) returns (flow: Flow, l': AsmLine, incr': int)
      requires h < |l.tokens|
      modifies this`errors, this`table
      ensures Follows(Define(Work(old(Snapshot()), l, incr), h, value), flow, l', incr')
    {
      var t := l.tokens;
      var ln := l.srcLineNo;
      flow, l', incr' := Stopped, l, incr;
      var f := CheckNumOfArgs(t[h], h, |t|, 1, 1, ln);
      if !f {
        return;
      }
      l' := l'.(offset := NoOffset);
      incr' := 0;
      var name := t[h + 1];
      var p := CheckVarNameValid(name, "[" + t[h] + "]", ln);
      if !p {
        errors := errors + [Err(PreprocessSymbol, "Not a valid condition name : " + name, ln)];
        return;
      }
      table := table[Mingle(name) := value];
      l' := l'.(translated := true);
    }

    /** `IFDEF` and `IFUND`. */
    method DoConditional(l: AsmLine, incr: int, h: nat) returns (flow: Flow, l': AsmLine, incr': int)
      requires h < |l.tokens|
      modifies this`errors, this`ifStacks, this`skip
      ensures Follows(Conditional(Work(old(Snapshot()), l, incr), h), flow, l', incr')
    {
      var t := l.tokens;
      var ln := l.srcLineNo;
      flow, l', incr' := Stopped, l, incr;
      var f := CheckNumOfArgs(t[h], h, |t|, 1, 1, ln);
      if !f {
        return;
      }
      l' := l'.(offset := NoOffset);
      incr' := 0;
      var name := t[h + 1];
      var p := CheckVarNameValid(name, "[" + t[h] + "]", ln);
      if !p {
        errors := errors + [Err(PreprocessSymbol, "Not a valid condition name : " + name, ln)];
        return;
      }
      var b := CheckIfBalance(IfMark, "[" + t[h] + "]", ln);
      if !b {
        return;
      }
      var rname := Mingle(name);
      if t[h] == "IFDEF" {
        skip := !(rname in table && table[rname] == DefinedValue);
      } else {
        skip := !(rname !in table || table[rname] == UndefinedValue);
      }
      l' := l'.(translated := true);
    }

    /** `ELSE` and `ENDIF`. */
    method DoElseEnd(l: AsmLine, incr: int, h: nat) returns (flow: Flow, l': AsmLine, incr': int)
      requires h < |l.tokens|
      modifies this`errors, this`ifStacks, this`skip
      ensures Follows(ElseEnd(Work(old(Snapshot()), l, incr), h), flow, l', incr')
    {
      var t := l.tokens;
      var ln := l.srcLineNo;
      flow, l', incr' := Stopped, l, incr;
      var f := CheckNumOfArgs(t[h], h, |t|, 0, 0, ln);
      if !f {
        return;
      }
      l' := l'.(offset := NoOffset);
      incr' := 0;
      var isElse := t[h] == "ELSE";
      var b := CheckIfBalance(if isElse then ElseMark else EndIfMark, "[" + t[h] + "]", ln);
      if !b {
        return;
      }
      if isElse {
        skip := !skip;
      } else {
        skip := false;
      }
      l' := l'.(translated := true);
    }

    method DoXref(l: AsmLine, incr: int, h: nat) returns (flow: Flow, l': AsmLine, incr': int)
      requires h < |l.tokens|
      modifies this`errors
      ensures Follows(Xref(Work(old(Snapshot()), l, incr), h), flow, l', incr')
    {
      flow, l', incr' := Stopped, l, incr;
      var f := CheckNumOfArgs("ENDIF", h, |l.tokens|, 1, 1, l.srcLineNo);
      if !f {
        return;
      }
      l' := l'.(offset := NoOffset, translated := true);
      incr' := 0;
    }

    method DoOption(l: AsmLine, incr: int, h: nat) returns (flow: Flow, l': AsmLine, incr': int)
      requires h < |l.tokens|
      modifies this`errors, this`mode
      ensures Follows(OptionDirective(Work(old(Snapshot()), l, incr), h), flow, l', incr')
    {
      var t := l.tokens;
      flow, l', incr' := Stopped, l, incr;
      var f := CheckNumOfArgs("ENDIF", h, |t|, 1, 1, l.srcLineNo);
      if !f {
        return;
      }
      l' := l'.(offset := NoOffset);
      incr' := 0;
      var v := t[h + 1];
      if v == "BINARY" {
        mode := Binary;
      } else if v == "STRING" {
        mode := HexString;
      } else if !(v == "CHIP8" || v == "CHIP48" || v == "HPASC" || v == "HPBIN" || v == "SCHIP10" || v == "SCHIP11") {
        errors := errors + [Err(PreprocessWrongDirective, "[OPTION]", l.srcLineNo)];
        return;
      }
      l' := l'.(translated := true);
    }

    method DoUsed(l: AsmLine, incr: int, h: nat) returns (flow: Flow, l': AsmLine, incr': int)
      requires h < |l.tokens|
      modifies this`errors, this`warnUnused, this`autoUse, ep`usedSymbols
      ensures Follows(Used(Work(old(Snapshot()), l, incr), h), flow, l', incr')
    {
      var t := l.tokens;
      flow, l', incr' := Stopped, l, incr;
      var f := CheckNumOfArgs("USED", h, |t|, 1, 1, l.srcLineNo);
      if !f {
        return;
      }
      l' := l'.(offset := NoOffset);
      incr' := 0;
      var v := t[h + 1];
      if v == "NO" {
        warnUnused := true;
      } else if v == "YES" {
        warnUnused := false;
      } else if v == "ON" {
        autoUse := true;
      } else if v == "OFF" {
        autoUse := false;
      } else {
        ep.PushSymbolAsUsed(v);
      }
      l' := l'.(translated := true);
    }

    method DoOrg(l: AsmLine, incr: int, h: nat) returns (flow: Flow, l': AsmLine, incr': int)
      requires h < |l.tokens|
      modifies this`errors, this`start, ep
      ensures Follows(Org(Work(old(Snapshot()), l, incr), pass, h), flow, l', incr')
    {
      var t := l.tokens;
      flow, l', incr' := Stopped, l, incr;
      var f := CheckNumOfArgs("ORG", h, |t|, 1, 1, l.srcLineNo);
      if !f {
        return;
      }
      l' := l'.(offset := NoOffset);
      incr' := 0;
      var raised, ok, newAddress := CheckOperandAndRange("ORG", t[h + 1], 12, l.srcLineNo);
      if raised {
        return Raised, l', incr';
      }
      if !ok {
        return;
      }
      start := newAddress - offset;
      l' := l'.(translated := true);
    }

    method DoDa(l: AsmLine, incr: int, h: nat) returns (flow: Flow, l': AsmLine, incr': int)
      requires h < |l.tokens|
      modifies this`errors
      ensures Follows(Da(Work(old(Snapshot()), l, incr), h), flow, l', incr')
    {
      var t := l.tokens;
      flow, l', incr' := Stopped, l, incr;
      var f := CheckNumOfArgs("DA", h, |t|, 1, 1, l.srcLineNo);
      if !f {
        return;
      }
      var ba := Ascii(t[h + 1]);
      incr' := |ba|;
      if l.align && incr' % 2 == 1 {
        incr' := incr' + 1;
      }
      l' := l'.(data := Some(ba + Zeros(incr' - |ba|)), translated := true);
    }

    /** The loop of `DB` over the operands: each accepted byte is stored, the first operand refused ends it. */
    method FillBytes(t: seq<string>, h: nat, data: array<int>, ln: int) returns (raised: bool, ok: bool)
      requires h < |t| && data.Length >= |t| - h - 1
      modifies this`errors, ep, data
      ensures Fill(raised, ok, data[..], Snapshot()) == DbFill(old(Snapshot()), pass, t, h, h + 1, old(data[..]), ln)
    {
      var i := h + 1;
      while i < |t|
        invariant h + 1 <= i <= |t|
        invariant DbFill(Snapshot(), pass, t, h, i, data[..], ln) == DbFill(old(Snapshot()), pass, t, h, h + 1, old(data[..]), ln)
      {
        assert DbFill(Snapshot(), pass, t, h, i, data[..], ln) == DbByte(Snapshot(), pass, t, h, i, data[..], ln);
        var v;
        raised, ok, v := CheckOperandAndRange("DB", t[i], 8, ln);
        if raised || !ok {
          return;
        }
        data[i - h - 1] := v;
        i := i + 1;
      }
      return false, true;
    }

    /** `DB`: the bytes go into a fresh zeroed buffer until an operand is refused. */
    method DoDb(l: AsmLine, incr: int, h: nat) returns (flow: Flow, l': AsmLine, incr': int)
      requires h < |l.tokens|
      modifies this`errors, ep
      ensures Follows(Db(Work(old(Snapshot()), l, incr), pass, h), flow, l', incr')
    {
      var t := l.tokens;
      flow, l', incr' := Stopped, l, incr;
      var f := CheckNumOfArgs("DB", h, |t|, 1, 1023, l.srcLineNo);
      if !f {
        return;
      }
      incr' := |t| - h - 1;
      if l.align && incr' % 2 == 1 {
        incr' := incr' + 1;
      }
      var data := new int[incr'](_ => 0);
      assert data[..] == Zeros(incr');
      var raised, ok := FillBytes(t, h, data, l.srcLineNo);
      if raised {
        return Raised, l', incr';
      }
      l' := l'.(data := Some(data[..]));
      if ok {
        l' := l'.(translated := true);
      }
    }

    /** The loop of `DW` over the operands: each accepted word is stored high byte first. */
    method FillWords(t: seq<string>, h: nat, data: array<int>, ln: int) returns (raised: bool, ok: bool)
      requires h < |t| && data.Length == 2 * (|t| - h - 1)
      modifies this`errors, ep, data
      ensures Fill(raised, ok, data[..], Snapshot()) == DwFill(old(Snapshot()), pass, t, h, h + 1, old(data[..]), ln)
    {
      var i := h + 1;
      while i < |t|
        invariant h + 1 <= i <= |t|
        invariant DwFill(Snapshot(), pass, t, h, i, data[..], ln) == DwFill(old(Snapshot()), pass, t, h, h + 1, old(data[..]), ln)
      {
        assert DwFill(Snapshot(), pass, t, h, i, data[..], ln) == DwWord(Snapshot(), pass, t, h, i, data[..], ln);
        var v;
        raised, ok, v := CheckOperandAndRange("DW", t[i], 16, ln);
        if raised || !ok {
          return;
        }
        var k := i - h - 1;
        data[2 * k] := v / 0x100;
        data[2 * k + 1] := v % 0x100;
        i := i + 1;
      }
      return false, true;
    }

    /** `DW`: each word high byte first. */
    method DoDw(l: AsmLine, incr: int, h: nat) returns (flow: Flow, l': AsmLine, incr': int)
      requires h < |l.tokens|
      modifies this`errors, ep
      ensures Follows(Dw(Work(old(Snapshot()), l, incr), pass, h), flow, l', incr')
    {
      var t := l.tokens;
      flow, l', incr' := Stopped, l, incr;
      var f := CheckNumOfArgs("DW", h, |t|, 1, 511, l.srcLineNo);
      if !f {
        return;
      }
      incr' := (|t| - h - 1) * 2;
      var data := new int[incr'](_ => 0);
      assert data[..] == Zeros(incr');
      var raised, ok := FillWords(t, h, data, l.srcLineNo);
      if raised {
        return Raised, l', incr';
      }
      l' := l'.(data := Some(data[..]));
      if ok {
        l' := l'.(translated := true);
      }
    }

    method DoDs(l: AsmLine, incr: int, h: nat) returns (flow: Flow, l': AsmLine, incr': int)
      requires h < |l.tokens|
      modifies this`errors, ep
      ensures Follows(Ds(Work(old(Snapshot()), l, incr), pass, h), flow, l', incr')
    {
      var t := l.tokens;
      flow, l', incr' := Stopped, l, incr;
      var f := CheckNumOfArgs("DS", h, |t|, 1, 1, l.srcLineNo);
      if !f {
        return;
      }
      var raised, ok, v := CheckOperandAndRange("DS", t[h + 1], 8, l.srcLineNo);
      if raised {
        return Raised, l', incr';
      }
      if !ok {
        return;
      }
      incr' := v;
      if l.align && incr' % 2 == 1 {
        incr' := incr' + 1;
      }
      var data := new int[incr'](_ => 0);
      assert data[..] == Zeros(incr');
      l' := l'.(data := Some(data[..]), translated := true);
    }

    /** `name EQU expr` and `name = expr`. */
    method DoAssign(l: AsmLine, incr: int, h: nat) returns (flow: Flow, l': AsmLine, incr': int)
      requires h + 1 < |l.tokens|
      modifies this`errors, this`table, this`lineOf, this`unresolved, ep
      ensures Follows(Assign(Work(old(Snapshot()), l, incr), pass, h), flow, l', incr')
    {
      var t := l.tokens;
      var ln := l.srcLineNo;
      var name := t[h];
      flow, l', incr' := Stopped, l, incr;
      var f := CheckVarNameValid(name, "Variable names contains non alpha-numeric values.", ln);
      if !f {
        return;
      }
      f := CheckNumOfArgs("EQU/=", h, |t|, 2, 2, ln);
      if !f {
        return;
      }
      var raised, p := ep.Parse(t[h + 2], Some(table));
      if raised {
        return Raised, l', incr';
      }
      if !p.ok {
        if pass == LastPass {
          errors := errors + [Err(UndefinedVariable, "Can't resolve : " + t[h + 2], ln)];
        } else {
          unresolved := Put(unresolved, name, t[h + 2]);
        }
        return;
      }
      table := table[name := p.value];
      lineOf := lineOf[name := ln];
      if autoUse {
        ep.PushSymbolAsUsed(name);
      }
      l' := l'.(offset := NoOffset, translated := true);
      incr' := 0;
    }

    /** `name :`. */
    method DoLabel(l: AsmLine, incr: int, h: nat) returns (flow: Flow, l': AsmLine, incr': int)
      requires h + 1 < |l.tokens|
      modifies this`errors, this`table, this`lineOf, ep`usedSymbols
      ensures Follows(Label(Work(old(Snapshot()), l, incr), h), flow, l', incr')
    {
      var t := l.tokens;
      var ln := l.srcLineNo;
      var name := t[h];
      flow, l', incr' := Stopped, l, incr;
      var f := CheckVarNameValid(name, "Lable names contains non alpha-numeric values.", ln);
      if !f {
        return;
      }
      var reserved := CheckReservedWord(name, ln);
      if reserved {
        return;
      }
      table := table[name := offset + start];
      lineOf := lineOf[t[h] := ln];
      if autoUse {
        ep.PushSymbolAsUsed(name);
      }
      flow := Continue(h + 2);
    }

    /** The `default` case: a variable, a label, or nothing. */
    method DoSymbol(l: AsmLine, incr: int, h: nat) returns (flow: Flow, l': AsmLine, incr': int)
      requires h < |l.tokens|
      modifies this`errors, this`table, this`lineOf, this`unresolved, ep
      ensures Follows(Symbol(Work(old(Snapshot()), l, incr), pass, h), flow, l', incr')
    {
      var t := l.tokens;
      flow, l', incr' := Stopped, l, incr;
      if |t| < 2 {
        errors := errors + [Err(WrongVariableName, "Not enough tokens on this line.", l.srcLineNo)];
        return;
      }
      if h + 1 >= |t| {
        // tokens[hpos + 1] is read past the end of the line
        return Raised, l, incr;
      }
      if t[h + 1] == "EQU" || t[h + 1] == "=" {
        flow, l', incr' := DoAssign(l, incr, h);
      } else if t[h + 1] == ":" {
        flow, l', incr' := DoLabel(l, incr, h);
      }
    }

    /** The `switch` of `assembleOneLine` on the token at h. */
    method HeadStep(l: AsmLine, incr: int, h: nat) returns (flow: Flow, l': AsmLine, incr': int)
      requires h < |l.tokens|
      modifies this`table, this`lineOf, this`unresolved, this`errors, this`start, this`skip, this`wordAlign,
        this`ifStacks, this`warnUnused, this`autoUse, this`mode, ep
      ensures Follows(Head(Work(old(Snapshot()), l, incr), pass, h), flow, l', incr')
    {
      var t := l.tokens;
      var head := t[h];
      if IsInstruction(head) {
        var raised, bin := EncodeInstruction(t, h, l.srcLineNo);
        if raised {
          return Raised, l, incr;
        }
        if bin.Some? {
          return Stopped, l.(bin := bin.value, translated := true), incr;
        }
        return Stopped, l, incr;
      }
      var fixed := FixedOpcode(head);
      if fixed.Some? {
        return Stopped, l.(bin := fixed.value, translated := true), incr;
      }
      if head == "ALIGN" {
        flow, l', incr' := DoAlign(l, incr, h);
      } else if head == "DEFINE" {
        flow, l', incr' := DoDefine(l, incr, h, DefinedValue);
      } else if head == "UNDEF" {
        flow, l', incr' := DoDefine(l, incr, h, UndefinedValue);
      } else if head == "IFDEF" || head == "IFUND" {
        flow, l', incr' := DoConditional(l, incr, h);
      } else if head == "ELSE" || head == "ENDIF" {
        flow, l', incr' := DoElseEnd(l, incr, h);
      } else if head == "XREF" {
        flow, l', incr' := DoXref(l, incr, h);
      } else if head == "OPTION" {
        flow, l', incr' := DoOption(l, incr, h);
      } else if head == "USED" {
        flow, l', incr' := DoUsed(l, incr, h);
      } else if head == "ORG" {
        flow, l', incr' := DoOrg(l, incr, h);
      } else if head == "DA" {
        flow, l', incr' := DoDa(l, incr, h);
      } else if head == "DB" {
        flow, l', incr' := DoDb(l, incr, h);
      } else if head == "DW" {
        flow, l', incr' := DoDw(l, incr, h);
      } else if head == "DS" {
        flow, l', incr' := DoDs(l, incr, h);
      } else {
        flow, l', incr' := DoSymbol(l, incr, h);
      }
    }

    // -------------------------------------------------------------------------
    // One line, a pass, the deferred expressions

    /** One turn of the token loop of `assembleOneLine` at token h: the line ends, the loop goes on, or an exception. */
    method ScanStep(l: AsmLine, incr: int, h: nat) returns (flow: Flow, l': AsmLine, incr': int)
      requires h <= |l.tokens|
      modifies this`table, this`lineOf, this`unresolved, this`errors, this`start, this`skip, this`wordAlign,
        this`ifStacks, this`warnUnused, this`autoUse, this`mode, ep
      ensures flow.Continue? ==> l'.tokens == l.tokens && h < flow.h <= |l.tokens|
      ensures flow.Continue? ==> Scan(Work(old(Snapshot()), l, incr), pass, h) == Scan(Work(Snapshot(), l', incr'), pass, flow.h)
      ensures flow.Stopped? ==> Scan(Work(old(Snapshot()), l, incr), pass, h) == Finish(Work(Snapshot(), l', incr'), pass)
      ensures flow.Raised? ==> Scan(Work(old(Snapshot()), l, incr), pass, h) == LineThrew
    {
      var t := l.tokens;
      l', incr' := l, incr;
      if h == |t| {
        l' := l'.(translated := true);
        incr' := 0;
        l' := l'.(offset := NoOffset);
        return Stopped, l', incr';
      }
      ghost var w := Work(Snapshot(), l, incr);
      assert Scan(w, pass, h) == Skip(w, pass, h);
      var head := t[h];
      if !IsConditional(head) {
        l' := l'.(translated := skip);
      }
      if l'.translated {
        incr' := 0;
        l' := l'.(offset := NoOffset);
        return Stopped, l', incr';
      }
      assert Skip(w, pass, h) == Turn(w.(line := l'), pass, h);
      flow, l', incr' := HeadStep(l', incr', h);
    }

    /** The start of `assembleOneLine`: in the first pass the line takes the offset and alignment, and `?` the address. */
    method BeginLine(line: AsmLine) returns (l: AsmLine, incr: int)
      modifies this`table
      ensures Work(Snapshot(), l, incr) == Begin(old(Snapshot()), pass, line)
    {
      l := line;
      incr := 2;
      if pass == FirstPass {
        l := l.(offset := offset);
        table := table["?" := offset + start];
        l := l.(align := wordAlign);
      }
    }

    /** The token loop of `assembleOneLine` and the offset update after it. */
    method ScanLine(l0: AsmLine, incr0: int) returns (thrown: bool, out: AsmLine)
      modifies this`table, this`lineOf, this`unresolved, this`errors, this`offset, this`start, this`skip,
        this`wordAlign, this`ifStacks, this`warnUnused, this`autoUse, this`mode, ep
      ensures var r := Scan(Work(old(Snapshot()), l0, incr0), pass, 0);
        (thrown <==> r.LineThrew?) && (!thrown ==> r == LineDone(Snapshot(), out))
    {
      var l, incr := l0, incr0;
      var t := l.tokens;
      var hpos := 0;
      while true
        invariant hpos <= |t| && l.tokens == t
        invariant Scan(Work(Snapshot(), l, incr), pass, hpos) == Scan(Work(old(Snapshot()), l0, incr0), pass, 0)
        decreases |t| - hpos
      {
        var flow, l', incr' := ScanStep(l, incr, hpos);
        if flow.Raised? {
          return true, l;
        }
        l, incr := l', incr';
        if flow.Stopped? {
          break;
        }
        hpos := flow.h;
      }
      if pass == FirstPass && incr != 0 {
        offset := offset + incr;
      }
      return false, l;
    }

    /** `assembleOneLine`: `thrown` is an exception out of the line. */
    method AssembleOneLine(line: AsmLine) returns (thrown: bool, out: AsmLine)
      modifies this`table, this`lineOf, this`unresolved, this`errors, this`offset, this`start, this`skip,
        this`wordAlign, this`ifStacks, this`warnUnused, this`autoUse, this`mode, ep
      ensures thrown <==> OneLine(old(Snapshot()), pass, line).LineThrew?
      ensures !thrown ==> OneLine(old(Snapshot()), pass, line) == LineDone(Snapshot(), out)
    {
      var l, incr := BeginLine(line);
      thrown, out := ScanLine(l, incr);
    }

    /** One pass of the loop in `assemble`: each line not yet translated is assembled. */
    method AssemblePass() returns (thrown: bool, fulfilled: bool)
      modifies this`table, this`lineOf, this`unresolved, this`errors, this`offset, this`start, this`skip,
        this`wordAlign, this`ifStacks, this`warnUnused, this`autoUse, this`mode, this`lines, ep
      ensures var r := PassFrom(old(Snapshot()), pass, old(lines), 0, true);
        (thrown <==> r.PassThrew?) && (!thrown ==> r == Passed(Snapshot(), lines, fulfilled))
    {
      fulfilled := true;
      var len := |lines|;
      var i := 0;
      while i < len
        invariant 0 <= i <= len && |lines| == len
        invariant PassFrom(Snapshot(), pass, lines, i, fulfilled) == PassFrom(old(Snapshot()), pass, old(lines), 0, true)
      {
        var tl := lines[i];
        if !tl.translated {
          var th, out := AssembleOneLine(tl);
          if th {
            return true, false;
          }
          lines := lines[i := out];
          fulfilled := false;
        }
        i := i + 1;
      }
      return false, fulfilled;
    }

    /** `resolveIntermediateExpr` for the entry (name, expr) the sweep is at. */
    method ResolveIntermediateExpr(name: string, expr: string) returns (raised: bool, ok: bool)
      modifies this`table, ep
      ensures Resolved(raised, ok, Snapshot()) == ResolveOne(old(Snapshot()), name, expr)
    {
      if name in table {
        return false, true;
      }
      var p;
      raised, p := ep.Parse(expr, Some(table));
      if raised {
        return true, false;
      }
      if p.ok {
        table := table[name := p.value];
      }
      return false, p.ok;
    }

    /** Entry i of an iteration over `unresolved_`: the iterator removes it when it resolves. */
    method SweepStep(entries: seq<(string, string)>, i: nat, kept: seq<(string, string)>) returns (raised: bool, kept': seq<(string, string)>)
      requires i < |entries| && unresolved == kept + entries[i..]
      modifies this`table, this`unresolved, ep
      ensures raised ==> SweepEntry(old(Snapshot()), entries, i, kept) == SweepThrew
      ensures !raised ==> unresolved == kept' + entries[i + 1..]
      ensures !raised ==> SweepEntry(old(Snapshot()), entries, i, kept) == SweepFrom(Snapshot(), entries, i + 1, kept')
    {
      kept' := kept;
      var ok;
      raised, ok := ResolveIntermediateExpr(entries[i].0, entries[i].1);
      if raised {
        return;
      }
      assert entries[i..] == [entries[i]] + entries[i + 1..];
      if ok {
        unresolved := kept + entries[i + 1..];
      } else {
        kept' := kept + [entries[i]];
        assert unresolved == kept' + entries[i + 1..];
      }
    }

    /** One iteration over `unresolved_`, removing each entry that resolves. */
    method SweepUnresolved() returns (raised: bool)
      modifies this`table, this`unresolved, ep
      ensures var s := SweepFrom(old(Snapshot()), old(unresolved), 0, []);
        (raised <==> s.SweepThrew?) && (!raised ==> s == Swept(Snapshot()))
    {
      var entries := unresolved;
      var kept: seq<(string, string)> := [];
      var i := 0;
      while i < |entries|
        invariant 0 <= i <= |entries|
        invariant unresolved == kept + entries[i..]
        invariant SweepFrom(Snapshot(), entries, i, kept) == SweepFrom(old(Snapshot()), entries, 0, [])
      {
        raised, kept := SweepStep(entries, i, kept);
        if raised {
          return;
        }
        i := i + 1;
      }
      return false;
    }

    /** `resolveAllIntermediateExpr`: a second sweep only when the first left something. */
    method ResolveAllIntermediateExpr() returns (raised: bool)
      modifies this`table, this`unresolved, ep
      ensures (raised <==> ResolveAll(old(Snapshot())).SweepThrew?) && (!raised ==> ResolveAll(old(Snapshot())) == Swept(Snapshot()))
    {
      ghost var first := SweepFrom(Snapshot(), unresolved, 0, []);
      var x := 0;
      while true
        invariant 0 <= x <= 1
        invariant x == 0 ==> Snapshot() == old(Snapshot())
        invariant x == 1 ==> first == Swept(Snapshot()) && unresolved != []
        decreases 1 - x
      {
        raised := SweepUnresolved();
        if raised {
          return;
        }
        if x > 0 {
          break;
        }
        x := x + 1;
        if unresolved == [] {
          break;
        }
      }
    }

    /** The pass loop of `assemble`. */
    method RunPasses() returns (thrown: bool)
      modifies this`table, this`lineOf, this`unresolved, this`errors, this`offset, this`start, this`skip,
        this`wordAlign, this`ifStacks, this`warnUnused, this`autoUse, this`mode, this`lines, this`pass, ep
      ensures var r := Passes(old(Snapshot()), old(pass), old(lines));
        (thrown <==> r.AsmThrew?) && (!thrown ==> r == Assembled(Snapshot(), pass, lines))
    {
      var stopError := false;
      while true
        invariant Passes(Snapshot(), pass, lines) == Passes(old(Snapshot()), old(pass), old(lines))
        decreases MaxPasses - pass
      {
        if pass == SecondPass {
          var r := ResolveAllIntermediateExpr();
          if r {
            return true;
          }
        }
        var th, fulfilled := AssemblePass();
        if th {
          return true;
        }
        pass := pass + 1;
        if fulfilled || stopError {
          break;
        }
        if pass >= MaxPasses {
          break;
        }
      }
      return false;
    }

    /** `preprocess`: `thrown` for a missing or empty text. */
    method Preprocess(input: string) returns (thrown: bool)
      modifies this`lines, tk
      ensures thrown <==> Tokenizer.Tokens(Some(input)).None?
      ensures !thrown ==> lines == old(lines) + Lines(Tokenizer.Tokens(Some(input)).value)
    {
      var tl := tk.Tokenize(Some(input));
      if tl.None? {
        return true;
      }
      var src := tl.value;
      var i := 0;
      while i < |src|
        invariant 0 <= i <= |src|
        invariant lines == old(lines) + Lines(src[..i])
      {
        var p := src[i];
        if |p.tokens| > 0 {
          lines := lines + [NewLine(p.tokens, p.lineNo)];
        }
        assert src[..i + 1][..i] == src[..i];
        i := i + 1;
      }
      assert src[..i] == src;
      return false;
    }

    /** The unused-symbol warnings, one per symbol of the table not in the used set, in some order of the keys. */
    method WarnUnusedSymbols()
      modifies this`errors
      ensures |errors| >= |old(errors)| && errors[..|old(errors)|] == old(errors)
      ensures UnusedWarnings(errors[|old(errors)|..], Snapshot())
    {
      if !warnUnused {
        assert errors[|errors|..] == [];
        return;
      }
      var keys := table.Keys;
      var usedSet := ep.GetUsedSymbolSet();
      var ws: seq<AsmError> := [];
      while keys != {}
        invariant keys <= table.Keys
        invariant forall k :: 0 <= k < |ws| ==>
          ws[k].code == UnusedSymbol && ws[k].level == Warning && ws[k].extra in table && ws[k].extra !in usedSet &&
          ws[k].extra !in keys && ws[k].lineNumber == (if ws[k].extra in lineOf then lineOf[ws[k].extra] else -1)
        invariant forall name :: name in table && name !in usedSet && name !in keys ==> exists k :: 0 <= k < |ws| && ws[k].extra == name
        invariant forall j, k :: 0 <= j < k < |ws| ==> ws[j].extra != ws[k].extra
        decreases |keys|
      {
        var v :| v in keys;
        if v !in usedSet {
          var lineNo := -1;
          if v in lineOf {
            lineNo := lineOf[v];
          }
          ghost var ws0 := ws;
          ws := ws + [AsmError(UnusedSymbol, v, lineNo, Warning)];
          assert forall k :: 0 <= k < |ws0| ==> ws[k] == ws0[k];
          assert ws[|ws0|].extra == v;
        }
        keys := keys - {v};
      }
      errors := errors + ws;
      assert errors[|old(errors)|..] == ws;
    }

    /** `encodeBinary`: a 4096-byte buffer written at each line's offset. */
    method EncodeBinary() returns (r: Option<seq<int>>)
      ensures r == Encode(lines)
    {
      var bb := new int[MaxMemSize](_ => 0);
      assert bb[..] == Zeros(MaxMemSize);
      var pos := 0;
      var i := 0;
      while i < |lines|
        invariant 0 <= i <= |lines| && 0 <= pos <= MaxMemSize
        invariant EncodeFrom(lines, i, bb[..], pos) == Encode(lines)
      {
        var li := lines[i];
        if li.offset != NoOffset {
          if li.offset < 0 || li.offset > MaxMemSize - 2 {
            return None;
          }
          pos := li.offset;
          var b := Bytes(li);
          if pos + |b| > MaxMemSize {
            return None;
          }
          PutBytes(bb, pos, b);
          pos := pos + |b|;
        }
        i := i + 1;
      }
      return Some(bb[..pos]);
    }

    /** `ByteBuffer.put` of b at `at`. */
    static method PutBytes(bb: array<int>, at: nat, b: seq<int>)
      requires at + |b| <= bb.Length
      modifies bb
      ensures bb[..] == Write(old(bb[..]), at, b)
    {
      var k := 0;
      while k < |b|
        invariant 0 <= k <= |b|
        invariant forall j :: 0 <= j < bb.Length ==> bb[j] == if at <= j < at + k then b[j - at] else old(bb[j])
      {
        bb[at + k] := b[k];
        k := k + 1;
      }
      assert forall j :: 0 <= j < bb.Length ==> bb[..][j] == Write(old(bb[..]), at, b)[j];
    }

    /** The part of `assemble` before the warnings: `init`, `preprocess` and the passes. */
    method AssembleText(input: string, startAddress: int) returns (thrown: bool)
      modifies this, ep, tk
      ensures var a := Assembly(old(Snapshot()), input, startAddress);
        (thrown <==> a.AsmThrew?) && (!thrown ==> a == Assembled(Snapshot(), pass, lines))
    {
      ghost var a := Assembly(Snapshot(), input, startAddress);
      Init(startAddress);
      ghost var st := Snapshot();
      thrown := Preprocess(input);
      if thrown {
        return;
      }
      assert Snapshot() == st;
      assert lines == Lines(Tokenizer.Tokens(Some(input)).value);
      assert a == Passes(Snapshot(), pass, lines);
      thrown := RunPasses();
    }

    /** `assemble`: the image, or None for a missing text or an exception; the warnings end the error list. */
    method Assemble(input: Option<string>, startAddress: int) returns (bin: Option<seq<int>>)
      modifies this, ep, tk
      ensures bin == Image(old(Snapshot()), input, startAddress)
      ensures input.Some? && Assembly(old(Snapshot()), input.value, startAddress).Assembled? ==>
        var a := Assembly(old(Snapshot()), input.value, startAddress);
        |errors| >= |a.st.errors| && errors[..|a.st.errors|] == a.st.errors &&
        Snapshot() == a.st.(errors := errors) && pass == a.pass && lines == a.lines &&
        UnusedWarnings(errors[|a.st.errors|..], a.st)
    {
      if input.None? {
        return None;
      }
      var thrown := AssembleText(input.value, startAddress);
      if thrown {
        return None;
      }
      WarnUnusedSymbols();
      bin := EncodeBinary();
    }
  }
}
