/**
 * What `assembleOneLine` does with particular lines: conditional
 * assembly (`DEFINE`, `IFDEF`/`IFUND`, `ELSE`, `ENDIF` and the skipping
 * they switch on), the layout of a line in the first pass, labels, `ORG`,
 * the deferral of an `EQU` whose expression cannot be evaluated yet, and
 * the pass in which an undefined operand becomes an error.
 */
module AssemblerLines {
  import opened Wrappers
  import opened JavaString
  import opened Bits
  import opened AsmErrors
  import opened AssemblerSpec
  import AP = AssemblerProperties
  import EP = ExpressionParser

  /** A head that none of the cases of the `switch` takes: a name starting a label or an assignment. */
  predicate Unswitched(head: string)
  {
    !IsInstruction(head) && FixedOpcode(head).None? && !IsConditional(head) &&
    head !in {"ALIGN", "DEFINE", "UNDEF", "XREF", "OPTION", "USED", "ORG", "DA", "DB", "DW", "DS"}
  }

  lemma HeadDefault(w: Work, pass: int, h: nat)
    requires h < |w.line.tokens| && Unswitched(w.line.tokens[h])
    ensures Head(w, pass, h) == Symbol(w, pass, h)
  {
  }

  // ---------------------------------------------------------------------------
  // Skipping

  /** While `skip` is on, a line whose head is not a conditional directive is marked translated and takes no space. */
  lemma SkippedHead(w: Work, pass: int, h: nat)
    requires h < |w.line.tokens| && w.st.skip && !IsConditional(w.line.tokens[h])
    ensures Scan(w, pass, h) == LineDone(w.st, w.line.(translated := true, offset := NoOffset))
  {
    assert Scan(w, pass, h) == Skip(w, pass, h);
  }

  /** A conditional directive is obeyed whether or not `skip` is on. */
  lemma ConditionalHead(w: Work, pass: int, h: nat)
    requires h < |w.line.tokens| && IsConditional(w.line.tokens[h]) && !w.line.translated
    ensures Scan(w, pass, h) == Turn(w, pass, h)
  {
    assert Scan(w, pass, h) == Skip(w, pass, h);
  }

  /** A whole skipped line: translated, at no offset, the offset and the errors as they were. */
  lemma SkippedLine(st: State, pass: int, line: AsmLine)
    requires |line.tokens| > 0 && st.skip && !IsConditional(line.tokens[0])
    ensures var r := OneLine(st, pass, line);
      r.LineDone? && r.line.translated && r.line.offset == NoOffset && r.line.tokens == line.tokens &&
      r.st.offset == st.offset && r.st.errors == st.errors && r.st.skip
  {
    SkippedHead(Begin(st, pass, line), pass, 0);
  }

  // ---------------------------------------------------------------------------
  // Conditional directives

  /** `DEFINE name` / `UNDEF name` store 1 / 0 under the mingled name; the line is translated and takes no space. */
  lemma DefineStores(w: Work, h: nat, value: int)
    requires |w.line.tokens| == h + 2 && ValidName(w.line.tokens[h + 1])
    ensures var r := Define(w, h, value);
      r.Stop? && r.w.st == w.st.(table := w.st.table[Mingle(w.line.tokens[h + 1]) := value]) &&
      r.w.line == w.line.(offset := NoOffset, translated := true) && r.w.incr == 0
  {
  }

  /** `IFDEF name` / `IFUND name` open a block and skip what follows exactly when the test fails. */
  lemma ConditionalOpens(w: Work, h: nat)
    requires |w.line.tokens| == h + 2 && ValidName(w.line.tokens[h + 1])
    requires w.line.tokens[h] == "IFDEF" || w.line.tokens[h] == "IFUND"
    ensures var r := Conditional(w, h);
      r.Stop? && r.w.st.skip == !Holds(w.st.table, w.line.tokens[h + 1], w.line.tokens[h] == "IFDEF") &&
      r.w.st.ifStacks == w.st.ifStacks + [[IfMark]] && r.w.st.errors == w.st.errors && r.w.st.table == w.st.table &&
      r.w.line == w.line.(offset := NoOffset, translated := true) && r.w.incr == 0
  {
    AP.OpenPushes(w.st.ifStacks);
  }

  /** After `DEFINE name`, `IFDEF name` assembles what follows and `IFUND name` skips it; after `UNDEF name` the other way round. */
  lemma DefineThenTest(w: Work, h: nat, value: int, c: Work, k: nat)
    requires |w.line.tokens| == h + 2 && ValidName(w.line.tokens[h + 1])
    requires value == DefinedValue || value == UndefinedValue
    requires c.st == Define(w, h, value).w.st
    requires |c.line.tokens| == k + 2 && c.line.tokens[k + 1] == w.line.tokens[h + 1]
    requires c.line.tokens[k] == "IFDEF" || c.line.tokens[k] == "IFUND"
    ensures Conditional(c, k).w.st.skip == ((c.line.tokens[k] == "IFDEF") != (value == DefinedValue))
  {
    DefineStores(w, h, value);
    ConditionalOpens(c, k);
    AP.DefineThenTest(w.st.table, w.line.tokens[h + 1]);
  }

  /** The top stack of a block just opened, and nothing after the IFDEF/IFUND or a balanced ELSE. */
  predicate InBlock(stacks: seq<seq<int>>)
  {
    stacks != [] && stacks[|stacks| - 1] == [IfMark]
  }

  /** `ELSE` inside a block turns skipping over and keeps the block open. */
  lemma ElseToggles(w: Work, h: nat)
    requires |w.line.tokens| == h + 1 && w.line.tokens[h] == "ELSE" && InBlock(w.st.ifStacks)
    ensures var r := ElseEnd(w, h);
      r.Stop? && r.w.st == w.st.(skip := !w.st.skip) &&
      r.w.line == w.line.(offset := NoOffset, translated := true) && r.w.incr == 0
  {
    AP.InsideBlock(w.st.ifStacks[..|w.st.ifStacks| - 1]);
    assert w.st.ifStacks[..|w.st.ifStacks| - 1] + [[IfMark]] == w.st.ifStacks;
  }

  /** `ENDIF` closes the block and turns skipping off. */
  lemma EndIfCloses(w: Work, h: nat)
    requires |w.line.tokens| == h + 1 && w.line.tokens[h] == "ENDIF" && InBlock(w.st.ifStacks)
    ensures var r := ElseEnd(w, h);
      r.Stop? && r.w.st == w.st.(skip := false, ifStacks := w.st.ifStacks[..|w.st.ifStacks| - 1]) &&
      r.w.line == w.line.(offset := NoOffset, translated := true) && r.w.incr == 0
  {
    AP.InsideBlock(w.st.ifStacks[..|w.st.ifStacks| - 1]);
    assert w.st.ifStacks[..|w.st.ifStacks| - 1] + [[IfMark]] == w.st.ifStacks;
  }

  /** `ELSE` or `ENDIF` outside any block records `E_PREPROCESS_UNBALANCED_IF`, leaves `skip` and does not translate the line. */
  lemma UnopenedElseEnd(w: Work, h: nat)
    requires |w.line.tokens| == h + 1 && (w.line.tokens[h] == "ELSE" || w.line.tokens[h] == "ENDIF") && w.st.ifStacks == []
    ensures var r := ElseEnd(w, h);
      r.Stop? && r.w.st.skip == w.st.skip && !r.w.line.translated &&
      r.w.st.errors == w.st.errors + [Err(PreprocessUnbalancedIf, "[" + w.line.tokens[h] + "]", w.line.srcLineNo)]
    requires !w.line.translated
  {
    var a := Aside(w);
    var op := if w.line.tokens[h] == "ELSE" then ElseMark else EndIfMark;
    AP.UnopenedElseOrEndIf(a.st, op, "[" + w.line.tokens[h] + "]", w.line.srcLineNo);
  }

  // ---------------------------------------------------------------------------
  // Layout

  /** An instruction without operands gets its word; in the first pass it is placed at the offset, which moves on by two. */
  lemma FixedInstructionLine(st: State, pass: int, line: AsmLine)
    requires |line.tokens| > 0 && FixedOpcode(line.tokens[0]).Some? && !st.skip
    ensures var r := OneLine(st, pass, line);
      r.LineDone? && r.line.bin == FixedOpcode(line.tokens[0]).value && r.line.translated &&
      r.line.offset == (if pass == FirstPass then st.offset else line.offset) &&
      r.st.offset == (if pass == FirstPass then st.offset + 2 else st.offset) && r.st.errors == st.errors
  {
    var w := Begin(st, pass, line);
    var head := line.tokens[0];
    assert !IsInstruction(head) && !IsConditional(head);
    assert Scan(w, pass, 0) == Skip(w, pass, 0);
    assert Skip(w, pass, 0) == Turn(w, pass, 0);
  }

  /** With `skip` off, the head at h is taken by the `switch`, on the line marked untranslated. */
  lemma Unskipped(w: Work, pass: int, h: nat)
    requires h < |w.line.tokens| && !w.st.skip && !IsConditional(w.line.tokens[h])
    ensures Scan(w, pass, h) == Turn(w.(line := w.line.(translated := false)), pass, h)
  {
    assert Scan(w, pass, h) == Skip(w, pass, h);
  }

  /** `name :` binds the name to the current address (the offset plus the start) and goes on after the colon. */
  lemma LabelBinds(w: Work, h: nat)
    requires h + 1 < |w.line.tokens| && ValidName(w.line.tokens[h]) && !IsReserved(w.line.tokens[h])
    ensures var name := w.line.tokens[h];
      var st := w.st;
      Label(w, h) == Again(w.(st := st.(table := st.table[name := st.offset + st.start], lineOf := st.lineOf[name := w.line.srcLineNo],
                                         used := if st.autoUse then st.used + {name} else st.used)), h + 2)
  {
  }

  /** A label's step through the token loop. */
  lemma LabelStep(w: Work, pass: int, h: nat)
    requires h + 1 < |w.line.tokens| && w.line.tokens[h + 1] == ":" && Unswitched(w.line.tokens[h])
    requires ValidName(w.line.tokens[h]) && !IsReserved(w.line.tokens[h]) && !w.st.skip
    ensures var w0 := w.(line := w.line.(translated := false));
      Scan(w, pass, h) == Scan(Label(w0, h).w, pass, h + 2)
  {
    var w0 := w.(line := w.line.(translated := false));
    Unskipped(w, pass, h);
    HeadDefault(w0, pass, h);
    assert Symbol(w0, pass, h) == Label(w0, h);
  }

  /** `name :` alone binds the name to the current address and takes no space. */
  lemma LabelLine(st: State, pass: int, line: AsmLine)
    requires |line.tokens| == 2 && line.tokens[1] == ":" && Unswitched(line.tokens[0])
    requires ValidName(line.tokens[0]) && !IsReserved(line.tokens[0]) && !st.skip
    ensures var r := OneLine(st, pass, line);
      var name := line.tokens[0];
      r.LineDone? && name in r.st.table && r.st.table[name] == st.offset + st.start &&
      r.line.translated && r.line.offset == NoOffset && r.st.offset == st.offset && r.st.errors == st.errors
  {
    var w := Begin(st, pass, line);
    var w0 := w.(line := w.line.(translated := false));
    LabelStep(w, pass, 0);
    LabelBinds(w0, 0);
    var w' := Label(w0, 0).w;
    assert w'.st.offset == st.offset && w'.st.start == st.start && w'.st.errors == st.errors;
    assert OneLine(st, pass, line) == LineDone(w'.st, w'.line.(translated := true, offset := NoOffset));
  }

  /** `name : CLS`: in the first pass the label gets the address the instruction is placed at. */
  lemma LabelledInstruction(st: State, line: AsmLine)
    requires |line.tokens| == 3 && line.tokens[1] == ":" && Unswitched(line.tokens[0])
    requires ValidName(line.tokens[0]) && !IsReserved(line.tokens[0]) && !st.skip
    requires FixedOpcode(line.tokens[2]).Some?
    ensures var r := OneLine(st, FirstPass, line);
      var name := line.tokens[0];
      r.LineDone? && name in r.st.table && r.st.table[name] == r.line.offset + st.start &&
      r.line.offset == st.offset && r.st.offset == st.offset + 2 && r.line.bin == FixedOpcode(line.tokens[2]).value
  {
    var w := Begin(st, FirstPass, line);
    var w0 := w.(line := w.line.(translated := false));
    LabelStep(w, FirstPass, 0);
    LabelBinds(w0, 0);
    var w' := Label(w0, 0).w;
    var head := line.tokens[2];
    assert !IsInstruction(head) && !IsConditional(head);
    Unskipped(w', FirstPass, 2);
  }

  /** `name : x` with x a plain name reads the token after x, past the end of the line, and raises. */
  lemma LabelThenNameRaises(st: State, pass: int, line: AsmLine)
    requires |line.tokens| == 3 && line.tokens[1] == ":" && Unswitched(line.tokens[0]) && Unswitched(line.tokens[2])
    requires ValidName(line.tokens[0]) && !IsReserved(line.tokens[0]) && !st.skip
    ensures OneLine(st, pass, line) == LineThrew
  {
    var w := Begin(st, pass, line);
    var w0 := w.(line := w.line.(translated := false));
    LabelStep(w, pass, 0);
    LabelBinds(w0, 0);
    NameAtEndRaises(Label(w0, 0).w, pass, 2);
  }

  /** A plain name as the last token of a line of two or more raises. */
  lemma NameAtEndRaises(w: Work, pass: int, h: nat)
    requires |w.line.tokens| == h + 1 && h > 0 && Unswitched(w.line.tokens[h]) && !w.st.skip
    ensures Scan(w, pass, h) == LineThrew
  {
    var w0 := w.(line := w.line.(translated := false));
    Unskipped(w, pass, h);
    HeadDefault(w0, pass, h);
  }

  /** `ORG n` rebases the addresses so that the current offset is at n; the offset itself stays. */
  lemma OrgRebases(w: Work, pass: int, h: nat, n: nat)
    requires |w.line.tokens| == h + 2 && w.line.tokens[h + 1] == Decimal(n) && n < 0x1000 && Decimal(n) !in w.st.table
    ensures var r := Org(w, pass, h);
      r.Stop? && r.w.st.offset + r.w.st.start == n && r.w.st.offset == w.st.offset && r.w.st.errors == w.st.errors &&
      r.w.line == w.line.(offset := NoOffset, translated := true) && r.w.incr == 0
  {
    AP.LiteralOperand(Aside(w).st, pass, "ORG", n, 12, w.line.srcLineNo);
    assert Pow2(12) == 0x1000;
  }

  // ---------------------------------------------------------------------------
  // Deferred assignments

  /** A well-formed `name EQU expr` line. */
  predicate AssignLine(t: seq<string>, h: nat)
  {
    |t| == h + 3 && (t[h + 1] == "EQU" || t[h + 1] == "=") && ValidName(t[h])
  }

  /**
   * An expression the parser cannot evaluate yet is deferred before the last
   * pass and an error in it; either way the line stays untranslated and
   * keeps its increment.
   */
  lemma AssignDeferred(w: Work, pass: int, h: nat)
    requires AssignLine(w.line.tokens, h)
    requires var e := Parse(w.st, w.line.tokens[h + 2]); !e.raised && !e.p.ok
    ensures var r := Assign(w, pass, h);
      var e := Parse(w.st, w.line.tokens[h + 2]);
      var t := w.line.tokens;
      r.Stop? && r.w.line == w.line && r.w.incr == w.incr && r.w.st.table == w.st.table && r.w.st.offset == w.st.offset &&
      (if pass == LastPass then
        r.w.st.errors == w.st.errors + [Err(UndefinedVariable, "Can't resolve : " + t[h + 2], w.line.srcLineNo)] &&
        r.w.st.unresolved == w.st.unresolved
      else
        r.w.st.errors == w.st.errors && r.w.st.unresolved == Put(w.st.unresolved, t[h], t[h + 2]))
  {
    assert ArgsOk(h, |w.line.tokens|, 2, 2);
  }

  /** The token loop over an `EQU` line that stops at its head ends as that head's work, finished. */
  lemma AssignScanEnds(w: Work, pass: int)
    requires AssignLine(w.line.tokens, 0) && Unswitched(w.line.tokens[0]) && !w.st.skip
    requires Assign(w.(line := w.line.(translated := false)), pass, 0).Stop?
    ensures Scan(w, pass, 0) == Finish(Assign(w.(line := w.line.(translated := false)), pass, 0).w, pass)
  {
    var w0 := w.(line := w.line.(translated := false));
    Unskipped(w, pass, 0);
    HeadDefault(w0, pass, 0);
    assert Symbol(w0, pass, 0) == Assign(w0, pass, 0);
  }

  /** A deferred `EQU` head in the first pass, finished: the line stays untranslated and takes `incr`. */
  lemma DeferredAssignFinish(w: Work)
    requires AssignLine(w.line.tokens, 0)
    requires var e := Parse(w.st, w.line.tokens[2]); !e.raised && !e.p.ok
    ensures var a := Assign(w, FirstPass, 0);
      a.Stop? &&
      var r := Finish(a.w, FirstPass);
      r.line == w.line && r.st.offset == w.st.offset + w.incr &&
      (w.line.tokens[0], w.line.tokens[2]) in r.st.unresolved && r.st.errors == w.st.errors
  {
    AssignDeferred(w, FirstPass, 0);
  }

  /**
   * In the first pass a deferred `EQU` line is placed at the offset and
   * takes a word, like an instruction, although the line encodes nothing.
   */
  lemma DeferredAssignTakesWord(st: State, line: AsmLine)
    requires AssignLine(line.tokens, 0) && Unswitched(line.tokens[0]) && !st.skip
    requires var e := Parse(Begin(st, FirstPass, line).st, line.tokens[2]); !e.raised && !e.p.ok
    ensures var r := OneLine(st, FirstPass, line);
      r.LineDone? && !r.line.translated && r.line.offset == st.offset && r.line.bin == line.bin &&
      r.st.offset == st.offset + 2 && (line.tokens[0], line.tokens[2]) in r.st.unresolved && r.st.errors == st.errors
  {
    var w := Begin(st, FirstPass, line);
    DeferredAssignFinish(w.(line := w.line.(translated := false)));
    AssignScanEnds(w, FirstPass);
  }

  // ---------------------------------------------------------------------------
  // Operands

  /** `checkOperandAndRange` keeps the errors so far and adds at most one. */
  lemma OperandErrors(st: State, pass: int, name: string, expr: string, bits: int, lineNo: int)
    ensures var o := CheckOperand(st, pass, name, expr, bits, lineNo);
      var n := |st.errors|;
      n <= |o.st.errors| <= n + 1 && o.st.errors[..n] == st.errors
  {
    var e := Parse(st, expr);
    var n := |st.errors|;
    var st1 := st.(used := e.used);
    if !e.raised && !e.p.ok && pass == LastPass {
      var st2 := Record(st1, UndefinedVariable, "(" + name + ")", lineNo);
      assert st2.errors[..n] == st.errors;
    } else if !e.raised && e.p.ok && !IsNumberInRange(e.p.value, bits) {
      var st2 := Record(st1, NumberOutOfRange, "(" + name + ") " + EP.FormatInt(e.p.value), lineNo);
      assert st2.errors[..n] == st.errors;
    }
  }

  /** It adds `E_UNDEFINED_VARIABLE` exactly in the last pass, for an operand the parser could not evaluate. */
  lemma UndefinedOnlyInLastPass(st: State, pass: int, name: string, expr: string, bits: int, lineNo: int)
    ensures var o := CheckOperand(st, pass, name, expr, bits, lineNo);
      var n := |st.errors|;
      (|o.st.errors| > n && o.st.errors[n].code == UndefinedVariable) <==>
        pass == LastPass && !o.raised && !Parse(st, expr).p.ok
  {
    var e := Parse(st, expr);
    var n := |st.errors|;
    if !e.raised && e.p.ok && !IsNumberInRange(e.p.value, bits) {
      assert CheckOperand(st, pass, name, expr, bits, lineNo).st.errors[n].code == NumberOutOfRange;
    }
  }

  // ---------------------------------------------------------------------------
  // Data directives and instruction lines

  /** The value `parse` gives an operand with a symbol table: it does not depend on the symbols used so far. */
  function OperandValue(table: map<string, int>, expr: string): int
  {
    EP.Parsed(expr, table, {}).end.p.value
  }

  /** `checkOperandAndRange` answers the operand's value and changes only the used set and the errors. */
  lemma CheckOperandValue(st: State, pass: int, name: string, expr: string, bits: int, lineNo: int)
    ensures var o := CheckOperand(st, pass, name, expr, bits, lineNo);
      o.value == OperandValue(st.table, expr) && o.st == st.(used := o.st.used, errors := o.st.errors)
  {
    EP.ParsedSame(expr, st.table, st.used, {});
  }

  /**
   * `DB`'s loop from token i: the state changes only in the used set and the
   * errors, the bytes before operand i and the padding are kept, and when
   * every operand is accepted byte k is the value of operand k.
   */
  lemma {:induction false} DbFillValues(st: State, pass: int, t: seq<string>, h: nat, i: nat, data: seq<int>, lineNo: int)
    requires h < i <= |t| && |data| >= |t| - h - 1
    ensures var f := DbFill(st, pass, t, h, i, data, lineNo);
      f.st == st.(used := f.st.used, errors := f.st.errors) &&
      (forall k :: 0 <= k < |data| && !(i - h - 1 <= k < |t| - h - 1) ==> f.data[k] == data[k]) &&
      (f.ok ==> !f.raised && forall k :: i - h - 1 <= k < |t| - h - 1 ==>
        f.data[k] == OperandValue(st.table, t[h + 1 + k]) && IsNumberInRange(f.data[k], 8))
    decreases |t| - i
  {
    if i < |t| {
      var o := CheckOperand(st, pass, "DB", t[i], 8, lineNo);
      CheckOperandValue(st, pass, "DB", t[i], 8, lineNo);
      assert DbFill(st, pass, t, h, i, data, lineNo) == DbByte(st, pass, t, h, i, data, lineNo);
      if !o.raised && o.ok {
        var d1 := data[i - h - 1 := o.value];
        DbFillValues(o.st, pass, t, h, i + 1, d1, lineNo);
        var f := DbFill(o.st, pass, t, h, i + 1, d1, lineNo);
        assert DbFill(st, pass, t, h, i, data, lineNo) == f;
        assert f.data[i - h - 1] == o.value;
        assert f.ok ==> forall k :: i - h - 1 <= k < |t| - h - 1 ==>
          f.data[k] == OperandValue(st.table, t[h + 1 + k]) && IsNumberInRange(f.data[k], 8);
      }
    }
  }

  /** Bytes 2k and 2k + 1 of data hold the 16-bit word v, high byte first. */
  predicate WordAt(data: seq<int>, k: int, v: int)
  {
    0 <= 2 * k && 2 * k + 1 < |data| && IsNumberInRange(v, 16) && data[2 * k] == v / 0x100 && data[2 * k + 1] == v % 0x100
  }

  /**
   * `DW`'s loop from token i: the state changes only in the used set and the
   * errors, the bytes before operand i are kept, and when every operand is
   * accepted bytes 2k and 2k + 1 are the high and the low byte of operand k.
   */
  lemma {:induction false} DwFillValues(st: State, pass: int, t: seq<string>, h: nat, i: nat, data: seq<int>, lineNo: int)
    requires h < i <= |t| && |data| == 2 * (|t| - h - 1)
    ensures var f := DwFill(st, pass, t, h, i, data, lineNo);
      f.st == st.(used := f.st.used, errors := f.st.errors) &&
      (forall k :: 0 <= k < 2 * (i - h - 1) ==> f.data[k] == data[k]) &&
      (f.ok ==> !f.raised && forall j :: i <= j < |t| ==> WordAt(f.data, j - h - 1, OperandValue(st.table, t[j])))
    decreases |t| - i
  {
    if i < |t| {
      var o := CheckOperand(st, pass, "DW", t[i], 16, lineNo);
      CheckOperandValue(st, pass, "DW", t[i], 16, lineNo);
      assert DwFill(st, pass, t, h, i, data, lineNo) == DwWord(st, pass, t, h, i, data, lineNo);
      if !o.raised && o.ok {
        var k := i - h - 1;
        var d1 := data[2 * k := o.value / 0x100][2 * k + 1 := o.value % 0x100];
        DwFillValues(o.st, pass, t, h, i + 1, d1, lineNo);
        var f := DwFill(o.st, pass, t, h, i + 1, d1, lineNo);
        assert DwFill(st, pass, t, h, i, data, lineNo) == f;
        assert o.st.table == st.table;
        assert WordAt(f.data, k, OperandValue(st.table, t[i]));
      }
    }
  }

  /** The alignment a line is laid out with: the current one in the first pass, the line's own later. */
  function LayoutAlign(st: State, pass: int, line: AsmLine): bool
  {
    if pass == FirstPass then st.wordAlign else line.align
  }

  /** The state a line's operands are read in: in the first pass `?` is the current address. */
  function LayoutTableState(st: State, pass: int, line: AsmLine): State
  {
    Begin(st, pass, line).st
  }

  /** The symbol table operands are read with. */
  function LayoutTable(st: State, pass: int, line: AsmLine): map<string, int>
  {
    LayoutTableState(st, pass, line).table
  }

  /** Where a line is placed: at the current offset in the first pass, where it was later. */
  predicate PlacedAt(st: State, pass: int, line: AsmLine, r: LineRun, incr: int)
  {
    r.LineDone? &&
    r.line.offset == (if pass == FirstPass then st.offset else line.offset) &&
    r.st.offset == (if pass == FirstPass then st.offset + incr else st.offset)
  }

  /** A directive that is neither an instruction nor a conditional goes to the `switch`. */
  lemma DirectiveTurn(st: State, pass: int, line: AsmLine)
    requires |line.tokens| > 0 && !st.skip && line.tokens[0] in {"DA", "DB", "DW", "DS"}
    ensures var w := Begin(st, pass, line);
      OneLine(st, pass, line) == Turn(w.(line := w.line.(translated := false)), pass, 0)
  {
    Unskipped(Begin(st, pass, line), pass, 0);
  }

  /** A head that stops the line ends it with `Finish`; one that raises ends it with the exception. */
  lemma TurnEnds(w: Work, pass: int, h: nat)
    requires h < |w.line.tokens|
    ensures Head(w, pass, h).Stop? ==> Turn(w, pass, h) == Finish(Head(w, pass, h).w, pass)
    ensures Head(w, pass, h).Raise? ==> Turn(w, pass, h) == LineThrew
  {
  }

  /** The work a directive hands to `Finish`: the line and offset where they were, and the increment. */
  predicate KeptStop(w: Work, n: Next, incr: int)
  {
    n.Stop? && n.w.st.offset == w.st.offset && n.w.line.offset == w.line.offset && n.w.incr == incr
  }

  /** The same, with `incr` bytes of data. */
  predicate DataStop(w: Work, n: Next, incr: int)
  {
    KeptStop(w, n, incr) && n.w.line.data.Some? && |n.w.line.data.value| == incr
  }

  /** `Da` on its own: a well-formed `DA` stops with the padded ASCII bytes. */
  lemma DaWork(w: Work)
    requires |w.line.tokens| == 2 && w.line.tokens[0] == "DA"
    ensures var ba := Ascii(w.line.tokens[1]);
      var incr := Padded(|ba|, w.line.align);
      var n := Da(w, 0);
      DataStop(w, n, incr) && n.w.line.translated && n.w.line.data == Some(ba + Zeros(incr - |ba|)) && n.w.st == w.st
  {
  }

  /** `Db` on its own, through `DbFillValues`. */
  lemma DbWork(w: Work, pass: int)
    requires 2 <= |w.line.tokens| <= 1024 && w.line.tokens[0] == "DB" && !w.line.translated
    ensures var t := w.line.tokens;
      var n := |t| - 1;
      var incr := Padded(n, w.line.align);
      var r := Db(w, pass, 0);
      r.Stop? ==> (DataStop(w, r, incr) &&
        (r.w.line.translated ==>
          (forall k :: 0 <= k < n ==> r.w.line.data.value[k] == OperandValue(w.st.table, t[k + 1])) &&
          (forall k :: n <= k < incr ==> r.w.line.data.value[k] == 0)))
  {
    var t := w.line.tokens;
    var incr := Padded(|t| - 1, w.line.align);
    var f := DbFill(w.st, pass, t, 0, 1, Zeros(incr), w.line.srcLineNo);
    DbFillValues(w.st, pass, t, 0, 1, Zeros(incr), w.line.srcLineNo);
    assert Db(w, pass, 0) == Filled(w, f, incr);
  }

  /** `Dw` on its own, through `DwFillValues`. */
  lemma DwWork(w: Work, pass: int)
    requires 2 <= |w.line.tokens| <= 512 && w.line.tokens[0] == "DW" && !w.line.translated
    ensures var t := w.line.tokens;
      var n := |t| - 1;
      var r := Dw(w, pass, 0);
      r.Stop? ==> (DataStop(w, r, 2 * n) &&
        (r.w.line.translated ==> forall j :: 1 <= j <= n ==> WordAt(r.w.line.data.value, j - 1, OperandValue(w.st.table, t[j]))))
  {
    var t := w.line.tokens;
    var incr := (|t| - 1) * 2;
    var f := DwFill(w.st, pass, t, 0, 1, Zeros(incr), w.line.srcLineNo);
    DwFillValues(w.st, pass, t, 0, 1, Zeros(incr), w.line.srcLineNo);
    assert Dw(w, pass, 0) == Filled(w, f, incr);
  }

  /** `Ds` on its own: an accepted count stops with that many zeros, a refused one with the default increment. */
  lemma DsWork(w: Work, pass: int)
    requires |w.line.tokens| == 2 && w.line.tokens[0] == "DS" && w.incr == 2 && !w.line.translated
    ensures var v := OperandValue(w.st.table, w.line.tokens[1]);
      var incr := Padded(v, w.line.align);
      var r := Ds(w, pass, 0);
      r.Stop? && r.w.line.translated ==> IsNumberInRange(v, 8) && DataStop(w, r, incr) && r.w.line.data == Some(Zeros(incr))
    ensures var r := Ds(w, pass, 0);
      r.Stop? && !r.w.line.translated ==> KeptStop(w, r, 2)
  {
    CheckOperandValue(w.st, pass, "DS", w.line.tokens[1], 8, w.line.srcLineNo);
  }

  /** Where a line run from w ends: at w's line offset, and in the first pass incr further on. */
  predicate EndsAt(w: Work, pass: int, r: LineRun, incr: int)
  {
    r.LineDone? && r.line.offset == w.line.offset &&
    r.st.offset == (if pass == FirstPass then w.st.offset + incr else w.st.offset)
  }

  /** The `switch` on `DA` and the end of the line. */
  lemma DaTurn(w: Work, pass: int)
    requires |w.line.tokens| == 2 && w.line.tokens[0] == "DA"
    ensures var r := Turn(w, pass, 0);
      var ba := Ascii(w.line.tokens[1]);
      var incr := Padded(|ba|, w.line.align);
      EndsAt(w, pass, r, incr) && r.line.translated && r.line.data == Some(ba + Zeros(incr - |ba|)) && r.st.errors == w.st.errors
  {
    assert Head(w, pass, 0) == Da(w, 0);
    DaWork(w);
    TurnEnds(w, pass, 0);
  }

  /** The `switch` on `DB` and the end of the line. */
  lemma DbTurn(w: Work, pass: int)
    requires 2 <= |w.line.tokens| <= 1024 && w.line.tokens[0] == "DB" && !w.line.translated
    ensures var t := w.line.tokens;
      var n := |t| - 1;
      var incr := Padded(n, w.line.align);
      var r := Turn(w, pass, 0);
      r.LineDone? ==> (EndsAt(w, pass, r, incr) && r.line.data.Some? && |r.line.data.value| == incr &&
        (r.line.translated ==>
          (forall k :: 0 <= k < n ==> r.line.data.value[k] == OperandValue(w.st.table, t[k + 1])) &&
          (forall k :: n <= k < incr ==> r.line.data.value[k] == 0)))
  {
    assert Head(w, pass, 0) == Db(w, pass, 0);
    DbWork(w, pass);
    TurnEnds(w, pass, 0);
  }

  /** The `switch` on `DW` and the end of the line. */
  lemma DwTurn(w: Work, pass: int)
    requires 2 <= |w.line.tokens| <= 512 && w.line.tokens[0] == "DW" && !w.line.translated
    ensures var t := w.line.tokens;
      var n := |t| - 1;
      var r := Turn(w, pass, 0);
      r.LineDone? ==> (EndsAt(w, pass, r, 2 * n) && r.line.data.Some? && |r.line.data.value| == 2 * n &&
        (r.line.translated ==> forall j :: 1 <= j <= n ==> WordAt(r.line.data.value, j - 1, OperandValue(w.st.table, t[j]))))
  {
    assert Head(w, pass, 0) == Dw(w, pass, 0);
    DwWork(w, pass);
    TurnEnds(w, pass, 0);
  }

  /** The `switch` on `DS` and the end of the line. */
  lemma DsTurn(w: Work, pass: int)
    requires |w.line.tokens| == 2 && w.line.tokens[0] == "DS" && w.incr == 2 && !w.line.translated
    ensures var r := Turn(w, pass, 0);
      var v := OperandValue(w.st.table, w.line.tokens[1]);
      var incr := Padded(v, w.line.align);
      r.LineDone? ==>
        (r.line.translated ==> IsNumberInRange(v, 8) && EndsAt(w, pass, r, incr) && r.line.data == Some(Zeros(incr))) &&
        (!r.line.translated ==> EndsAt(w, pass, r, 2))
  {
    assert Head(w, pass, 0) == Ds(w, pass, 0);
    DsWork(w, pass);
    TurnEnds(w, pass, 0);
  }

  /** `DA 'text'`: the ASCII bytes, zero-padded to a word when aligned, placed at the offset, which moves on by their length. */
  lemma DaLayout(st: State, pass: int, line: AsmLine)
    requires |line.tokens| == 2 && line.tokens[0] == "DA" && !st.skip
    ensures var r := OneLine(st, pass, line);
      var ba := Ascii(line.tokens[1]);
      var incr := Padded(|ba|, LayoutAlign(st, pass, line));
      PlacedAt(st, pass, line, r, incr) && r.line.translated &&
      r.line.data == Some(ba + Zeros(incr - |ba|)) && r.st.errors == st.errors
  {
    var w := Begin(st, pass, line);
    DirectiveTurn(st, pass, line);
    DaTurn(w.(line := w.line.(translated := false)), pass);
  }

  /** `DB b, ...`: n operands take `Padded(n)` bytes at the offset; translated, they hold the operands' values, then zeros. */
  lemma DbLayout(st: State, pass: int, line: AsmLine)
    requires 2 <= |line.tokens| <= 1024 && line.tokens[0] == "DB" && !st.skip
    ensures var r := OneLine(st, pass, line);
      var n := |line.tokens| - 1;
      var incr := Padded(n, LayoutAlign(st, pass, line));
      r.LineDone? ==>
        PlacedAt(st, pass, line, r, incr) && r.line.data.Some? && |r.line.data.value| == incr &&
        (r.line.translated ==>
          (forall k :: 0 <= k < n ==> r.line.data.value[k] == OperandValue(LayoutTable(st, pass, line), line.tokens[k + 1])) &&
          (forall k :: n <= k < incr ==> r.line.data.value[k] == 0))
  {
    var w := Begin(st, pass, line);
    DirectiveTurn(st, pass, line);
    DbTurn(w.(line := w.line.(translated := false)), pass);
  }

  /** `DW w, ...`: n words take 2n bytes at the offset; translated, each word is stored high byte first. */
  lemma DwLayout(st: State, pass: int, line: AsmLine)
    requires 2 <= |line.tokens| <= 512 && line.tokens[0] == "DW" && !st.skip
    ensures var r := OneLine(st, pass, line);
      var n := |line.tokens| - 1;
      r.LineDone? ==>
        PlacedAt(st, pass, line, r, 2 * n) && r.line.data.Some? && |r.line.data.value| == 2 * n &&
        (r.line.translated ==> forall j :: 1 <= j <= n ==> WordAt(r.line.data.value, j - 1, OperandValue(LayoutTable(st, pass, line), line.tokens[j])))
  {
    var w := Begin(st, pass, line);
    DirectiveTurn(st, pass, line);
    DwTurn(w.(line := w.line.(translated := false)), pass);
  }

  /**
   * `DS n`: an accepted n takes `Padded(n)` zero bytes at the offset; a
   * refused n leaves the line untranslated and, like any line, moving the
   * offset by the default two.
   */
  lemma DsLayout(st: State, pass: int, line: AsmLine)
    requires |line.tokens| == 2 && line.tokens[0] == "DS" && !st.skip
    ensures var r := OneLine(st, pass, line);
      var v := OperandValue(LayoutTable(st, pass, line), line.tokens[1]);
      var incr := Padded(v, LayoutAlign(st, pass, line));
      r.LineDone? ==>
        (r.line.translated ==>
          IsNumberInRange(v, 8) && PlacedAt(st, pass, line, r, incr) && r.line.data == Some(Zeros(incr))) &&
        (!r.line.translated ==> PlacedAt(st, pass, line, r, 2))
  {
    var w := Begin(st, pass, line);
    var w0 := w.(line := w.line.(translated := false));
    DirectiveTurn(st, pass, line);
    DsTurn(w0, pass);
  }

  /** The `switch` on an instruction and the end of the line. */
  lemma InstructionTurn(w: Work, pass: int)
    requires |w.line.tokens| > 0 && IsInstruction(w.line.tokens[0]) && w.incr == 2 && !w.line.translated
    ensures var r := Turn(w, pass, 0);
      var e := Instruction(w.st, pass, w.line.tokens, 0, w.line.srcLineNo);
      (r.LineThrew? <==> e.raised) &&
      (!e.raised ==> (EndsAt(w, pass, r, 2) && r.st.errors == e.st.errors &&
        (r.line.translated <==> e.bin.Some?) && (e.bin.Some? ==> r.line.bin == e.bin.value)))
  {
    TurnEnds(w, pass, 0);
  }

  /** The token loop on a line headed by an instruction, with `skip` off. */
  lemma InstructionScan(w: Work, pass: int)
    requires |w.line.tokens| > 0 && IsInstruction(w.line.tokens[0]) && w.incr == 2 && !w.st.skip
    ensures var r := Scan(w, pass, 0);
      var e := Instruction(w.st, pass, w.line.tokens, 0, w.line.srcLineNo);
      (r.LineThrew? <==> e.raised) &&
      (!e.raised ==> (EndsAt(w, pass, r, 2) && r.st.errors == e.st.errors &&
        (r.line.translated <==> e.bin.Some?) && (e.bin.Some? ==> r.line.bin == e.bin.value)))
  {
    Unskipped(w, pass, 0);
    InstructionTurn(w.(line := w.line.(translated := false)), pass);
  }

  /**
   * A line headed by an instruction: it raises exactly when the encoding
   * does; otherwise it takes two bytes at the offset, and it is translated,
   * with that word, exactly when the encoding gives one.
   */
  lemma InstructionLine(st: State, pass: int, line: AsmLine)
    requires |line.tokens| > 0 && IsInstruction(line.tokens[0]) && !st.skip
    ensures var r := OneLine(st, pass, line);
      var e := Instruction(LayoutTableState(st, pass, line), pass, line.tokens, 0, line.srcLineNo);
      (r.LineThrew? <==> e.raised) &&
      (!e.raised ==> (PlacedAt(st, pass, line, r, 2) && r.st.errors == e.st.errors &&
        (r.line.translated <==> e.bin.Some?) && (e.bin.Some? ==> r.line.bin == e.bin.value)))
  {
    if pass == FirstPass {
      InstructionScan(Begin(st, FirstPass, line), FirstPass);
    } else {
      assert Begin(st, pass, line) == Work(st, line, 2);
      InstructionScan(Work(st, line, 2), pass);
    }
  }
}
