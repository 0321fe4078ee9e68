/**
 * What the assembler's definitions promise: register names and their
 * numbers, the operand ranges, the field layout of instruction words, the
 * conditional-assembly stacks, the layout of lines in the first pass, the
 * passes and the resolution of deferred expressions, and the image.
 */
module AssemblerProperties {
  import opened Wrappers
  import opened JavaString
  import opened Bits
  import opened AsmErrors
  import opened AssemblerSpec
  import EP = ExpressionParser
  import XP = ExpressionProperties

  // ---------------------------------------------------------------------------
  // Registers and operands

  lemma HexDigitsDistinct(i: nat, j: nat)
    requires i < 16 && j < 16 && HexDigits[i] == HexDigits[j]
    ensures i == j
  {
    assert forall k :: 0 <= k < 16 ==> HexDigits[k] as int == if k < 10 then 48 + k else 55 + k;
  }

  /** `isVxVy` reads back the register a name was made from. */
  lemma RegisterRoundTrip(x: nat)
    requires x < 16
    ensures IsVxVy(Register(x)) == EP.Pair(true, x)
  {
    var p := IsVxVy(Register(x));
    assert Register(x)[1] == HexDigits[x];
    HexDigitsDistinct(p.value, x);
  }

  /** Every name `isVxVy` accepts is the name of the register it returns. */
  lemma RegisterNames(s: string)
    requires IsVxVy(s).ok
    ensures s == Register(IsVxVy(s).value)
  {
    var r := Register(IsVxVy(s).value);
    assert r[0] == s[0] && r[1] == s[1];
  }

  /** Neither a three-character name nor lower case is a register. */
  lemma NotRegisters()
    ensures !IsVxVy("V10").ok && !IsVxVy("v1").ok && !IsVxVy("VG").ok && !IsVxVy("V").ok
  {
    assert "VG"[1] == 'G';
  }

  lemma {:induction false} PowerOfTwo(n: nat)
    ensures EP.IntPow(2, n) == Pow2(n)
  {
    if n > 0 {
      PowerOfTwo(n - 1);
    }
  }

  lemma {:induction false} Pow2Grows(a: nat, b: nat)
    requires a <= b
    ensures Pow2(a) <= Pow2(b)
  {
    if a < b {
      Pow2Grows(a, b - 1);
    }
  }

  lemma {:induction false} Pow2Sum(a: nat, b: nat)
    ensures Pow2(a + b) == Pow2(a) * Pow2(b)
  {
    if b > 0 {
      Pow2Sum(a, b - 1);
      assert Pow2(a + b) == 2 * Pow2(a + b - 1);
    }
  }

  lemma {:induction false} Pow2Large()
    ensures Pow2(30) == 0x4000_0000 && Pow2(31) == 0x8000_0000
  {
    assert Pow2(10) == 0x400;
    Pow2Sum(10, 10);
    Pow2Sum(20, 10);
    Pow2Sum(30, 1);
  }

  /**
   * `isNumberInRange`: below 31 bits the range is exactly 0 .. 2^n - 1; at
   * 31 bits the saturated cast leaves out the largest `int` itself.
   */
  lemma RangeIsPowerOfTwo(v: int, n: nat)
    requires n <= 30
    ensures IsNumberInRange(v, n) <==> 0 <= v < Pow2(n)
  {
    PowerOfTwo(n);
    Pow2Grows(n, 30);
    Pow2Large();
  }

  lemma SaturatedRange(v: int)
    ensures IsNumberInRange(v, 31) <==> 0 <= v < EP.MaxInt
  {
    PowerOfTwo(31);
    Pow2Large();
  }

  /** The four operand widths of the instruction set. */
  lemma OperandWidths(v: int)
    ensures IsNumberInRange(v, 4) <==> 0 <= v < 0x10
    ensures IsNumberInRange(v, 8) <==> 0 <= v < 0x100
    ensures IsNumberInRange(v, 12) <==> 0 <= v < 0x1000
    ensures IsNumberInRange(v, 16) <==> 0 <= v < 0x1_0000
  {
    RangeIsPowerOfTwo(v, 4);
    RangeIsPowerOfTwo(v, 8);
    RangeIsPowerOfTwo(v, 12);
    RangeIsPowerOfTwo(v, 16);
    assert Pow2(4) == 0x10 && Pow2(8) == 0x100 && Pow2(12) == 0x1000 && Pow2(16) == 0x1_0000;
  }

  /** `checkNumOfArgs` passes exactly when the operand count after the head is within bounds, and otherwise records one error. */
  lemma ArgumentCount(st: State, name: string, hpos: int, count: int, min: int, max: int, lineNo: int)
    ensures CheckArgs(st, name, hpos, count, min, max, lineNo).ok <==> min <= count - 1 - hpos <= max
    ensures CheckArgs(st, name, hpos, count, min, max, lineNo).st ==
      if min <= count - 1 - hpos <= max then st else st.(errors := st.errors + [Err(WrongNumArgs, "(" + name + ")", lineNo)])
  {
  }

  /** A conditional-assembly name never collides with a variable or label, whose names `checkVarNameValid` restricts. */
  lemma MingledApart(name: string, symbol: string)
    requires ValidName(symbol)
    ensures Mingle(name) != symbol && !ValidName(Mingle(name))
  {
    assert !NameChar(Mingle(name)[0]);
  }

  lemma MingleInjective(a: string, b: string)
    requires Mingle(a) == Mingle(b)
    ensures a == b
  {
  }

  /** A decimal literal that is not itself a symbol parses to its value and records nothing. */
  lemma ParseLiteral(st: State, n: nat)
    requires n <= EP.MaxInt && Decimal(n) !in st.table
    ensures Parse(st, Decimal(n)) == EP.Ending(false, EP.Pair(true, n), st.used)
  {
    var e := XP.Lit(n);
    assert XP.TopPrint(e) == [Decimal(n)];
    assert XP.Concat([Decimal(n)]) == Decimal(n) by {
      assert [Decimal(n)][..0] == [];
    }
    XP.ParsesAsTree(e, st.table, st.used);
  }

  /** A literal operand within `bits` bits is accepted with its value; a larger one records `E_NUMBER_OUT_OF_RANGE`. */
  lemma LiteralOperand(st: State, pass: int, name: string, n: nat, bits: nat, lineNo: int)
    requires n <= EP.MaxInt && Decimal(n) !in st.table && bits <= 30
    ensures var o := CheckOperand(st, pass, name, Decimal(n), bits, lineNo);
      if n < Pow2(bits) then o == Operand(false, true, n, st)
      else o == Operand(false, false, n, Record(st, NumberOutOfRange, "(" + name + ") " + EP.FormatInt(n), lineNo))
  {
    ParseLiteral(st, n);
    RangeIsPowerOfTwo(n, bits);
  }

  // ---------------------------------------------------------------------------
  // Instruction words

  /** The four fields of a word: the opcode nibble, x, y and the low nibble. */
  predicate Fields(w: int, op: int, x: int, y: int, n: int)
  {
    w / 0x1000 == op && (w / 0x100) % 0x10 == x && (w / 0x10) % 0x10 == y && w % 0x10 == n
  }

  lemma FieldsOf(op: nat, x: nat, y: nat, n: nat)
    requires op < 16 && x < 16 && y < 16 && n < 16
    ensures Fields(op * 0x1000 + x * 0x100 + y * 0x10 + n, op, x, y, n)
  {
    var w := op * 0x1000 + x * 0x100 + y * 0x10 + n;
    assert w / 0x10 == op * 0x100 + x * 0x10 + y;
    assert w / 0x100 == op * 0x10 + x;
  }

  /** `ADD Vx, Vy` is 8xy4: x in bits 8-11, y in bits 4-7. */
  lemma AddRegisters(st: State, pass: int, x: nat, y: nat, lineNo: int)
    requires x < 16 && y < 16
    ensures Add(st, pass, ["ADD", Register(x), Register(y)], 0, lineNo) == Emit(false, Some(0x8004 + x * 0x100 + y * 0x10), st)
  {
    var t := ["ADD", Register(x), Register(y)];
    RegisterRoundTrip(x);
    RegisterRoundTrip(y);
    assert IsVxVy(t[1]) == EP.Pair(true, x);
    assert IsVxVy(t[2]) == EP.Pair(true, y);
  }

  /** `LD Vx, kk` is 6xkk for a byte. */
  lemma LoadByte(st: State, pass: int, x: nat, n: nat, lineNo: int)
    requires x < 16 && n < 0x100 && Decimal(n) !in st.table
    ensures LoadRegister(st, pass, x, Decimal(n), lineNo) == Emit(false, Some(0x6000 + x * 0x100 + n), st)
    ensures Fields(0x6000 + x * 0x100 + n, 6, x, n / 0x10, n % 0x10)
  {
    LiteralOperand(st, pass, "LD", n, 8, lineNo);
    assert Pow2(8) == 0x100;
    var d := Decimal(n);
    assert '0' <= d[0] <= '9';
    assert d != "DT" && d != "K" && d != "[I]" && d != "R" && !IsVxVy(d).ok;
    FieldsOf(6, x, n / 0x10, n % 0x10);
    assert n / 0x10 * 0x10 + n % 0x10 == n;
  }

  /** A literal beyond a byte leaves `LD Vx, kk` without a word and records `E_NUMBER_OUT_OF_RANGE`. */
  lemma LoadByteOutOfRange(st: State, pass: int, x: nat, n: nat, lineNo: int)
    requires x < 16 && 0x100 <= n <= EP.MaxInt && Decimal(n) !in st.table
    ensures LoadRegister(st, pass, x, Decimal(n), lineNo) ==
      Emit(false, None, Record(st, NumberOutOfRange, "(LD) " + EP.FormatInt(n), lineNo))
  {
    LiteralOperand(st, pass, "LD", n, 8, lineNo);
    assert Pow2(8) == 0x100;
    assert "(" + "LD" + ") " == "(LD) ";
    var d := Decimal(n);
    assert '0' <= d[0] <= '9';
    assert d != "DT" && d != "K" && d != "[I]" && d != "R" && !IsVxVy(d).ok;
  }

  /** `LD` with a register first takes the register forms. */
  lemma LoadToRegister(st: State, pass: int, t: seq<string>, x: nat, lineNo: int)
    requires x < 16 && |t| == 3 && t[0] == "LD" && t[1] == Register(x)
    ensures Load(st, pass, t, 0, lineNo) == LoadRegister(st, pass, x, t[2], lineNo)
  {
    RegisterRoundTrip(x);
  }

  /** `JP nnn` is 1nnn. */
  lemma JumpAddress(st: State, pass: int, n: nat, lineNo: int)
    requires n < 0x1000 && Decimal(n) !in st.table
    ensures Jump(st, pass, ["JP", Decimal(n)], 0, lineNo) == Emit(false, Some(0x1000 + n), st)
  {
    LiteralOperand(st, pass, "JP", n, 12, lineNo);
    assert Pow2(12) == 0x1000;
  }

  /** `ADD V1, V2` = 0x8124. */
  lemma SampleAdd(st: State, pass: int, t: seq<string>, lineNo: int)
    requires t == ["ADD", "V1", "V2"]
    ensures Instruction(st, pass, t, 0, lineNo).bin == Some(0x8124)
  {
    assert Register(1) == "V1" && Register(2) == "V2";
    AddRegisters(st, pass, 1, 2, lineNo);
  }

  /** `LD V3, 255` = 0x63FF. */
  lemma SampleLoad(st: State, pass: int, t: seq<string>, lineNo: int)
    requires t == ["LD", "V3", "255"] && "255" !in st.table
    ensures Instruction(st, pass, t, 0, lineNo).bin == Some(0x63FF)
  {
    assert Register(3) == "V3" && Decimal(255) == "255";
    assert Instruction(st, pass, t, 0, lineNo) == Load(st, pass, t, 0, lineNo);
    LoadToRegister(st, pass, t, 3, lineNo);
    LoadByte(st, pass, 3, 255, lineNo);
  }

  // ---------------------------------------------------------------------------
  // Conditional assembly

  /** A block of conditional assembly: the blocks nested before `ELSE`, whether there is an `ELSE`, and the blocks after it. */
  datatype Block = Block(body: seq<Block>, hasElse: bool, alt: seq<Block>)

  /** The marks `checkIfBalance` sees for a block, in order. */
  function Marks(b: Block): seq<int>
    decreases b, 1
  {
    [IfMark] + MarksAll(b.body) + ElsePart(b) + [EndIfMark]
  }

  function ElsePart(b: Block): seq<int>
    decreases b, 0
  {
    if b.hasElse then [ElseMark] + MarksAll(b.alt) else []
  }

  function MarksAll(bs: seq<Block>): seq<int>
    decreases bs, 2
  {
    if bs == [] then [] else Marks(bs[0]) + MarksAll(bs[1..])
  }

  /** `checkIfBalance` called with each mark in turn: whether all of them balanced, and the stacks after the last. */
  function RunBalance(stacks: seq<seq<int>>, ops: seq<int>): (bool, seq<seq<int>>)
    decreases |ops|
  {
    if ops == [] then (true, stacks)
    else
      var r := Balance(stacks, ops[0]);
      var q := RunBalance(r.1, ops[1..]);
      (r.0 && q.0, q.1)
  }

  lemma {:induction false} RunBalanceConcat(stacks: seq<seq<int>>, a: seq<int>, b: seq<int>)
    ensures var ra := RunBalance(stacks, a);
      var rb := RunBalance(ra.1, b);
      RunBalance(stacks, a + b) == (ra.0 && rb.0, rb.1)
    decreases |a|
  {
    if a == [] {
      assert a + b == b;
    } else {
      var r := Balance(stacks, a[0]);
      assert (a + b)[0] == a[0] && (a + b)[1..] == a[1..] + b;
      RunBalanceConcat(r.1, a[1..], b);
    }
  }

  lemma RunSingle(stacks: seq<seq<int>>, op: int)
    ensures RunBalance(stacks, [op]) == Balance(stacks, op)
  {
    assert [op][1..] == [];
  }

  /** IFDEF/IFUND opens a stack of its own above the current ones. */
  lemma OpenPushes(stacks: seq<seq<int>>)
    ensures Balance(stacks, IfMark) == (true, stacks + [[IfMark]])
  {
  }

  /** Inside a block just opened, `ELSE` balances and changes nothing, and `ENDIF` closes the block's stack. */
  lemma InsideBlock(stacks: seq<seq<int>>)
    ensures Balance(stacks + [[IfMark]], ElseMark) == (true, stacks + [[IfMark]])
    ensures Balance(stacks + [[IfMark]], EndIfMark) == (true, stacks)
  {
    var s := stacks + [[IfMark]];
    assert s[..|s| - 1] == stacks;
  }

  lemma {:induction false} ElseBalances(stacks: seq<seq<int>>, b: Block)
    ensures RunBalance(stacks + [[IfMark]], ElsePart(b)) == (true, stacks + [[IfMark]])
    decreases b, 0
  {
    var inner := stacks + [[IfMark]];
    if b.hasElse {
      RunBalanceConcat(inner, [ElseMark], MarksAll(b.alt));
      RunSingle(inner, ElseMark);
      InsideBlock(stacks);
      BlocksBalance(inner, b.alt);
    }
  }

  /**
   * A well-nested block balances from any stacks and leaves them as they
   * were, whatever it nests and whether it has an `ELSE`.
   */
  lemma {:induction false} BlockBalances(stacks: seq<seq<int>>, b: Block)
    ensures RunBalance(stacks, Marks(b)) == (true, stacks)
    decreases b, 1
  {
    var inner := stacks + [[IfMark]];
    var body := MarksAll(b.body);
    var mid := ElsePart(b);
    assert Marks(b) == [IfMark] + (body + (mid + [EndIfMark]));
    RunBalanceConcat(stacks, [IfMark], body + (mid + [EndIfMark]));
    RunSingle(stacks, IfMark);
    OpenPushes(stacks);
    RunBalanceConcat(inner, body, mid + [EndIfMark]);
    BlocksBalance(inner, b.body);
    RunBalanceConcat(inner, mid, [EndIfMark]);
    ElseBalances(stacks, b);
    RunSingle(inner, EndIfMark);
    InsideBlock(stacks);
  }

  lemma {:induction false} BlocksBalance(stacks: seq<seq<int>>, bs: seq<Block>)
    ensures RunBalance(stacks, MarksAll(bs)) == (true, stacks)
    decreases bs, 2
  {
    if bs != [] {
      RunBalanceConcat(stacks, Marks(bs[0]), MarksAll(bs[1..]));
      BlockBalances(stacks, bs[0]);
      BlocksBalance(stacks, bs[1..]);
    }
  }

  /** `ELSE` or `ENDIF` with no open IFDEF/IFUND is unbalanced and records `E_PREPROCESS_UNBALANCED_IF`. */
  lemma UnopenedElseOrEndIf(st: State, op: int, msg: string, lineNo: int)
    requires op == ElseMark || op == EndIfMark
    requires st.ifStacks == [] || st.ifStacks[|st.ifStacks| - 1] == []
    ensures var c := CheckBalance(st, op, msg, lineNo);
      !c.ok && c.st.errors == st.errors + [Err(PreprocessUnbalancedIf, msg, lineNo)]
  {
  }

  /** An `ENDIF` more than the blocks before it opened is caught. */
  lemma {:induction false} ExtraEndIf(bs: seq<Block>)
    ensures !RunBalance([], MarksAll(bs) + [EndIfMark]).0
  {
    RunBalanceConcat([], MarksAll(bs), [EndIfMark]);
    BlocksBalance([], bs);
    RunSingle([], EndIfMark);
  }

  /** What the two conditional directives test: `DEFINE` makes IFDEF hold and IFUND fail, `UNDEF` the other way round. */
  lemma DefineThenTest(table: map<string, int>, name: string)
    ensures Holds(table[Mingle(name) := DefinedValue], name, true)
    ensures !Holds(table[Mingle(name) := DefinedValue], name, false)
    ensures !Holds(table[Mingle(name) := UndefinedValue], name, true)
    ensures Holds(table[Mingle(name) := UndefinedValue], name, false)
    ensures Mingle(name) !in table ==> !Holds(table, name, true) && Holds(table, name, false)
  {
  }
}
