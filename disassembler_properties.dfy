/**
 * Properties of the disassembler: the number formatting it relies on, how
 * its text relates to what the assembler accepts, the label names it
 * synthesizes, the records of the first pass, what `enhance` does to a
 * record, and the shape of the listing.
 */
module DisassemblerProperties {
  import opened Wrappers
  import opened JavaString
  import opened DisassemblerSpec
  import AS = AssemblerSpec
  import AP = AssemblerProperties
  import EP = ExpressionParser
  import XP = ExpressionProperties

  // ---------------------------------------------------------------------------
  // Hexadecimal text

  /** The value of a hexadecimal digit of either case. */
  function DigitValue(c: char): int
  {
    if '0' <= c <= '9' then c as int - '0' as int
    else if 'a' <= c <= 'f' then c as int - 'a' as int + 10
    else c as int - 'A' as int + 10
  }

  /** The value of a run of hexadecimal digits, most significant first. */
  function HexValue(s: string): int
  {
    if s == [] then 0 else HexValue(s[..|s| - 1]) * 16 + DigitValue(s[|s| - 1])
  }

  /** How many hexadecimal digits a value needs. */
  function HexDigitCount(v: nat): nat
  {
    if v < 16 then 1 else 1 + HexDigitCount(v / 16)
  }

  lemma DigitRoundTrip(d: nat, upper: bool)
    requires d < 16
    ensures DigitValue(HexDigit(d, upper)) == d
  {
  }

  /** `%0wx` spells the value. */
  lemma {:induction false} HexRoundTrip(v: nat, w: nat, upper: bool)
    ensures HexValue(Hex(v, w, upper)) == v
    decreases v, w
  {
    var s := Hex(v, w, upper);
    if v < 16 && w <= 1 {
      assert s[..0] == [];
      DigitRoundTrip(v, upper);
    } else {
      var w' := if w > 0 then w - 1 else 0;
      HexRoundTrip(v / 16, w', upper);
      assert s[..|s| - 1] == Hex(v / 16, w', upper);
      DigitRoundTrip(v % 16, upper);
    }
  }

  /** `%0wx` writes w digits, or as many as the value needs when that is more. */
  lemma {:induction false} HexLength(v: nat, w: nat, upper: bool)
    ensures |Hex(v, w, upper)| == if w > HexDigitCount(v) then w else HexDigitCount(v)
    decreases v, w
  {
    if !(v < 16 && w <= 1) {
      HexLength(v / 16, if w > 0 then w - 1 else 0, upper);
    }
  }

  /** A byte as `%02X` is always two digits. */
  lemma ByteWidth(b: nat, upper: bool)
    requires b < 0x100
    ensures |Hex(b, 2, upper)| == 2
  {
    HexLength(b, 2, upper);
    assert HexDigitCount(b / 16) == 1;
  }

  /** The two `DB` lines of a data record spell its word: high byte first. */
  lemma DataBytesSpellWord(bin: nat)
    requires bin < 0x1_0000
    ensures |DbText(bin / 0x100)| == 6 && |DbText(bin)| == 6
    ensures HexValue(DbText(bin / 0x100)[4..]) * 0x100 + HexValue(DbText(bin)[4..]) == bin
  {
    ByteWidth((bin / 0x100) % 0x100, true);
    ByteWidth(bin % 0x100, true);
    HexRoundTrip((bin / 0x100) % 0x100, 2, true);
    HexRoundTrip(bin % 0x100, 2, true);
    assert DbText(bin / 0x100)[4..] == Hex((bin / 0x100) % 0x100, 2, true);
    assert DbText(bin)[4..] == Hex(bin % 0x100, 2, true);
  }

  // ---------------------------------------------------------------------------
  // Against the assembler

  /** `V%01X` writes the register name the assembler reads back. */
  lemma RegIsRegister(x: nat)
    requires x < 16
    ensures Reg(x) == AS.Register(x)
  {
    assert x == 0 || x == 1 || x == 2 || x == 3 || x == 4 || x == 5 || x == 6 || x == 7 ||
           x == 8 || x == 9 || x == 10 || x == 11 || x == 12 || x == 13 || x == 14 || x == 15;
  }

  /** The fields of a word put together from four nibbles. */
  lemma Nibbles(t: nat, x: nat, y: nat, n: nat)
    requires t < 16 && x < 16 && y < 16 && n < 16
    ensures var op := t * 0x1000 + x * 0x100 + y * 0x10 + n;
      op < 0x1_0000 && op / 0x1000 == t && X(op) == x && Y(op) == y && N(op) == n &&
      KK(op) == y * 0x10 + n && NNN(op) == x * 0x100 + y * 0x10 + n
  {
    var kk := y * 0x10 + n;
    var nnn := x * 0x100 + kk;
    var op := t * 0x1000 + nnn;
    assert kk < 0x100 && nnn < 0x1000;
    assert op / 0x1000 == t && op % 0x1000 == nnn;
    assert op / 0x100 == t * 0x10 + x && op % 0x100 == kk;
    assert op / 0x10 == t * 0x100 + x * 0x10 + y && op % 0x10 == n;
  }

  /** `8xy4` disassembles to `ADD Vx, Vy`. */
  lemma DecodeAdd(x: nat, y: nat, addr: nat, s: Labels)
    requires x < 16 && y < 16
    ensures var d := Decode(0x8004 + x * 0x100 + y * 0x10, addr, s);
      Form(d.asm) == Op("ADD", [Vx(x), Vx(y)]) && d.kind == Normal && d.labels == s
  {
    Nibbles(8, x, y, 4);
    var op := 0x8004 + x * 0x100 + y * 0x10;
    assert op == 8 * 0x1000 + x * 0x100 + y * 0x10 + 4;
    assert Format(op) == DisArith(op);
  }

  /** `ADD Vx, Vy` assembles to `8xy4`, which disassembles to `ADD Vx, Vy` again. */
  lemma AddRoundTrip(st: AS.State, pass: int, x: nat, y: nat, lineNo: int, addr: nat, s: Labels)
    requires x < 16 && y < 16
    ensures var op := 0x8004 + x * 0x100 + y * 0x10;
      AS.Add(st, pass, ["ADD", AS.Register(x), AS.Register(y)], 0, lineNo) == AS.Emit(false, Some(op), st) &&
      var d := Decode(op, addr, s);
      Form(d.asm) == Op("ADD", [Vx(x), Vx(y)]) && d.kind == Normal && d.labels == s
  {
    AP.AddRegisters(st, pass, x, y, lineNo);
    DecodeAdd(x, y, addr, s);
  }

  /** The text of that form is the assembler's `ADD` with the two register names. */
  lemma AddText(x: nat, y: nat)
    requires x < 16 && y < 16
    ensures Text(Op("ADD", [Vx(x), Vx(y)])) == "ADD " + AS.Register(x) + ", " + AS.Register(y)
  {
    RegIsRegister(x);
    RegIsRegister(y);
    var os := [Vx(x), Vx(y)];
    assert os[1..] == [Vx(y)];
    assert OperandsText(os) == Reg(x) + ", " + Reg(y);
  }

  /** `6xnn` disassembles to a load of register x with n. */
  lemma DecodeLoad(x: nat, n: nat, addr: nat, s: Labels)
    requires x < 16 && n < 0x100
    ensures var d := Decode(0x6000 + x * 0x100 + n, addr, s);
      Form(d.asm) == Op("LD", [Vx(x), Num(n, 2)]) && d.kind == Normal && d.labels == s
  {
    Nibbles(6, x, n / 0x10, n % 0x10);
    var op := 0x6000 + x * 0x100 + n;
    assert op == 6 * 0x1000 + x * 0x100 + (n / 0x10) * 0x10 + n % 0x10;
  }

  /** `LD Vx, n` assembles to `6xnn`, which disassembles to a load of the same register with the same byte. */
  lemma LoadRoundTrip(st: AS.State, pass: int, x: nat, n: nat, lineNo: int, addr: nat, s: Labels)
    requires x < 16 && n < 0x100 && Decimal(n) !in st.table
    ensures var op := 0x6000 + x * 0x100 + n;
      AS.LoadRegister(st, pass, x, Decimal(n), lineNo) == AS.Emit(false, Some(op), st) &&
      var d := Decode(op, addr, s);
      Form(d.asm) == Op("LD", [Vx(x), Num(n, 2)]) && d.kind == Normal && d.labels == s
  {
    AP.LoadByte(st, pass, x, n, lineNo);
    DecodeLoad(x, n, addr, s);
  }

  /** The hexadecimal digits `%0wx` writes read back, as `Integer.parseInt(t, 16)` reads them. */
  lemma {:induction false} HexDigitsRead(v: nat, w: nat, upper: bool)
    ensures EP.DigitsValue(Hex(v, w, upper), 16) == Some(v)
    decreases v, w
  {
    if v < 16 && w <= 1 {
      DigitsAppend([], v, 0, upper);
      assert [] + [HexDigit(v, upper)] == Hex(v, w, upper);
    } else {
      var w' := if w > 0 then w - 1 else 0;
      HexDigitsRead(v / 16, w', upper);
      DigitsAppend(Hex(v / 16, w', upper), v % 16, v / 16, upper);
    }
  }

  /** One more hexadecimal digit d after digits worth m is worth 16 m + d. */
  lemma DigitsAppend(init: string, d: nat, m: nat, upper: bool)
    requires d < 16 && EP.DigitsValue(init, 16) == Some(m)
    ensures EP.DigitsValue(init + [HexDigit(d, upper)], 16) == Some(m * 16 + d)
  {
    var s := init + [HexDigit(d, upper)];
    assert s[..|s| - 1] == init;
    DigitReads(d, upper);
  }

  lemma DigitReads(d: nat, upper: bool)
    requires d < 16
    ensures EP.DigitOf(HexDigit(d, upper)) == d
  {
  }

  /**
   * The text of `LD Vx, n` as disassembled is `LD`, the assembler's name of
   * the register and `#` with two hexadecimal digits, and the expression
   * reader reads that operand back as n.
   */
  lemma LoadText(x: nat, n: nat, table: map<string, int>)
    requires x < 16 && n < 0x100
    ensures Text(Op("LD", [Vx(x), Num(n, 2)])) == "LD " + AS.Register(x) + ", #" + Hex(n, 2, false)
    ensures EP.ReadNumber(Some("#" + Hex(n, 2, false)), table) == EP.Read(EP.Pair(true, n), None)
  {
    RegIsRegister(x);
    var os := [Vx(x), Num(n, 2)];
    assert os[1..] == [Num(n, 2)];
    assert OperandsText(os) == Reg(x) + ", " + "#" + Hex(n, 2, false);
    var t := "#" + Hex(n, 2, false);
    HexDigitsRead(n, 2, false);
    assert t[1..] == Hex(n, 2, false);
    assert t[1..][0] != '-' && t[1..][0] != '+';
  }

  /** `JP n` assembles to `1nnn`, which disassembles to a jump to the label the target address then has. */
  lemma JumpRoundTrip(st: AS.State, pass: int, n: nat, lineNo: int, addr: nat, s: Labels)
    requires n < 0x1000 && Decimal(n) !in st.table
    ensures var d := Decode(0x1000 + n, addr, s);
      AS.Jump(st, pass, ["JP", Decimal(n)], 0, lineNo) == AS.Emit(false, Some(0x1000 + n), st) &&
      n in d.labels.jumpLabels && d.asm == Op("JP", [Fixed(d.labels.jumpLabels[n])]) && d.kind == CodeJump &&
      Text(d.asm) == "JP " + d.labels.jumpLabels[n]
  {
    AP.JumpAddress(st, pass, n, lineNo);
    JumpDecodes(n, addr, s);
  }

  /** `1nnn` disassembles to a jump to the label address nnn then has. */
  lemma JumpDecodes(n: nat, addr: nat, s: Labels)
    requires n < 0x1000
    ensures var d := Decode(0x1000 + n, addr, s);
      n in d.labels.jumpLabels && d.asm == Op("JP", [Fixed(d.labels.jumpLabels[n])]) && d.kind == CodeJump &&
      Text(d.asm) == "JP " + d.labels.jumpLabels[n]
  {
    assert (0x1000 + n) / 0x1000 == 1 && NNN(0x1000 + n) == n;
    var d := Decode(0x1000 + n, addr, s);
    OneNameText("JP", d.labels.jumpLabels[n]);
  }

  lemma OneNameText(m: string, name: string)
    ensures Text(Op(m, [Fixed(name)])) == m + " " + name
  {
  }

  // ---------------------------------------------------------------------------
  // Label names

  /** Distinct counters give distinct names. */
  lemma NamesDistinct(prefix: string, j: nat, k: nat)
    requires Names(prefix, j) == Names(prefix, k)
    ensures j == k
  {
    assert Names(prefix, j)[|prefix|..] == Decimal(j);
    assert Names(prefix, k)[|prefix|..] == Decimal(k);
    XP.DecimalDigits(j);
    XP.DecimalDigits(k);
  }

  /** Every name in the map is the prefix and a counter value already handed out, and no two addresses share a name. */
  predicate NamedBelow(m: map<int, string>, prefix: string, n: nat)
  {
    (forall a :: a in m ==> exists k: nat :: k < n && m[a] == Names(prefix, k)) &&
    (forall a, b :: a in m && b in m && a != b ==> m[a] != m[b])
  }

  /** The invariant of the bookkeeping: each map holds its own kind of names, all distinct. */
  predicate WellNamed(s: Labels)
  {
    NamedBelow(s.subroutines, "SUB", s.srCounter) &&
    NamedBelow(s.jumpLabels, "LABEL", s.lbCounter) &&
    NamedBelow(s.dataLabels, "DATA", s.dtCounter)
  }

  lemma FreshWellNamed()
    ensures WellNamed(Fresh)
  {
  }

  /** Recording the next name, for a new address or over an old one, keeps the map well named. */
  lemma NextName(m: map<int, string>, prefix: string, n: nat, a: int)
    requires NamedBelow(m, prefix, n)
    ensures NamedBelow(m[a := Names(prefix, n)], prefix, n + 1)
  {
    var m' := m[a := Names(prefix, n)];
    forall b | b in m' && b != a
      ensures m'[b] != Names(prefix, n)
    {
      var k: nat :| k < n && m[b] == Names(prefix, k);
      if m[b] == Names(prefix, n) {
        NamesDistinct(prefix, k, n);
      }
    }
  }


  /** `dis` keeps the bookkeeping well named. */
  lemma DecodeWellNamed(op: nat, addr: nat, s: Labels)
    requires op < 0x1_0000 && WellNamed(s)
    ensures WellNamed(Decode(op, addr, s).labels)
  {
    var top := op / 0x1000;
    var a := NNN(op);
    if top == 0x1 && a !in s.jumpLabels {
      NextName(s.jumpLabels, "LABEL", s.lbCounter, a);
    } else if top == 0x2 && a !in s.subroutines {
      NextName(s.subroutines, "SUB", s.srCounter, a);
    } else if top == 0xA {
      NextName(s.dataLabels, "DATA", s.dtCounter, a);
    }
  }

  /** The first pass keeps the bookkeeping well named. */
  lemma {:induction false} DisLoopWellNamed(mem: seq<int>, c: int, lines: seq<DasmLine>, s: Labels)
    requires WellNamed(s)
    ensures WellNamed(DisLoop(mem, c, lines, s).labels)
    decreases |mem| - c
  {
    if 0 <= c && c + 1 < |mem| {
      var d := Decode(Word(mem, c), c, s);
      DecodeWellNamed(Word(mem, c), c, s);
      DisLoopWellNamed(mem, c + 2, lines + [Record(Word(mem, c), c, d)], d.labels);
    }
  }

  /**
   * `LD I, nnn` does not reuse a name: a second load of the same address
   * gets a new `DATAn`, and the name the first load printed is then no
   * label of any address.
   */
  lemma DataNameNotReused(op: nat, addr: nat, s: Labels)
    requires op < 0x1_0000 && op / 0x1000 == 0xA && WellNamed(s) && NNN(op) in s.dataLabels
    ensures var t := Decode(op, addr, s).labels;
      NNN(op) in t.dataLabels && t.dataLabels[NNN(op)] != s.dataLabels[NNN(op)] &&
      forall b :: b in t.dataLabels ==> t.dataLabels[b] != s.dataLabels[NNN(op)]
  {
    var a := NNN(op);
    var t := Decode(op, addr, s).labels;
    assert t.dataLabels == s.dataLabels[a := Names("DATA", s.dtCounter)];
    var k: nat :| k < s.dtCounter && s.dataLabels[a] == Names("DATA", k);
    if Names("DATA", s.dtCounter) == s.dataLabels[a] {
      NamesDistinct("DATA", k, s.dtCounter);
    }
  }

  // ---------------------------------------------------------------------------
  // Jump and call targets

  /**
   * Jump and subroutine names, once given, are never dropped or renamed; an
   * address with a data name keeps one, though `LD I` may replace it.
   */
  predicate Keeps(s: Labels, t: Labels)
  {
    (forall a :: a in s.jumpLabels ==> a in t.jumpLabels && t.jumpLabels[a] == s.jumpLabels[a]) &&
    (forall a :: a in s.subroutines ==> a in t.subroutines && t.subroutines[a] == s.subroutines[a]) &&
    (forall a :: a in s.dataLabels ==> a in t.dataLabels)
  }

  /** A `JP nnn` record names the jump label of nnn, a `CALL nnn` record the subroutine name of nnn. */
  predicate Resolved(l: DasmLine, s: Labels)
  {
    (l.bin / 0x1000 == 1 ==> NNN(l.bin) in s.jumpLabels && l.asm == Op("JP", [Fixed(s.jumpLabels[NNN(l.bin)])])) &&
    (l.bin / 0x1000 == 2 ==> NNN(l.bin) in s.subroutines && l.asm == Op("CALL", [Fixed(s.subroutines[NNN(l.bin)])]))
  }

  /** A `LD I, nnn` record names the data label nnn has. */
  predicate LoadResolved(l: DasmLine, s: Labels)
  {
    l.bin / 0x1000 == 0xA ==> NNN(l.bin) in s.dataLabels && l.asm == Op("LD", [Fixed("I"), Fixed(s.dataLabels[NNN(l.bin)])])
  }

  /**
   * `dis` keeps every name given so far, and the record it makes names the
   * label its jump, call or `LD I` target has right after it.
   */
  lemma DecodeResolves(op: nat, addr: nat, s: Labels)
    requires op < 0x1_0000
    ensures Keeps(s, Decode(op, addr, s).labels)
    ensures Resolved(Record(op, addr, Decode(op, addr, s)), Decode(op, addr, s).labels)
    ensures LoadResolved(Record(op, addr, Decode(op, addr, s)), Decode(op, addr, s).labels)
  {
  }

  /**
   * Two loads of the same address: the first record names `DATA0`, but after
   * the second the address is labelled `DATA1` and no address is labelled
   * `DATA0`, so the first `LD I` names a label the listing never defines.
   */
  lemma SecondLoadOrphansFirst(addr: nat)
    ensures var d1 := Decode(0xA300, addr, Fresh);
      var d2 := Decode(0xA300, addr + 2, d1.labels);
      d1.asm == Op("LD", [Fixed("I"), Fixed(Names("DATA", 0))]) &&
      d2.labels.dataLabels == map[0x300 := Names("DATA", 1)] &&
      forall b :: b in d2.labels.dataLabels ==> d2.labels.dataLabels[b] != Names("DATA", 0)
  {
    var d1 := Decode(0xA300, addr, Fresh);
    assert NNN(0xA300) == 0x300;
    assert d1.labels.dataLabels == map[0x300 := Names("DATA", 0)];
    if Names("DATA", 1) == Names("DATA", 0) {
      NamesDistinct("DATA", 1, 0);
    }
  }

  lemma ResolvedKept(l: DasmLine, s: Labels, t: Labels)
    requires Resolved(l, s) && Keeps(s, t)
    ensures Resolved(l, t)
  {
  }

  /** The first pass keeps the records it was given, and the names only grow. */
  lemma {:induction false} DisLoopKeeps(mem: seq<int>, c: int, lines: seq<DasmLine>, s: Labels)
    ensures var p := DisLoop(mem, c, lines, s);
      |lines| <= |p.lines| && p.lines[..|lines|] == lines && Keeps(s, p.labels)
    decreases |mem| - c
  {
    if 0 <= c && c + 1 < |mem| {
      var d := Decode(Word(mem, c), c, s);
      var lines' := lines + [Record(Word(mem, c), c, d)];
      DecodeResolves(Word(mem, c), c, s);
      DisLoopKeeps(mem, c + 2, lines', d.labels);
      var p := DisLoop(mem, c + 2, lines', d.labels);
      assert p.lines[..|lines|] == p.lines[..|lines'|][..|lines|];
    }
  }

  /**
   * Every `JP nnn` and `CALL nnn` a pass decodes names the label its target
   * has at the end of the pass, the one `enhance` attaches. (`LD I` records
   * do not: see `SecondLoadOrphansFirst`.)
   */
  lemma {:induction false} TargetsResolved(mem: seq<int>, c: int, lines: seq<DasmLine>, s: Labels)
    ensures var p := DisLoop(mem, c, lines, s);
      forall k :: |lines| <= k < |p.lines| ==> Resolved(p.lines[k], p.labels)
    decreases |mem| - c
  {
    if 0 <= c && c + 1 < |mem| {
      var d := Decode(Word(mem, c), c, s);
      var r := Record(Word(mem, c), c, d);
      var lines' := lines + [r];
      var p := DisLoop(mem, c + 2, lines', d.labels);
      TargetsResolved(mem, c + 2, lines', d.labels);
      DecodeResolves(Word(mem, c), c, s);
      DisLoopKeeps(mem, c + 2, lines', d.labels);
      assert p.lines[|lines|] == p.lines[..|lines'|][|lines|] == r;
      ResolvedKept(r, d.labels, p.labels);
    }
  }

  // ---------------------------------------------------------------------------
  // The records of the first pass

  /** l is the record of the word at a: both byte addresses and the word itself. */
  predicate RecordOf(mem: seq<int>, a: int, l: DasmLine)
  {
    0 <= a && a + 1 < |mem| && l.addr == a && l.addr1 == a + 1 && l.bin == Word(mem, a)
  }

  /** One record per word from c: at c, c + 2, ..., each holding its word and both byte addresses. */
  lemma {:induction false} DisLoopRecords(mem: seq<int>, c: int, lines: seq<DasmLine>, s: Labels)
    ensures var p := DisLoop(mem, c, lines, s);
      forall k :: |lines| <= k < |p.lines| ==> RecordOf(mem, c + 2 * (k - |lines|), p.lines[k])
    decreases |mem| - c
  {
    if 0 <= c && c + 1 < |mem| {
      var d := Decode(Word(mem, c), c, s);
      var r := Record(Word(mem, c), c, d);
      var lines' := lines + [r];
      var p := DisLoop(mem, c + 2, lines', d.labels);
      DisLoopRecords(mem, c + 2, lines', d.labels);
      DisLoopKeeps(mem, c + 2, lines', d.labels);
      assert DisLoop(mem, c, lines, s) == p;
      assert p.lines[|lines|] == p.lines[..|lines'|][|lines|] == r;
    }
  }

  /** The pass raises exactly when the region is odd or starts before 0; otherwise it stops at the end of the memory. */
  lemma {:induction false} DisLoopRaises(mem: seq<int>, c: int, lines: seq<DasmLine>, s: Labels)
    ensures var p := DisLoop(mem, c, lines, s);
      (p.raised <==> c < |mem| && (c < 0 || (|mem| - c) % 2 == 1)) &&
      (!p.raised ==> p.cursor == if c < |mem| then |mem| else c) &&
      (!p.raised ==> |p.lines| == |lines| + if c < |mem| then (|mem| - c) / 2 else 0)
    decreases |mem| - c
  {
    if 0 <= c && c + 1 < |mem| {
      var d := Decode(Word(mem, c), c, s);
      var lines' := lines + [Record(Word(mem, c), c, d)];
      DisLoopRaises(mem, c + 2, lines', d.labels);
      assert DisLoop(mem, c, lines, s) == DisLoop(mem, c + 2, lines', d.labels);
      TwoWordsLess(|mem| - c);
    }
  }

  /** Two bytes fewer leave the parity and one word fewer. */
  lemma TwoWordsLess(n: int)
    requires n >= 2
    ensures n % 2 == (n - 2) % 2 && n / 2 == (n - 2) / 2 + 1
  {
  }

  /** The address of the last `RET` among the records, or `d` when there is none. */
  function LastRet(recs: seq<DasmLine>, d: int): int
  {
    if recs == [] then d
    else LastRet(recs[1..], if recs[0].bin == RetOpcode then recs[0].addr else d)
  }

  /** After the pass, `lastRet` is the address of the last `RET` it decoded. */
  lemma {:induction false} DisLoopLastRet(mem: seq<int>, c: int, lines: seq<DasmLine>, s: Labels)
    ensures var p := DisLoop(mem, c, lines, s);
      |lines| <= |p.lines| && p.labels.lastRet == LastRet(p.lines[|lines|..], s.lastRet)
    decreases |mem| - c
  {
    DisLoopKeeps(mem, c, lines, s);
    if 0 <= c && c + 1 < |mem| {
      var op := Word(mem, c);
      var d := Decode(op, c, s);
      var r := Record(op, c, d);
      var lines' := lines + [r];
      var p := DisLoop(mem, c + 2, lines', d.labels);
      DisLoopLastRet(mem, c + 2, lines', d.labels);
      DisLoopKeeps(mem, c + 2, lines', d.labels);
      var tail := p.lines[|lines|..];
      assert tail[0] == p.lines[..|lines'|][|lines|] == r;
      assert tail[1..] == p.lines[|lines'|..];
      assert d.labels.lastRet == if op == RetOpcode then c else s.lastRet;
    } else {
      assert DisLoop(mem, c, lines, s).lines[|lines|..] == [];
    }
  }

  lemma {:induction false} NoRetKeepsDefault(recs: seq<DasmLine>, d: int)
    requires forall k :: 0 <= k < |recs| ==> recs[k].bin != RetOpcode
    ensures LastRet(recs, d) == d
    decreases |recs|
  {
    if recs != [] {
      NoRetKeepsDefault(recs[1..], d);
    }
  }

  // ---------------------------------------------------------------------------
  // enhance

  /** `enhance` changes neither the text of a record nor its word or addresses. */
  lemma EnhanceKeeps(l: DasmLine, s: Labels)
    ensures var e := EnhanceLine(l, s);
      e.asm == l.asm && e.bin == l.bin && e.addr == l.addr && e.addr1 == l.addr1
  {
  }

  /** A record past the last `RET` becomes two `DB` lines commented `data?`. */
  lemma PastLastRetIsData(l: DasmLine, s: Labels)
    requires l.addr > s.lastRet
    ensures var e := EnhanceLine(l, s);
      e.kind == Data && e.comment == Some("data?") && e.data == DbText(l.bin / 0x100) && e.data1 == DbText(l.bin)
  {
  }

  /** Up to the last `RET`, a record becomes data exactly when one of its bytes is the target of an `LD I`. */
  lemma BeforeLastRet(l: DasmLine, s: Labels)
    requires l.addr <= s.lastRet
    ensures var e := EnhanceLine(l, s);
      (l.addr in s.dataLabels || l.addr1 in s.dataLabels ==> e.kind == Data && e.comment == Some("data?")) &&
      (l.addr !in s.dataLabels && l.addr1 !in s.dataLabels ==> e.kind == l.kind && e.comment == l.comment)
  {
  }

  /** A data label beats a subroutine name, which beats a jump label; an unlabelled address keeps its label. */
  lemma LabelPrecedence(l: DasmLine, s: Labels)
    ensures EnhanceLine(l, s).labelName ==
      if l.addr in s.dataLabels then s.dataLabels[l.addr]
      else if l.addr in s.subroutines then s.subroutines[l.addr]
      else if l.addr in s.jumpLabels then s.jumpLabels[l.addr]
      else l.labelName
    ensures EnhanceLine(l, s).labelName1 == if l.addr1 in s.dataLabels then s.dataLabels[l.addr1] else l.labelName1
  {
  }

  /** A region without `RET` comes out as data throughout, earlier records included. */
  lemma NoReturnAllData(lines: seq<DasmLine>, code: seq<int>, start: int)
    requires forall k :: 0 <= k < |lines| ==> lines[k].addr >= 0
    requires var p := DisLoop(code, start, lines, Fresh);
      forall k :: |lines| <= k < |p.lines| ==> p.lines[k].bin != RetOpcode
    ensures var o := Disassembly(lines, Some(code), start);
      !o.raised ==> forall k :: 0 <= k < |o.lines| ==> o.lines[k].kind == Data
  {
    var p := DisLoop(code, start, lines, Fresh);
    DisLoopLastRet(code, start, lines, Fresh);
    DisLoopRecords(code, start, lines, Fresh);
    DisLoopKeeps(code, start, lines, Fresh);
    var tail := p.lines[|lines|..];
    forall k | 0 <= k < |tail|
      ensures tail[k].bin != RetOpcode
    {
      assert tail[k] == p.lines[|lines| + k];
    }
    NoRetKeepsDefault(tail, -1);
    forall k | 0 <= k < |p.lines|
      ensures p.lines[k].addr > p.labels.lastRet
    {
      if k < |lines| {
        assert p.lines[k] == p.lines[..|lines|][k];
      }
    }
  }

  // ---------------------------------------------------------------------------
  // The listing

  /** A plain listing writes an unlabelled code record as a tab, its text and a line break. */
  lemma CodeLine(l: DasmLine, nl: string)
    requires l.kind != Data && l.labelName == ""
    ensures LineText(l, false, false, nl) == "\t" + Text(l.asm) + nl
  {
  }

  /** An unlabelled data record takes two lines, one `DB` for each byte, the address first when shown. */
  lemma DataLine(l: DasmLine, showAddress: bool, nl: string)
    requires l.kind == Data && l.labelName == "" && l.labelName1 == ""
    ensures LineText(l, showAddress, false, nl) ==
      AddressText(l.addr, showAddress) + "\t" + l.data + nl + AddressText(l.addr1, showAddress) + "\t" + l.data1 + nl
  {
  }
}
