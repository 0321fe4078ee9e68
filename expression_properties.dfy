/**
 * What the expression evaluator computes. The central result: an
 * expression tree written out with its operators and parentheses is
 * tokenized, converted to postfix and evaluated exactly as the tree
 * evaluates, bottom-up and left to right in Java `int` arithmetic, given
 * that it fits the 64 token slots and that intermediate results are read
 * back from their decimal text.
 */
module ExpressionProperties {
  import opened Wrappers
  import opened JavaString
  import opened Bits
  import opened ExpressionParser

  // ---------------------------------------------------------------------------
  // Priorities

  /** The operators listed in the class comment (with unary plus and minus as `=` and `_`). */
  predicate Documented(c: char)
  {
    c in "=_~!<>*/+-&|^\\%"
  }

  /** The precedence levels of the class comment, 0 binding tightest. */
  function Level(c: char): nat
  {
    if c == '=' || c == '_' || c == '~' then 0
    else if c == '!' || c == '<' || c == '>' then 1
    else if c == '*' || c == '/' then 2
    else if c == '+' || c == '-' then 3
    else if c == '&' || c == '|' || c == '^' then 4
    else 5
  }

  lemma GroupIsLevel(c: char)
    requires Documented(c)
    ensures Group(c) == Level(c)
  {
    assert Ops[0] == '=' && Ops[1] == '_' && Ops[2] == '~' && Ops[3] == '!' && Ops[4] == '<' && Ops[5] == '>';
    assert Ops[6] == '*' && Ops[7] == '/' && Ops[9] == '+' && Ops[10] == '-';
    assert Ops[12] == '&' && Ops[13] == '|' && Ops[14] == '^' && Ops[15] == '\\' && Ops[16] == '%';
  }

  /**
   * `opPriority` follows the documented levels: 1 exactly when the first
   * operator binds tighter, 0 within a level, -1 when it binds looser; so it
   * is antisymmetric, and an operator never outranks itself.
   */
  lemma OpPriorityFollowsLevels(a: string, b: string)
    requires |a| == 1 && |b| == 1 && Documented(a[0]) && Documented(b[0])
    ensures OpPriority(a, b) == 1 <==> Level(a[0]) < Level(b[0])
    ensures OpPriority(a, b) == 0 <==> Level(a[0]) == Level(b[0])
    ensures OpPriority(a, b) == -1 <==> Level(a[0]) > Level(b[0])
    ensures OpPriority(a, b) == -OpPriority(b, a) && OpPriority(a, a) == 0
  {
    GroupIsLevel(a[0]);
    GroupIsLevel(b[0]);
  }

  // ---------------------------------------------------------------------------
  // Reading numbers

  /** The values whose decimal text `getNumber` reads back: every `int` except the smallest. */
  predicate Readable(v: int)
  {
    -MaxInt <= v <= MaxInt
  }

  lemma {:induction false} DecimalDigits(n: nat)
    ensures DigitsValue(Decimal(n), 10) == Some(n)
  {
    if n >= 10 {
      DecimalDigits(n / 10);
      var s := Decimal(n);
      assert s[..|s| - 1] == Decimal(n / 10);
      assert s[|s| - 1] == DigitChar(n % 10);
    } else {
      assert Decimal(n)[..0] == [];
    }
  }

  lemma ParseDecimal(n: nat)
    ensures ParseInt(Decimal(n), 10) == if n <= MaxInt then Some(n) else None
  {
    DecimalDigits(n);
    var d := Decimal(n);
    assert '0' <= d[0] <= '9';
  }

  /** A string that starts with a digit is read in decimal. */
  lemma ReadDigits(t: string, table: map<string, int>)
    requires |t| > 0 && IsDigit(t[0])
    ensures ReadNumber(Some(t), table) ==
      match ParseInt(t, 10) case None => Read(Pair(false, -1), None) case Some(n) => Read(Pair(true, Wrap32(n * 1)), None)
  {
    assert t[0..] == t;
  }

  /** A `-` followed by a digit is read in decimal and negated. */
  lemma ReadMinusDigits(t: string, table: map<string, int>)
    requires |t| > 1 && t[0] == '-' && IsDigit(t[1])
    ensures ReadNumber(Some(t), table) ==
      match ParseInt(t[1..], 10) case None => Read(Pair(false, -1), None) case Some(n) => Read(Pair(true, Wrap32(n * -1)), None)
  {
  }

  lemma ReadNonNegative(v: nat, table: map<string, int>)
    ensures ReadNumber(Some(Decimal(v)), table) == Read(if v <= MaxInt then Pair(true, v) else Pair(false, -1), None)
  {
    var t := Decimal(v);
    assert IsDigit(t[0]);
    ReadDigits(t, table);
    ParseDecimal(v);
    assert v <= MaxInt ==> Wrap32(v * 1) == v;
  }

  lemma ReadNegative(m: nat, table: map<string, int>)
    requires m > 0
    ensures ReadNumber(Some("-" + Decimal(m)), table) ==
      Read(if m <= MaxInt then Pair(true, -(m as int)) else Pair(false, -1), None)
  {
    var t := "-" + Decimal(m);
    assert t[1..] == Decimal(m);
    assert IsDigit(t[1]) by { assert t[1] == Decimal(m)[0]; }
    ReadMinusDigits(t, table);
    ParseDecimal(m);
    assert m <= MaxInt ==> Wrap32((m as int) * -1) == -(m as int);
  }

  /**
   * Reading back a formatted result: `getNumber(String.format("%d", v))` is
   * `v` itself for every readable value and a failure otherwise; it never
   * consults the symbol table.
   */
  lemma ReadFormatted(v: int, table: map<string, int>)
    ensures ReadNumber(Some(FormatInt(v)), table) == Read(if Readable(v) then Pair(true, v) else Pair(false, -1), None)
  {
    if v >= 0 {
      ReadNonNegative(v, table);
    } else {
      ReadNegative(-v, table);
    }
  }

  /** `#0A` is ten and `-#10` minus sixteen. */
  lemma HexPrefix(table: map<string, int>)
    ensures ReadNumber(Some("#0A"), table) == Read(Pair(true, 10), None)
    ensures ReadNumber(Some("-#10"), table) == Read(Pair(true, -16), None)
    ensures ReadNumber(Some("#0G"), table) == Read(Pair(false, -1), None)
  {
    assert "#0A"[1..] == "0A" && "0A"[..1] == "0" && "0"[..0] == [];
    assert DigitsValue("0A", 16) == Some(10);
    assert "-#10"[2..] == "10" && "10"[..1] == "1" && "1"[..0] == [];
    assert DigitsValue("10", 16) == Some(16);
    assert "#0G"[1..] == "0G" && "0G"[..1] == "0";
    assert DigitsValue("0G", 16) == None;
  }

  /** `$101` is five, `@17` fifteen; a digit outside the radix fails. */
  lemma BinaryOctalPrefixes(table: map<string, int>)
    ensures ReadNumber(Some("$101"), table) == Read(Pair(true, 5), None)
    ensures ReadNumber(Some("@17"), table) == Read(Pair(true, 15), None)
    ensures ReadNumber(Some("$12"), table) == Read(Pair(false, -1), None)
  {
    assert "$101"[1..] == "101" && "101"[..2] == "10" && "10"[..1] == "1" && "1"[..0] == [];
    assert DigitsValue("101", 2) == Some(5);
    assert "@17"[1..] == "17" && "17"[..1] == "1";
    assert DigitsValue("17", 8) == Some(15);
    assert "$12"[1..] == "12" && "12"[..1] == "1";
    assert DigitsValue("12", 2) == None;
  }

  /**
   * A string that starts with no sign, digit or radix prefix is a symbol
   * name: a defined one reads as its value (as a Java `int`) and is
   * recorded, an undefined one fails; a leading `-` negates.
   */
  lemma ReadSymbol(name: string, table: map<string, int>)
    requires |name| > 0 && !IsDigit(name[0]) && name[0] !in "+-$#@"
    ensures ReadNumber(Some(name), table) ==
      if name in table then Read(Pair(true, Wrap32(table[name])), Some(name)) else Read(Pair(false, -1), None)
    ensures ReadNumber(Some("-" + name), table) ==
      if name in table then Read(Pair(true, Wrap32(-table[name])), Some(name)) else Read(Pair(false, -1), None)
  {
    assert name[0..] == name;
    assert ("-" + name)[1..] == name && ("-" + name)[1] == name[0];
  }

  // ---------------------------------------------------------------------------
  // Tokens

  /** A character that extends a token: not blank, not a single-character token, not `.` (which reads as `0`). */
  predicate PlainChar(c: char)
  {
    !IsBlank(c) && !IsSingle(c) && c != '.'
  }

  predicate PlainRun(t: string)
  {
    |t| > 0 && forall k :: 0 <= k < |t| ==> PlainChar(t[k])
  }

  predicate SingleToken(t: string)
  {
    |t| == 1 && IsSingle(t[0])
  }

  /** Tokens that come apart again when written next to each other: no two runs side by side. */
  predicate Separated(toks: seq<string>)
  {
    (forall k :: 0 <= k < |toks| ==> SingleToken(toks[k]) || PlainRun(toks[k])) &&
    (forall k :: 0 <= k < |toks| - 1 ==> SingleToken(toks[k]) || SingleToken(toks[k + 1]))
  }

  /** The tokens written one after the other. */
  function Concat(toks: seq<string>): string
  {
    if toks == [] then [] else Concat(toks[..|toks| - 1]) + toks[|toks| - 1]
  }

  function Singles(toks: seq<string>): nat
    ensures Singles(toks) <= |toks|
  {
    if toks == [] then 0 else Singles(toks[..|toks| - 1]) + (if SingleToken(toks[|toks| - 1]) then 1 else 0)
  }

  lemma {:induction false} CollectNone(s: seq<Option<string>>)
    requires forall k :: 0 <= k < |s| ==> s[k].None?
    ensures Collect(s) == []
  {
    if s != [] {
      CollectNone(s[..|s| - 1]);
    }
  }

  /** Writing the last written-to slot adds one token at the end. */
  lemma {:induction false} CollectSet(s: seq<Option<string>>, k: nat, w: string)
    requires k < |s| && s[k].None?
    requires forall j :: k < j < |s| ==> s[j].None?
    ensures Collect(s[k := Some(w)]) == Collect(s) + [w]
  {
    var s' := s[k := Some(w)];
    if k == |s| - 1 {
      assert s'[..|s| - 1] == s[..|s| - 1];
    } else {
      CollectSet(s[..|s| - 1], k, w);
      assert s'[..|s| - 1] == s[..|s| - 1][k := Some(w)];
    }
  }

  lemma {:induction false} TokScanConcat(a: string, b: string, st: TokState)
    requires |st.slots| == MaxTokens
    ensures TokScan(a + b, st) == match TokScan(a, st) case None => None case Some(st') => TokScan(b, st')
    decreases |a|
  {
    if a == [] {
      assert a + b == b;
    } else {
      assert (a + b)[0] == a[0] && (a + b)[1..] == a[1..] + b;
      match TokStep(st, a[0]) {
        case None =>
        case Some(st') => TokScanConcat(a[1..], b, st');
      }
    }
  }

  function SlotText(slot: Option<string>): string
  {
    if slot.Some? then slot.value else []
  }

  /** A run of plain characters lands in the current slot. */
  lemma {:induction false} PlainScan(w: string, st: TokState)
    requires |st.slots| == MaxTokens && st.current < MaxTokens && PlainRun(w)
    ensures TokScan(w, st) == Some(TokState(st.slots[st.current := Some(SlotText(st.slots[st.current]) + w)], st.current, 0))
    decreases |w|
  {
    var st1 := TokState(st.slots[st.current := Some(Appended(st.slots[st.current], w[0]))], st.current, 0);
    assert TokStep(st, w[0]) == Some(st1);
    if |w| == 1 {
      assert TokScan(w[1..], st1) == Some(st1);
      assert SlotText(st.slots[st.current]) + w == Appended(st.slots[st.current], w[0]);
    } else {
      PlainScan(w[1..], st1);
      assert SlotText(st1.slots[st.current]) + w[1..] == SlotText(st.slots[st.current]) + w;
      assert st1.slots[st.current := Some(SlotText(st.slots[st.current]) + w)]
        == st.slots[st.current := Some(SlotText(st.slots[st.current]) + w)];
    }
  }

  /** A single-character token takes the slot after the current one and closes it. */
  lemma SingleScan(t: string, st: TokState)
    requires |st.slots| == MaxTokens && SingleToken(t)
    requires st.current + 1 < MaxTokens && st.slots[st.current + 1].None?
    ensures TokScan(t, st) == Some(TokState(st.slots[st.current + 1 := Some(t)], st.current + 2, 1))
  {
    var c := t[0];
    assert !IsBlank(c);
    assert Appended(st.slots[st.current + 1], c) == t;
    assert t[1..] == [];
  }

  /** The tokenizer's state after the tokens `toks`: where the slots stand and what they collect to. */
  predicate Laid(st: TokState, toks: seq<string>)
  {
    |st.slots| == MaxTokens &&
    st.current == 2 * Singles(toks) &&
    (forall k :: st.current < k < MaxTokens ==> st.slots[k].None?) &&
    (st.current < MaxTokens ==> (st.slots[st.current].Some? <==> (toks != [] && PlainRun(toks[|toks| - 1])))) &&
    Collect(st.slots) == toks
  }

  lemma SeparatedPrefix(toks: seq<string>)
    requires Separated(toks) && toks != []
    ensures Separated(toks[..|toks| - 1])
  {
    var init := toks[..|toks| - 1];
    forall k | 0 <= k < |init| ensures SingleToken(init[k]) || PlainRun(init[k]) {
      assert init[k] == toks[k];
    }
    forall k | 0 <= k < |init| - 1 ensures SingleToken(init[k]) || SingleToken(init[k + 1]) {
      assert init[k] == toks[k] && init[k + 1] == toks[k + 1];
    }
  }

  /** A single-character token after the tokens `toks`. */
  lemma LaySingle(st: TokState, toks: seq<string>, t: string)
    requires Laid(st, toks) && SingleToken(t) && |toks| < 32
    ensures TokScan(t, st) == Some(TokState(st.slots[st.current + 1 := Some(t)], st.current + 2, 1))
    ensures Laid(TokScan(t, st).value, toks + [t])
  {
    SingleScan(t, st);
    CollectSet(st.slots, st.current + 1, t);
    assert (toks + [t])[..|toks|] == toks;
  }

  /** A run after a single-character token (or at the start). */
  lemma LayPlain(st: TokState, toks: seq<string>, t: string)
    requires Laid(st, toks) && PlainRun(t) && |toks| < 32
    requires toks != [] ==> SingleToken(toks[|toks| - 1])
    ensures TokScan(t, st) == Some(TokState(st.slots[st.current := Some(t)], st.current, 0))
    ensures Laid(TokScan(t, st).value, toks + [t])
  {
    PlainScan(t, st);
    assert SlotText(st.slots[st.current]) + t == t;
    CollectSet(st.slots, st.current, t);
    assert (toks + [t])[..|toks|] == toks;
  }

  lemma {:induction false} TokenizeSeparated(toks: seq<string>)
    requires Separated(toks) && |toks| <= 32
    ensures TokScan(Concat(toks), TokStart).Some? && Laid(TokScan(Concat(toks), TokStart).value, toks)
  {
    if toks == [] {
      CollectNone(NoSlots());
    } else {
      var init := toks[..|toks| - 1];
      var t := toks[|toks| - 1];
      SeparatedPrefix(toks);
      TokenizeSeparated(init);
      var st := TokScan(Concat(init), TokStart).value;
      TokScanConcat(Concat(init), t, TokStart);
      assert init + [t] == toks;
      if SingleToken(t) {
        LaySingle(st, init, t);
      } else {
        assert init != [] ==> SingleToken(init[|init| - 1]) by {
          if init != [] {
            assert init[|init| - 1] == toks[|toks| - 2];
          }
        }
        LayPlain(st, init, t);
      }
    }
  }

  /** Tokens that stay apart when written together come back from `tokenize` unchanged. */
  lemma TokensRoundTrip(toks: seq<string>)
    requires Separated(toks) && |toks| <= 32
    ensures ExprTokens(Concat(toks)) == Some(toks)
  {
    TokenizeSeparated(toks);
  }

  /** The empty expression has no tokens. */
  lemma EmptyExpression(table: map<string, int>, used: set<string>)
    requires "" !in table
    ensures Parsed("", table, used).end == Ending(false, Pair(true, -1), used)
  {
    CollectNone(NoSlots());
  }

  /**
   * Each single-character token takes two slot indices, so a string of
   * them fits exactly when it has at most 32 characters; one more and the
   * slot index runs past the array.
   */
  lemma {:induction false} SinglesFit(s: string, st: TokState)
    requires |st.slots| == MaxTokens
    requires forall k :: 0 <= k < |s| ==> IsSingle(s[k])
    ensures |s| > 0 ==> (TokScan(s, st).Some? <==> st.current + 2 * |s| <= MaxTokens)
    decreases |s|
  {
    if |s| > 0 && st.current + 1 < MaxTokens {
      var k := st.current + 1;
      var st' := TokState(st.slots[k := Some(Appended(st.slots[k], s[0]))], k + 1, 1);
      assert TokStep(st, s[0]) == Some(st');
      SinglesFit(s[1..], st');
    }
  }

  lemma TooManySingles(s: string)
    requires |s| > 0 && forall k :: 0 <= k < |s| ==> IsSingle(s[k])
    ensures ExprTokens(s).None? <==> |s| > 32
  {
    SinglesFit(s, TokStart);
  }

  // ---------------------------------------------------------------------------
  // Expression trees

  /** An expression tree: a decimal literal, a unary minus, or a binary operator. */
  datatype Expr = Lit(n: nat) | Neg(e: Expr) | Bin(op: char, l: Expr, r: Expr)

  /** The binary operators of the class comment. */
  predicate BinaryOp(c: char)
  {
    c in "!<>*/+-&|^\\%"
  }

  predicate WellFormed(e: Expr)
  {
    match e
    case Lit(_) => true
    case Neg(x) => WellFormed(x)
    case Bin(op, l, r) => BinaryOp(op) && WellFormed(l) && WellFormed(r)
  }

  /** The tree written out with every operator application in parentheses. */
  function Print(e: Expr): seq<string>
  {
    match e
    case Lit(n) => [Decimal(n)]
    case Neg(x) => ["(", "-"] + Print(x) + [")"]
    case Bin(op, l, r) => ["("] + Print(l) + [[op]] + Print(r) + [")"]
  }

  /** The same without the outermost parentheses. */
  function TopPrint(e: Expr): seq<string>
  {
    match e
    case Lit(n) => [Decimal(n)]
    case Neg(x) => ["-"] + Print(x)
    case Bin(op, l, r) => Print(l) + [[op]] + Print(r)
  }

  /** The tree in postfix order, with the unary minus as `_`. */
  function Post(e: Expr): seq<string>
  {
    match e
    case Lit(n) => [Decimal(n)]
    case Neg(x) => Post(x) + ["_"]
    case Bin(op, l, r) => Post(l) + Post(r) + [[op]]
  }

  /**
   * How a tree evaluates: a value (pushed as its decimal text), an operand
   * that does not read back as a number, an exception, or an operator
   * `evaluate` has no case for.
   */
  datatype Meaning = Val(v: int) | NotNumber | Throws | NoOperator

  function FromApplied(x: Applied): Meaning
  {
    match x
    case Value(t) => Val(t)
    case DivideByZero => Throws
    case UnknownOp => NoOperator
  }

  /** A unary minus: the operand is read back from its text first. */
  function Negated(m: Meaning): Meaning
  {
    match m
    case Val(v) => if Readable(v) then Val(-v) else NotNumber
    case _ => m
  }

  /** A binary operator: the left side is evaluated first, then the right, then both are read back. */
  function Combined(op: char, ml: Meaning, mr: Meaning): Meaning
  {
    match ml
    case Val(a) =>
      (match mr
       case Val(b) => if Readable(a) && Readable(b) then FromApplied(ApplyOp(op, a, b)) else NotNumber
       case _ => mr)
    case _ => ml
  }

  /** The tree's meaning, bottom-up and left to right, in Java `int` arithmetic. */
  function Eval(e: Expr): Meaning
  {
    match e
    case Lit(n) => Val(n)
    case Neg(x) => Negated(Eval(x))
    case Bin(op, l, r) => Combined(op, Eval(l), Eval(r))
  }

  /** How `parse` ends for a tree of this meaning. */
  function Outcome(m: Meaning, used: set<string>): Ending
  {
    match m
    case Val(v) => Ending(false, if Readable(v) then Pair(true, v) else Pair(false, -1), used)
    case NotNumber => Ending(false, Pair(false, -1), used)
    case Throws => Ending(true, Raised, used)
    case NoOperator => Ending(false, Pair(true, -1), used)
  }

  // ----- the written tree tokenizes back -----

  lemma DecimalIsRun(n: nat)
    ensures PlainRun(Decimal(n)) && !IsOp(Decimal(n)) && Decimal(n) != "(" && Decimal(n) != ")"
  {
    var d := Decimal(n);
    forall k | 0 <= k < |d| ensures PlainChar(d[k]) {
      assert '0' <= d[k] <= '9';
    }
    assert d[0] != '(';
  }

  /** Separated token lists can be joined when the seam is not between two runs. */
  lemma SeparatedJoin(a: seq<string>, b: seq<string>)
    requires Separated(a) && Separated(b)
    requires a != [] && b != [] ==> SingleToken(a[|a| - 1]) || SingleToken(b[0])
    ensures Separated(a + b)
  {
    var c := a + b;
    forall k | 0 <= k < |c| - 1 ensures SingleToken(c[k]) || SingleToken(c[k + 1]) {
      if k < |a| - 1 {
        assert c[k] == a[k] && c[k + 1] == a[k + 1];
      } else if k == |a| - 1 {
        assert c[k] == a[|a| - 1] && c[k + 1] == b[0];
      } else {
        assert c[k] == b[k - |a|] && c[k + 1] == b[k - |a| + 1];
      }
    }
  }

  /** The shape of a written tree: separated, starting with `(` or its literal, ending with `)` unless a literal. */
  predicate Bracketed(toks: seq<string>)
  {
    Separated(toks) && toks != [] && toks[0] == "(" && toks[|toks| - 1] == ")"
  }

  lemma SeparatedNeg(p: seq<string>)
    requires Separated(p)
    ensures Bracketed(["(", "-"] + p + [")"])
  {
    SeparatedJoin(["(", "-"], p);
    SeparatedJoin(["(", "-"] + p, [")"]);
  }

  lemma SeparatedBin(op: char, p: seq<string>, q: seq<string>)
    requires BinaryOp(op) && Separated(p) && Separated(q) && p != [] && q != []
    ensures Bracketed(["("] + p + [[op]] + q + [")"])
  {
    SeparatedJoin(["("], p);
    SeparatedJoin(["("] + p, [[op]]);
    SeparatedJoin(["("] + p + [[op]], q);
    SeparatedJoin(["("] + p + [[op]] + q, [")"]);
  }

  lemma {:induction false} PrintSeparated(e: Expr)
    requires WellFormed(e)
    ensures Separated(Print(e)) && Print(e) != []
    ensures e.Lit? ==> Print(e) == [Decimal(e.n)]
    ensures !e.Lit? ==> Bracketed(Print(e))
  {
    match e {
      case Lit(n) =>
        DecimalIsRun(n);
      case Neg(x) =>
        PrintSeparated(x);
        SeparatedNeg(Print(x));
      case Bin(op, l, r) =>
        PrintSeparated(l);
        PrintSeparated(r);
        SeparatedBin(op, Print(l), Print(r));
    }
  }

  lemma TopPrintSeparated(e: Expr)
    requires WellFormed(e)
    ensures Separated(TopPrint(e))
  {
    match e {
      case Lit(n) =>
        DecimalIsRun(n);
      case Neg(x) =>
        PrintSeparated(x);
        SeparatedJoin(["-"], Print(x));
      case Bin(op, l, r) =>
        PrintSeparated(l);
        PrintSeparated(r);
        SeparatedJoin(Print(l), [[op]]);
        SeparatedJoin(Print(l) + [[op]], Print(r));
    }
  }

  // ----- conversion to postfix -----

  lemma {:induction false} RpnRunsConcat(a: seq<string>, b: seq<string>, st: RpnState, st': RpnState)
    requires RpnRuns(a, st) == Going(st')
    ensures RpnRuns(a + b, st) == RpnRuns(b, st')
    decreases |a|
  {
    if a == [] {
      assert a + b == b;
    } else {
      assert (a + b)[0] == a[0] && (a + b)[1..] == a[1..] + b;
      RpnRunsConcat(a[1..], b, RpnStep(st, a[0]).st, st');
    }
  }

  lemma RpnRunsOne(t: string, st: RpnState, st': RpnState)
    requires RpnStep(st, t) == Going(st')
    ensures RpnRuns([t], st) == Going(st')
  {
    assert [t][1..] == [];
  }

  /** The last token of the written tree: `)` or the literal. */
  function LastToken(e: Expr): string
  {
    if e.Lit? then Decimal(e.n) else ")"
  }

  lemma {:induction false} PostNonEmpty(e: Expr)
    ensures |Post(e)| > 0
  {
  }

  lemma ParensNotOps()
    ensures !IsOp("(") && !IsOp(")")
  {
  }

  /** A literal goes straight to the output. */
  lemma ConvertLiteral(n: nat, st: RpnState)
    ensures RpnRuns([Decimal(n)], st) == Going(RpnState(st.stack, st.output + [Decimal(n)], Decimal(n)))
  {
    DecimalIsRun(n);
    RpnRunsOne(Decimal(n), st, RpnState(st.stack, st.output + [Decimal(n)], Decimal(n)));
  }

  /** `(` is pushed. */
  lemma ConvertOpen(st: RpnState)
    ensures RpnRuns(["("], st) == Going(RpnState(st.stack + ["("], st.output, "("))
  {
    ParensNotOps();
    RpnRunsOne("(", st, RpnState(st.stack + ["("], st.output, "("));
  }

  /** `-` after `(` or at the start is the unary minus, pushed as `_`. */
  lemma ConvertUnaryMinus(st: RpnState)
    requires st.prev == "(" || st.prev == ""
    ensures RpnRuns(["-"], st) == Going(RpnState(st.stack + ["_"], st.output, "-"))
  {
    RpnRunsOne("-", st, RpnState(st.stack + ["_"], st.output, "-"));
  }

  lemma PopNothing(st: RpnState, t: string)
    requires |t| > 0 && (st.stack == [] || st.stack[|st.stack| - 1] == "(")
    ensures PopOps(st, t) == st
  {
    ParensNotOps();
  }

  lemma AfterOperand(st: RpnState, e: Expr)
    requires st.output != [] && st.prev == LastToken(e)
    ensures !UnaryPosition(st)
  {
    ParensNotOps();
    DecimalIsRun(if e.Lit? then e.n else 0);
  }

  lemma BinaryStep(op: char, st: RpnState)
    requires BinaryOp(op) && !UnaryPosition(st) && PopOps(st, [op]) == st
    ensures RpnStep(st, [op]) == Going(RpnState(st.stack + [[op]], st.output, [op]))
  {
  }

  /** A binary operator after an operand, above `(` or an empty stack, pops nothing and is pushed. */
  lemma ConvertBinaryOp(op: char, st: RpnState, e: Expr)
    requires BinaryOp(op) && st.output != [] && st.prev == LastToken(e)
    requires st.stack == [] || st.stack[|st.stack| - 1] == "("
    ensures RpnRuns([[op]], st) == Going(RpnState(st.stack + [[op]], st.output, [op]))
  {
    AfterOperand(st, e);
    PopNothing(st, [op]);
    BinaryStep(op, st);
    RpnRunsOne([op], st, RpnState(st.stack + [[op]], st.output, [op]));
  }

  lemma PopOneParen(stack: seq<string>, output: seq<string>, prev: string, o: string)
    requires o != "("
    ensures PopParen(RpnState(stack + ["(", o], output, prev)) == Matched(RpnState(stack, output + [o], prev))
  {
    var st := RpnState(stack + ["(", o], output, prev);
    var st' := RpnState(stack + ["("], output + [o], prev);
    assert st.stack[..|st.stack| - 1] == stack + ["("];
    assert PopParen(st) == PopParen(st');
    assert st'.stack[..|st'.stack| - 1] == stack;
  }

  /** `)` moves the one operator above its `(` to the output and drops the `(`. */
  lemma ConvertClose(stack: seq<string>, output: seq<string>, prev: string, o: string)
    requires o != "("
    ensures RpnRuns([")"], RpnState(stack + ["(", o], output, prev)) == Going(RpnState(stack, output + [o], ")"))
  {
    PopOneParen(stack, output, prev, o);
    ParensNotOps();
    RpnRunsOne(")", RpnState(stack + ["(", o], output, prev), RpnState(stack, output + [o], ")"));
  }

  lemma RpnChain(a: seq<string>, b: seq<string>, st: RpnState, s1: RpnState, s2: RpnState)
    requires RpnRuns(a, st) == Going(s1) && RpnRuns(b, s1) == Going(s2)
    ensures RpnRuns(a + b, st) == Going(s2)
  {
    RpnRunsConcat(a, b, st, s1);
  }

  lemma RpnChain3(a: seq<string>, b: seq<string>, c: seq<string>, st: RpnState, s1: RpnState, s2: RpnState, s3: RpnState)
    requires RpnRuns(a, st) == Going(s1) && RpnRuns(b, s1) == Going(s2) && RpnRuns(c, s2) == Going(s3)
    ensures RpnRuns(a + b + c, st) == Going(s3)
  {
    RpnChain(a, b, st, s1, s2);
    RpnChain(a + b, c, st, s2, s3);
  }

  /** `( - p )` where `p` converts to `post`. */
  lemma ConvertNeg(p: seq<string>, post: seq<string>, last: string, st: RpnState)
    requires RpnRuns(p, RpnState(st.stack + ["(", "_"], st.output, "-"))
      == Going(RpnState(st.stack + ["(", "_"], st.output + post, last))
    ensures RpnRuns(["(", "-"] + p + [")"], st) == Going(RpnState(st.stack, st.output + post + ["_"], ")"))
  {
    var s1 := RpnState(st.stack + ["("], st.output, "(");
    var s2 := RpnState(st.stack + ["(", "_"], st.output, "-");
    var s3 := RpnState(st.stack + ["(", "_"], st.output + post, last);
    ConvertOpen(st);
    ConvertUnaryMinus(s1);
    assert s1.stack + ["_"] == s2.stack;
    RpnChain(["("], ["-"], st, s1, s2);
    assert ["(", "-"] == ["("] + ["-"];
    ConvertClose(st.stack, st.output + post, last, "_");
    RpnChain3(["(", "-"], p, [")"], st, s2, s3, RpnState(st.stack, st.output + post + ["_"], ")"));
  }

  /** `( p op` where `p` converts to `pp` and ends in the operand `l`. */
  lemma ConvertBinLeft(op: char, p: seq<string>, pp: seq<string>, l: Expr, st: RpnState)
    requires BinaryOp(op) && pp != []
    requires RpnRuns(p, RpnState(st.stack + ["("], st.output, "("))
      == Going(RpnState(st.stack + ["("], st.output + pp, LastToken(l)))
    ensures RpnRuns(["("] + p + [[op]], st) == Going(RpnState(st.stack + ["(", [op]], st.output + pp, [op]))
  {
    var s1 := RpnState(st.stack + ["("], st.output, "(");
    var s2 := RpnState(st.stack + ["("], st.output + pp, LastToken(l));
    ConvertOpen(st);
    ConvertBinaryOp(op, s2, l);
    assert s2.stack + [[op]] == st.stack + ["(", [op]];
    RpnChain3(["("], p, [[op]], st, s1, s2, RpnState(st.stack + ["(", [op]], st.output + pp, [op]));
  }

  /** `( p op q )` where `p` and `q` convert to `pp` and `qq`, and `p` ends in the operand `l`. */
  lemma ConvertBin(op: char, p: seq<string>, q: seq<string>, pp: seq<string>, qq: seq<string>,
                   l: Expr, lastq: string, st: RpnState)
    requires BinaryOp(op) && pp != []
    requires RpnRuns(p, RpnState(st.stack + ["("], st.output, "("))
      == Going(RpnState(st.stack + ["("], st.output + pp, LastToken(l)))
    requires RpnRuns(q, RpnState(st.stack + ["(", [op]], st.output + pp, [op]))
      == Going(RpnState(st.stack + ["(", [op]], st.output + pp + qq, lastq))
    ensures RpnRuns(["("] + p + [[op]] + q + [")"], st) == Going(RpnState(st.stack, st.output + pp + qq + [[op]], ")"))
  {
    var s3 := RpnState(st.stack + ["(", [op]], st.output + pp, [op]);
    var s4 := RpnState(st.stack + ["(", [op]], st.output + pp + qq, lastq);
    ConvertBinLeft(op, p, pp, l, st);
    ConvertClose(st.stack, st.output + pp + qq, lastq, [op]);
    RpnChain3(["("] + p + [[op]], q, [")"], st, s3, s4, RpnState(st.stack, st.output + pp + qq + [[op]], ")"));
  }

  lemma PostNegAssoc(out: seq<string>, x: Expr)
    ensures out + Post(Neg(x)) == out + Post(x) + ["_"]
  {
  }

  lemma PostBinAssoc(out: seq<string>, op: char, l: Expr, r: Expr)
    ensures out + Post(Bin(op, l, r)) == out + Post(l) + Post(r) + [[op]]
  {
  }

  lemma ConvertPrintNeg(x: Expr, st: RpnState)
    requires RpnRuns(Print(x), RpnState(st.stack + ["(", "_"], st.output, "-"))
      == Going(RpnState(st.stack + ["(", "_"], st.output + Post(x), LastToken(x)))
    ensures RpnRuns(Print(Neg(x)), st) == Going(RpnState(st.stack, st.output + Post(Neg(x)), ")"))
  {
    ConvertNeg(Print(x), Post(x), LastToken(x), st);
    PostNegAssoc(st.output, x);
  }

  lemma ConvertPrintBin(op: char, l: Expr, r: Expr, st: RpnState)
    requires BinaryOp(op)
    requires RpnRuns(Print(l), RpnState(st.stack + ["("], st.output, "("))
      == Going(RpnState(st.stack + ["("], st.output + Post(l), LastToken(l)))
    requires RpnRuns(Print(r), RpnState(st.stack + ["(", [op]], st.output + Post(l), [op]))
      == Going(RpnState(st.stack + ["(", [op]], st.output + Post(l) + Post(r), LastToken(r)))
    ensures RpnRuns(Print(Bin(op, l, r)), st) == Going(RpnState(st.stack, st.output + Post(Bin(op, l, r)), ")"))
  {
    PostNonEmpty(l);
    ConvertBin(op, Print(l), Print(r), Post(l), Post(r), l, LastToken(r), st);
    PostBinAssoc(st.output, op, l, r);
  }

  /**
   * Converting a parenthesized tree appends its postfix form to the output
   * and leaves the operator stack as it found it, whatever the stack holds.
   */
  lemma {:induction false} ConvertPrint(e: Expr, st: RpnState)
    requires WellFormed(e)
    ensures RpnRuns(Print(e), st) == Going(RpnState(st.stack, st.output + Post(e), LastToken(e)))
  {
    match e {
      case Lit(n) =>
        ConvertLiteral(n, st);
      case Neg(x) =>
        ConvertPrint(x, RpnState(st.stack + ["(", "_"], st.output, "-"));
        ConvertPrintNeg(x, st);
      case Bin(op, l, r) =>
        ConvertPrint(l, RpnState(st.stack + ["("], st.output, "("));
        ConvertPrint(r, RpnState(st.stack + ["(", [op]], st.output + Post(l), [op]));
        ConvertPrintBin(op, l, r, st);
    }
  }

  lemma FlushOne(o: string, output: seq<string>)
    ensures Flush([o], output) == output + [o]
  {
    assert [o][..0] == [];
  }

  lemma ConvertTopNeg(x: Expr)
    requires WellFormed(x)
    ensures ConvertTokens(TopPrint(Neg(x)), []) == Conversion(Post(Neg(x)), false)
  {
    var st0 := RpnState([], [], "");
    var s1 := RpnState(["_"], [], "-");
    ConvertUnaryMinus(st0);
    assert [] + ["_"] == ["_"];
    ConvertPrint(x, s1);
    assert [] + Post(x) == Post(x);
    RpnRunsConcat(["-"], Print(x), st0, s1);
    FlushOne("_", Post(x));
  }

  lemma ConvertTopBin(op: char, l: Expr, r: Expr)
    requires WellFormed(Bin(op, l, r))
    ensures ConvertTokens(TopPrint(Bin(op, l, r)), []) == Conversion(Post(Bin(op, l, r)), false)
  {
    var st0 := RpnState([], [], "");
    var s2 := RpnState([], Post(l), LastToken(l));
    var s3 := RpnState([[op]], Post(l), [op]);
    ConvertPrint(l, st0);
    assert [] + Post(l) == Post(l);
    PostNonEmpty(l);
    ConvertBinaryOp(op, s2, l);
    assert [] + [[op]] == [[op]];
    RpnRunsConcat(Print(l), [[op]], st0, s2);
    ConvertPrint(r, s3);
    RpnRunsConcat(Print(l) + [[op]], Print(r), st0, s3);
    FlushOne([op], Post(l) + Post(r));
  }

  /** The outermost parentheses may be left out: the conversion still yields the postfix form. */
  lemma ConvertTopPrint(e: Expr)
    requires WellFormed(e)
    ensures ConvertTokens(TopPrint(e), []) == Conversion(Post(e), false)
  {
    match e {
      case Lit(n) =>
        ConvertLiteral(n, RpnState([], [], ""));
      case Neg(x) =>
        ConvertTopNeg(x);
      case Bin(op, l, r) =>
        ConvertTopBin(op, l, r);
    }
  }

  // ----- evaluation of the postfix form -----

  lemma {:induction false} EvalRunsConcat(a: seq<string>, b: seq<string>, st: EvalState, table: map<string, int>)
    ensures EvalRuns(a + b, st, table) ==
      match EvalRuns(a, st, table)
      case Running(st') => EvalRuns(b, st', table)
      case Stopped(e) => Stopped(e)
    decreases |a|
  {
    if a == [] {
      assert a + b == b;
    } else {
      assert (a + b)[0] == a[0] && (a + b)[1..] == a[1..] + b;
      match EvalStep(st, a[0], table) {
        case Running(st') => EvalRunsConcat(a[1..], b, st', table);
        case Stopped(_) =>
      }
    }
  }

  lemma EvalRunsOne(t: string, st: EvalState, table: map<string, int>)
    ensures EvalRuns([t], st, table) == EvalStep(st, t, table)
  {
    assert [t][1..] == [];
  }

  /** Where evaluating a postfix tree leaves the stack, by the tree's meaning. */
  function Pushed(m: Meaning, st: EvalState): EvalRun
  {
    match m
    case Val(v) => Running(EvalState(st.stack + [Some(FormatInt(v))], st.used))
    case NotNumber => Stopped(Ending(false, Pair(false, -1), st.used))
    case Throws => Stopped(Ending(true, Raised, st.used))
    case NoOperator => Stopped(Ending(false, Pair(true, -1), st.used))
  }

  lemma EvalLiteral(n: nat, st: EvalState, table: map<string, int>)
    ensures EvalRuns([Decimal(n)], st, table) == Pushed(Val(n), st)
  {
    DecimalIsRun(n);
    EvalRunsOne(Decimal(n), st, table);
  }

  /** `_` pops only its operand. */
  lemma StepUnary(y: string, st: EvalState, table: map<string, int>)
    ensures EvalStep(EvalState(st.stack + [Some(y)], st.used), "_", table) == Operate("_", None, y, st.stack, st.used, table)
  {
    var stk := st.stack + [Some(y)];
    assert stk[..|stk| - 1] == st.stack;
  }

  /** A binary operator pops its right operand `y` and the left operand `x` below it. */
  lemma StepBinary(op: char, x: string, y: string, st: EvalState, table: map<string, int>)
    requires BinaryOp(op)
    ensures EvalStep(EvalState(st.stack + [Some(x), Some(y)], st.used), [op], table) == Operate([op], Some(x), y, st.stack, st.used, table)
  {
    var stk := st.stack + [Some(x), Some(y)];
    assert stk[..|stk| - 1] == st.stack + [Some(x)];
    assert (st.stack + [Some(x)])[..|st.stack|] == st.stack;
  }

  /** What reading back the text of `v` gives. */
  function ReadBack(v: int): NumberRead
  {
    Read(if Readable(v) then Pair(true, v) else Pair(false, -1), None)
  }

  /** `_` on an operand that reads back as `v`: its negation is pushed, or the read fails. */
  lemma NegateRead(y: string, v: int, rest: seq<Option<string>>, used: set<string>, table: map<string, int>)
    requires ReadNumber(Some(y), table) == ReadBack(v)
    ensures Operate("_", None, y, rest, used, table) == Pushed(Negated(Val(v)), EvalState(rest, used))
  {
  }

  /** `_` on a pushed value: the value is read back and negated. */
  lemma EvalMinus(v: int, st: EvalState, table: map<string, int>)
    ensures EvalRuns(["_"], EvalState(st.stack + [Some(FormatInt(v))], st.used), table) == Pushed(Negated(Val(v)), st)
  {
    EvalRunsOne("_", EvalState(st.stack + [Some(FormatInt(v))], st.used), table);
    StepUnary(FormatInt(v), st, table);
    ReadFormatted(v, table);
    NegateRead(FormatInt(v), v, st.stack, st.used, table);
  }

  /** A binary operator on operands that read back as `a` and `b`: the tree's combination of the two. */
  lemma CombineReads(op: char, x: string, y: string, a: int, b: int, rest: seq<Option<string>>, used: set<string>, table: map<string, int>)
    requires BinaryOp(op)
    requires ReadNumber(Some(x), table) == ReadBack(a) && ReadNumber(Some(y), table) == ReadBack(b)
    ensures Operate([op], Some(x), y, rest, used, table) == Pushed(Combined(op, Val(a), Val(b)), EvalState(rest, used))
  {
    if Readable(a) && Readable(b) {
      var r := ApplyOp(op, a, b);
      assert Combined(op, Val(a), Val(b)) == FromApplied(r);
    }
  }

  /** A binary operator on two pushed values: both are read back and the operator applied. */
  lemma EvalOperator(op: char, a: int, b: int, st: EvalState, table: map<string, int>)
    requires BinaryOp(op)
    ensures EvalRuns([[op]], EvalState(st.stack + [Some(FormatInt(a)), Some(FormatInt(b))], st.used), table)
      == Pushed(Combined(op, Val(a), Val(b)), st)
  {
    EvalRunsOne([op], EvalState(st.stack + [Some(FormatInt(a)), Some(FormatInt(b))], st.used), table);
    StepBinary(op, FormatInt(a), FormatInt(b), st, table);
    ReadFormatted(a, table);
    ReadFormatted(b, table);
    CombineReads(op, FormatInt(a), FormatInt(b), a, b, st.stack, st.used, table);
  }

  lemma EvalNeg(x: Expr, st: EvalState, table: map<string, int>)
    requires EvalRuns(Post(x), st, table) == Pushed(Eval(x), st)
    ensures EvalRuns(Post(Neg(x)), st, table) == Pushed(Eval(Neg(x)), st)
  {
    EvalRunsConcat(Post(x), ["_"], st, table);
    if Eval(x).Val? {
      EvalMinus(Eval(x).v, st, table);
    }
  }

  lemma EvalBin(op: char, l: Expr, r: Expr, st: EvalState, table: map<string, int>)
    requires BinaryOp(op)
    requires EvalRuns(Post(l), st, table) == Pushed(Eval(l), st)
    requires Eval(l).Val? ==>
      var s1 := EvalState(st.stack + [Some(FormatInt(Eval(l).v))], st.used);
      EvalRuns(Post(r), s1, table) == Pushed(Eval(r), s1)
    ensures EvalRuns(Post(Bin(op, l, r)), st, table) == Pushed(Eval(Bin(op, l, r)), st)
  {
    EvalRunsConcat(Post(l), Post(r), st, table);
    EvalRunsConcat(Post(l) + Post(r), [[op]], st, table);
    if Eval(l).Val? && Eval(r).Val? {
      var a, b := Eval(l).v, Eval(r).v;
      assert st.stack + [Some(FormatInt(a))] + [Some(FormatInt(b))] == st.stack + [Some(FormatInt(a)), Some(FormatInt(b))];
      EvalOperator(op, a, b, st, table);
    }
  }

  /**
   * Evaluating the postfix form of a tree pushes the decimal text of its
   * value, or stops the way the tree's meaning says, whatever lies below
   * on the stack.
   */
  lemma {:induction false} EvalPost(e: Expr, st: EvalState, table: map<string, int>)
    requires WellFormed(e)
    ensures EvalRuns(Post(e), st, table) == Pushed(Eval(e), st)
  {
    match e {
      case Lit(n) =>
        EvalLiteral(n, st, table);
      case Neg(x) =>
        EvalPost(x, st, table);
        EvalNeg(x, st, table);
      case Bin(op, l, r) =>
        EvalPost(l, st, table);
        if Eval(l).Val? {
          EvalPost(r, EvalState(st.stack + [Some(FormatInt(Eval(l).v))], st.used), table);
        }
        EvalBin(op, l, r, st, table);
    }
  }

  /** Evaluating a whole postfix tree ends as its meaning says. */
  lemma EvaluatePost(e: Expr, table: map<string, int>, used: set<string>)
    requires WellFormed(e)
    ensures Evaluation(Post(e), table, used) == Outcome(Eval(e), used)
  {
    EvalPost(e, EvalState([], used), table);
    if Eval(e).Val? {
      ReadFormatted(Eval(e).v, table);
      assert [] + [Some(FormatInt(Eval(e).v))] == [Some(FormatInt(Eval(e).v))];
    }
  }

  // ----- the whole pipeline -----

  /**
   * `parse` of a written-out tree (outer parentheses optional) that fits
   * the token slots and is not itself a symbol: tokenize, convert and
   * evaluate end exactly as the tree evaluates, and no symbol is recorded.
   */
  lemma ParsesAsTree(e: Expr, table: map<string, int>, used: set<string>)
    requires WellFormed(e) && |TopPrint(e)| <= 32 && Concat(TopPrint(e)) !in table
    ensures Parsed(Concat(TopPrint(e)), table, used).end == Outcome(Eval(e), used)
  {
    TopPrintSeparated(e);
    TokensRoundTrip(TopPrint(e));
    ConvertTopPrint(e);
    EvaluatePost(e, table, used);
  }

  // ----- two operators without parentheses -----

  /**
   * How `x o1 y o2 z` groups by the documented levels: to the left when
   * `o1` binds at least as tightly as `o2` (so one level associates to the
   * left), to the right when `o2` binds tighter.
   */
  function Grouped(x: Expr, o1: char, y: Expr, o2: char, z: Expr): Expr
  {
    if Level(o1) <= Level(o2) then Bin(o2, Bin(o1, x, y), z) else Bin(o1, x, Bin(o2, y, z))
  }

  /** `x o1 y o2 z` with each operand written out in full. */
  function ChainTokens(x: Expr, o1: char, y: Expr, o2: char, z: Expr): seq<string>
  {
    Print(x) + [[o1]] + Print(y) + [[o2]] + Print(z)
  }

  lemma ChainSeparated(x: Expr, o1: char, y: Expr, o2: char, z: Expr)
    requires WellFormed(x) && WellFormed(y) && WellFormed(z) && BinaryOp(o1) && BinaryOp(o2)
    ensures Separated(ChainTokens(x, o1, y, o2, z))
  {
    PrintSeparated(x);
    PrintSeparated(y);
    PrintSeparated(z);
    SeparatedJoin(Print(x), [[o1]]);
    SeparatedJoin(Print(x) + [[o1]], Print(y));
    SeparatedJoin(Print(x) + [[o1]] + Print(y), [[o2]]);
    SeparatedJoin(Print(x) + [[o1]] + Print(y) + [[o2]], Print(z));
  }

  /** `x o1 y` leaves `o1` alone on the stack above the postfix forms of `x` and `y`. */
  lemma ConvertChainStart(x: Expr, o1: char, y: Expr)
    requires WellFormed(x) && WellFormed(y) && BinaryOp(o1)
    ensures RpnRuns(Print(x) + [[o1]] + Print(y), RpnState([], [], ""))
      == Going(RpnState([[o1]], Post(x) + Post(y), LastToken(y)))
  {
    var st0 := RpnState([], [], "");
    var s1 := RpnState([], Post(x), LastToken(x));
    var s2 := RpnState([[o1]], Post(x), [o1]);
    ConvertPrint(x, st0);
    assert [] + Post(x) == Post(x);
    PostNonEmpty(x);
    ConvertBinaryOp(o1, s1, x);
    assert [] + [[o1]] == [[o1]];
    ConvertPrint(y, s2);
    RpnChain3(Print(x), [[o1]], Print(y), st0, s1, s2, RpnState([[o1]], Post(x) + Post(y), LastToken(y)));
  }

  /** A second operator that binds no tighter than `o1` moves `o1` to the output and takes its place. */
  lemma SecondOpPops(o1: char, o2: char, st: RpnState)
    requires BinaryOp(o1) && BinaryOp(o2) && OpPriority([o1], [o2]) >= 0
    requires st.stack == [[o1]] && !UnaryPosition(st)
    ensures RpnRuns([[o2]], st) == Going(RpnState([[o2]], st.output + [[o1]], [o2]))
  {
    assert [[o1]][..0] == [];
    assert PopOps(st, [o2]) == PopOps(RpnState([], st.output + [[o1]], st.prev), [o2]);
    RpnRunsOne([o2], st, RpnState([[o2]], st.output + [[o1]], [o2]));
  }

  /** A second operator that binds tighter than `o1` goes on the stack above it. */
  lemma SecondOpStays(o1: char, o2: char, st: RpnState)
    requires BinaryOp(o1) && BinaryOp(o2) && OpPriority([o1], [o2]) < 0
    requires st.stack == [[o1]] && !UnaryPosition(st)
    ensures RpnRuns([[o2]], st) == Going(RpnState([[o1], [o2]], st.output, [o2]))
  {
    assert PopOps(st, [o2]) == st;
    assert [[o1]] + [[o2]] == [[o1], [o2]];
    RpnRunsOne([o2], st, RpnState([[o1], [o2]], st.output, [o2]));
  }

  lemma PostRightGrouped(o1: char, x: Expr, o2: char, y: Expr, z: Expr)
    ensures Post(Bin(o1, x, Bin(o2, y, z))) == Post(x) + Post(y) + Post(z) + [[o2], [o1]]
  {
    var px, py, pz := Post(x), Post(y), Post(z);
    assert Post(Bin(o2, y, z)) == py + pz + [[o2]];
    assert px + (py + pz + [[o2]]) + [[o1]] == px + py + pz + [[o2], [o1]];
  }

  lemma FlushTwo(o1: string, o2: string, output: seq<string>)
    ensures Flush([o1, o2], output) == output + [o2, o1]
  {
    assert [o1, o2][..1] == [o1];
    FlushOne(o1, output + [o2]);
  }

  /** When `o1` binds at least as tightly, `o2` first moves it to the output. */
  lemma ConvertChainLeft(x: Expr, o1: char, y: Expr, o2: char, z: Expr)
    requires WellFormed(x) && WellFormed(y) && WellFormed(z) && BinaryOp(o1) && BinaryOp(o2)
    requires OpPriority([o1], [o2]) >= 0
    ensures ConvertTokens(ChainTokens(x, o1, y, o2, z), []) == Conversion(Post(Bin(o2, Bin(o1, x, y), z)), false)
  {
    var st0 := RpnState([], [], "");
    var out := Post(x) + Post(y);
    var s3 := RpnState([[o1]], out, LastToken(y));
    var s4 := RpnState([[o2]], out + [[o1]], [o2]);
    var s5 := RpnState([[o2]], out + [[o1]] + Post(z), LastToken(z));
    ConvertChainStart(x, o1, y);
    PostNonEmpty(y);
    AfterOperand(s3, y);
    SecondOpPops(o1, o2, s3);
    RpnChain(Print(x) + [[o1]] + Print(y), [[o2]], st0, s3, s4);
    ConvertPrint(z, s4);
    RpnChain(Print(x) + [[o1]] + Print(y) + [[o2]], Print(z), st0, s4, s5);
    FlushOne([o2], s5.output);
  }

  /** When `o2` binds tighter, it goes on the stack above `o1` and leaves first. */
  lemma ConvertChainRight(x: Expr, o1: char, y: Expr, o2: char, z: Expr)
    requires WellFormed(x) && WellFormed(y) && WellFormed(z) && BinaryOp(o1) && BinaryOp(o2)
    requires OpPriority([o1], [o2]) < 0
    ensures ConvertTokens(ChainTokens(x, o1, y, o2, z), []) == Conversion(Post(Bin(o1, x, Bin(o2, y, z))), false)
  {
    var st0 := RpnState([], [], "");
    var out := Post(x) + Post(y);
    var s3 := RpnState([[o1]], out, LastToken(y));
    var s4 := RpnState([[o1], [o2]], out, [o2]);
    var s5 := RpnState([[o1], [o2]], out + Post(z), LastToken(z));
    ConvertChainStart(x, o1, y);
    PostNonEmpty(y);
    AfterOperand(s3, y);
    SecondOpStays(o1, o2, s3);
    RpnChain(Print(x) + [[o1]] + Print(y), [[o2]], st0, s3, s4);
    ConvertPrint(z, s4);
    RpnChain(Print(x) + [[o1]] + Print(y) + [[o2]], Print(z), st0, s4, s5);
    FlushTwo([o1], [o2], s5.output);
    assert ChainTokens(x, o1, y, o2, z) == Print(x) + [[o1]] + Print(y) + [[o2]] + Print(z);
    PostRightGrouped(o1, x, o2, y, z);
  }

  /**
   * Without parentheses, `x o1 y o2 z` converts to the postfix form of the
   * grouping the documented levels give.
   */
  lemma ConvertChain(x: Expr, o1: char, y: Expr, o2: char, z: Expr)
    requires WellFormed(x) && WellFormed(y) && WellFormed(z) && BinaryOp(o1) && BinaryOp(o2)
    ensures ConvertTokens(ChainTokens(x, o1, y, o2, z), []) == Conversion(Post(Grouped(x, o1, y, o2, z)), false)
  {
    OpPriorityFollowsLevels([o1], [o2]);
    if Level(o1) <= Level(o2) {
      ConvertChainLeft(x, o1, y, o2, z);
    } else {
      ConvertChainRight(x, o1, y, o2, z);
    }
  }

  /**
   * `parse` of `x o1 y o2 z`: the tighter operator is applied first, and of
   * two on one level the left one; the result is that grouping's meaning.
   */
  lemma ParsesChain(x: Expr, o1: char, y: Expr, o2: char, z: Expr, table: map<string, int>, used: set<string>)
    requires WellFormed(x) && WellFormed(y) && WellFormed(z) && BinaryOp(o1) && BinaryOp(o2)
    requires |ChainTokens(x, o1, y, o2, z)| <= 32 && Concat(ChainTokens(x, o1, y, o2, z)) !in table
    ensures Parsed(Concat(ChainTokens(x, o1, y, o2, z)), table, used).end == Outcome(Eval(Grouped(x, o1, y, o2, z)), used)
  {
    ChainSeparated(x, o1, y, o2, z);
    TokensRoundTrip(ChainTokens(x, o1, y, o2, z));
    ConvertChain(x, o1, y, o2, z);
    EvaluatePost(Grouped(x, o1, y, o2, z), table, used);
  }

  /** The text of `a o1 b o2 c` for single digits. */
  lemma DigitChainText(a: nat, o1: char, b: nat, o2: char, c: nat)
    requires a < 10 && b < 10 && c < 10
    ensures |ChainTokens(Lit(a), o1, Lit(b), o2, Lit(c))| == 5
    ensures Concat(ChainTokens(Lit(a), o1, Lit(b), o2, Lit(c))) == [DigitChar(a), o1, DigitChar(b), o2, DigitChar(c)]
  {
    var t1 := [Decimal(a)];
    var t2 := t1 + [[o1]];
    var t3 := t2 + [Decimal(b)];
    var t4 := t3 + [[o2]];
    ConcatSnoc([], Decimal(a));
    assert [] + [Decimal(a)] == t1;
    ConcatSnoc(t1, [o1]);
    ConcatSnoc(t2, Decimal(b));
    ConcatSnoc(t3, [o2]);
    ConcatSnoc(t4, Decimal(c));
    assert t4 + [Decimal(c)] == ChainTokens(Lit(a), o1, Lit(b), o2, Lit(c));
  }

  lemma ProductFirst()
    ensures Grouped(Lit(2), '+', Lit(3), '*', Lit(4)) == Bin('+', Lit(2), Bin('*', Lit(3), Lit(4)))
    ensures Eval(Grouped(Lit(2), '+', Lit(3), '*', Lit(4))) == Val(14)
  {
    assert Level('+') == 3 && Level('*') == 2;
    assert ApplyOp('*', 3, 4) == Value(12);
    assert ApplyOp('+', 2, 12) == Value(14);
  }

  /** `2+3*4` is 14: the product is taken first. */
  lemma TwoPlusThreeTimesFourIsFourteen(table: map<string, int>, used: set<string>)
    requires "2+3*4" !in table
    ensures Parsed("2+3*4", table, used).end == Ending(false, Pair(true, 14), used)
  {
    DigitChainText(2, '+', 3, '*', 4);
    assert [DigitChar(2), '+', DigitChar(3), '*', DigitChar(4)] == "2+3*4";
    ProductFirst();
    ParsesChain(Lit(2), '+', Lit(3), '*', Lit(4), table, used);
  }

  /** `8-4-2` is 2: subtraction associates to the left. */
  lemma EightMinusFourMinusTwo(table: map<string, int>, used: set<string>)
    requires "8-4-2" !in table
    ensures Parsed("8-4-2", table, used).end == Ending(false, Pair(true, 2), used)
  {
    DigitChainText(8, '-', 4, '-', 2);
    assert [DigitChar(8), '-', DigitChar(4), '-', DigitChar(2)] == "8-4-2";
    assert ApplyOp('-', 8, 4) == Value(4);
    assert ApplyOp('-', 4, 2) == Value(2);
    ParsesChain(Lit(8), '-', Lit(4), '-', Lit(2), table, used);
  }

  /** The tree of `(2+3)*4`. */
  const Sample: Expr := Bin('*', Bin('+', Lit(2), Lit(3)), Lit(4))

  /** The tokens `TopPrint` writes for the sample tree. */
  const SampleTokens: seq<string> := ["(", "2", "+", "3", ")", "*", "4"]

  lemma SamplePrint()
    ensures TopPrint(Sample) == SampleTokens
  {
    assert Decimal(2) == "2" && Decimal(3) == "3" && Decimal(4) == "4";
  }

  /** One more token adds its text at the end. */
  lemma ConcatSnoc(toks: seq<string>, t: string)
    ensures Concat(toks + [t]) == Concat(toks) + t
  {
    assert (toks + [t])[..|toks|] == toks;
  }

  lemma SampleConcat()
    ensures Concat(SampleTokens) == "(2+3)*4"
  {
    var t1: seq<string> := ["("];
    var t2 := t1 + ["2"];
    var t3 := t2 + ["+"];
    var t4 := t3 + ["3"];
    var t5 := t4 + [")"];
    var t6 := t5 + ["*"];
    ConcatSnoc([], "(");
    assert [] + ["("] == t1;
    ConcatSnoc(t1, "2");
    ConcatSnoc(t2, "+");
    ConcatSnoc(t3, "3");
    ConcatSnoc(t4, ")");
    ConcatSnoc(t5, "*");
    ConcatSnoc(t6, "4");
    assert t6 + ["4"] == SampleTokens;
  }

  lemma SampleText()
    ensures |TopPrint(Sample)| == 7 && Concat(TopPrint(Sample)) == "(2+3)*4"
  {
    SamplePrint();
    SampleConcat();
  }

  lemma SampleValue()
    ensures WellFormed(Sample) && Eval(Sample) == Val(20)
  {
    assert ApplyOp('+', 2, 3) == Value(5);
    assert ApplyOp('*', 5, 4) == Value(20);
  }

  /** `(2+3)*4` evaluates to 20. */
  lemma TwoPlusThreeTimesFour(table: map<string, int>, used: set<string>)
    requires "(2+3)*4" !in table
    ensures Parsed("(2+3)*4", table, used).end == Ending(false, Pair(true, 20), used)
  {
    SampleText();
    SampleValue();
    ParsesAsTree(Sample, table, used);
  }

  /** A division by zero throws out of `parse`. */
  lemma DivisionByZeroThrows(a: nat, table: map<string, int>, used: set<string>)
    requires a <= MaxInt && Concat(TopPrint(Bin('/', Lit(a), Lit(0)))) !in table
    ensures Parsed(Concat(TopPrint(Bin('/', Lit(a), Lit(0)))), table, used).end.raised
  {
    ParsesAsTree(Bin('/', Lit(a), Lit(0)), table, used);
  }

  /**
   * An operator other than `+`, `-` or `~` in unary position ends the
   * conversion with nothing converted, and the empty postfix list
   * evaluates to (true, -1): such an expression is "successfully" -1.
   */
  lemma BadUnaryOperator(o: char, w: string, table: map<string, int>, used: set<string>)
    requires IsOpChar(o) && o != '+' && o != '-' && o != '~' && PlainRun(w)
    requires [o] + w !in table
    ensures Parsed([o] + w, table, used).end == Ending(false, Pair(true, -1), used)
  {
    var toks := [[o], w];
    assert Separated(toks);
    assert Concat([[o]]) == [o] by { assert [[o]][..0] == []; }
    assert toks[..1] == [[o]];
    assert Concat(toks) == [o] + w;
    TokensRoundTrip(toks);
    assert RpnStep(RpnState([], [], ""), [o]) == Broke(RpnState([], [], ""));
  }
}
