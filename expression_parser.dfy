/**
 * The assembler's expression evaluator. An expression is cut into at most
 * 64 token slots, converted to postfix order by the shunting-yard
 * algorithm (with `+`, `-` and `~` in unary position rewritten to the
 * internal operators `=`, `_` and `~`), and evaluated on a stack of
 * strings: every intermediate result is pushed back in decimal and read
 * again like a literal. Literals take a radix prefix (`$` binary, `#` hex,
 * `@` octal, decimal otherwise) and an optional sign; anything else is a
 * symbol looked up in the symbol table and recorded as used.
 *
 * Java exceptions that escape `parse` (an index past the 64 slots, a `)`
 * without its `(`, a division by zero, a lone sign) are the `raised` flag
 * of the results below; the pair that comes with a raised result carries
 * no meaning.
 */
module ExpressionParser {
  import opened Wrappers
  import opened JavaString
  import opened Bits

  const MaxInt: int := 0x7FFF_FFFF
  const MinInt: int := -0x8000_0000

  // ---------------------------------------------------------------------------
  // Operators

  /** `MAX_TOKENS`: the number of token slots of `tokenize`. */
  const MaxTokens: nat := 64

  /**
   * `ops_`: the operators three to a priority group, the tightest group
   * first; `'\0'` pads the groups with only two members.
   */
  const Ops: seq<char> := ['=', '_', '~', '!', '<', '>', '*', '/', '\0', '+', '-', '\0', '&', '|', '^', '\\', '%', '\0']

  /** `isOp(char)`. */
  predicate IsOpChar(c: char)
  {
    c in Ops
  }

  /** `isOp(String)`: a one-character operator. */
  predicate IsOp(s: string)
  {
    |s| == 1 && IsOpChar(s[0])
  }

  /** The last position of `c` in `s`, or 0 when `c` does not occur: the scan of `opPriority`. */
  function LastIndex(s: seq<char>, c: char): (j: nat)
    ensures c in s ==> j < |s| && s[j] == c && forall k :: j < k < |s| ==> s[k] != c
    ensures c !in s ==> j == 0
  {
    if s == [] then 0
    else if s[|s| - 1] == c then |s| - 1
    else
      assert c in s ==> c in s[..|s| - 1] by {
        if c in s {
          var k :| 0 <= k < |s| && s[k] == c;
          assert s[..|s| - 1][k] == c;
        }
      }
      LastIndex(s[..|s| - 1], c)
  }

  /** The priority group of an operator character: its position in `ops_` divided by three. */
  function Group(c: char): nat
  {
    LastIndex(Ops, c) / 3
  }

  /** `opPriority`: 1 when `c1` binds tighter than `c2`, 0 for the same group, -1 when looser. */
  function OpPriority(c1: string, c2: string): (r: int)
    requires |c1| > 0 && |c2| > 0
    ensures r == 1 || r == 0 || r == -1
  {
    var g1 := Group(c1[0]);
    var g2 := Group(c2[0]);
    if g1 > g2 then -1 else if g1 == g2 then 0 else 1
  }

  // ---------------------------------------------------------------------------
  // Reading numbers

  /** The pair `parse`, `evaluate` and `getNumber` return: success and value. */
  datatype Pair = Pair(ok: bool, value: int)

  /** What `getNumber` ends with: its pair and the symbol it recorded as used, or the exception of a lone sign. */
  datatype NumberRead = Read(p: Pair, symbol: Option<string>) | LoneSign

  /** The used-symbol set after a read that may have recorded a symbol. */
  function Marked(used: set<string>, symbol: Option<string>): set<string>
  {
    if symbol.Some? then used + {symbol.value} else used
  }

  /** `Character.isDigit` on ASCII. */
  predicate IsDigit(c: char)
  {
    '0' <= c <= '9'
  }

  /** `Character.digit` on ASCII, before the radix test: -1 for a character that is no digit at all. */
  function DigitOf(c: char): (d: int)
    ensures -1 <= d < 36
  {
    if '0' <= c <= '9' then c as int - '0' as int
    else if 'a' <= c <= 'z' then c as int - 'a' as int + 10
    else if 'A' <= c <= 'Z' then c as int - 'A' as int + 10
    else -1
  }

  /** The value of a string of digits in a radix, or None when some character is no digit of it. */
  function DigitsValue(ds: string, radix: nat): (r: Option<nat>)
    ensures r.Some? ==> forall k :: 0 <= k < |ds| ==> 0 <= DigitOf(ds[k]) < radix
  {
    if ds == [] then Some(0)
    else
      var d := DigitOf(ds[|ds| - 1]);
      match DigitsValue(ds[..|ds| - 1], radix)
      case None => None
      case Some(m) => if 0 <= d < radix then Some(m * radix + d) else None
  }

  /**
   * `Integer.parseInt(t, radix)`: an optional sign and at least one digit,
   * with a value that fits an `int`; None stands for the
   * `NumberFormatException`.
   */
  function ParseInt(t: string, radix: nat): (r: Option<int>)
    ensures r.Some? ==> IsInt32(r.value)
  {
    if t == [] then None
    else
      var signed := t[0] == '-' || t[0] == '+';
      if signed && |t| == 1 then None
      else
        match DigitsValue(if signed then t[1..] else t, radix)
        case None => None
        case Some(m) =>
          var v: int := if t[0] == '-' then 0 - m else m;
          if IsInt32(v) then Some(v) else None
  }

  /** `getNumber` as a function of the string (None for `null`) and the symbol table. */
  function ReadNumber(s: Option<string>, table: map<string, int>): (r: NumberRead)
    ensures r.Read? && r.p.ok ==> IsInt32(r.p.value)
    ensures r.Read? && !r.p.ok ==> r.p == Pair(false, -1) && r.symbol.None?
    ensures r.Read? && r.symbol.Some? ==> r.symbol.value in table
  {
    if s.None? || |s.value| < 1 then Read(Pair(false, -1), None)
    else
      var t := s.value;
      var signed := t[0] == '-' || t[0] == '+';
      if signed && |t| < 2 then LoneSign
      else
        var sign := if t[0] == '-' then -1 else 1;
        var at := if signed then 1 else 0;
        var c := t[at];
        if c == '$' || c == '#' || c == '@' || IsDigit(c) then
          var radix := if c == '$' then 2 else if c == '#' then 16 else if c == '@' then 8 else 10;
          var start := if IsDigit(c) then at else at + 1;
          match ParseInt(t[start..], radix)
          case None => Read(Pair(false, -1), None)
          case Some(n) => Read(Pair(true, Wrap32(n * sign)), None)
        else
          var name := t[at..];
          if name in table then Read(Pair(true, Wrap32(table[name] * sign)), Some(name))
          else Read(Pair(false, -1), None)
  }

  /** `String.format("%d", v)`. */
  function FormatInt(v: int): string
  {
    if v < 0 then "-" + Decimal(-v) else Decimal(v)
  }

  // ---------------------------------------------------------------------------
  // Java `int` arithmetic

  function Abs(x: int): nat
  {
    if x < 0 then -x else x
  }

  /** Java's `/`: the quotient truncated toward zero. */
  function JavaDiv(a: int, b: int): int
    requires b != 0
  {
    var q := Abs(a) / Abs(b);
    if (a < 0) == (b < 0) then q else -q
  }

  /** Java's `%`: the remainder of the truncated quotient, with the sign of `a`. */
  function JavaRem(a: int, b: int): int
    requires b != 0
  {
    a - b * JavaDiv(a, b)
  }

  function IntPow(a: int, e: nat): int
  {
    if e == 0 then 1 else a * IntPow(a, e - 1)
  }

  /** The `(int)` cast of a value too large for an `int`: it saturates. */
  function Clamp32(x: int): (r: int)
    ensures IsInt32(r)
    ensures IsInt32(x) ==> r == x
  {
    if x > MaxInt then MaxInt else if x < MinInt then MinInt else x
  }

  /**
   * `(int)Math.pow(a, b)` for integer arguments. A non-negative exponent
   * gives the exact power (exact in a double when it fits an `int`, and
   * saturated by the cast when it does not); a negative one gives a
   * fraction that the cast truncates, except for the bases 1, -1 and 0
   * (whose infinity saturates to the largest `int`).
   */
  function JavaPow(a: int, b: int): (r: int)
    ensures IsInt32(r)
  {
    if b >= 0 then Clamp32(IntPow(a, b))
    else if a == 0 then MaxInt
    else if a == 1 then 1
    else if a == -1 then (if b % 2 == 0 then 1 else -1)
    else 0
  }

  /** What an operator does to its operands: a value, the division-by-zero exception, or an operator `evaluate` does not know. */
  datatype Applied = Value(v: int) | DivideByZero | UnknownOp

  /** The `switch` of `evaluate`: `a` is the left operand (0 when missing), `b` the right one. */
  function ApplyOp(op: char, a: int, b: int): Applied
    requires IsInt32(a) && IsInt32(b)
  {
    match op
    case '=' => Value(b)
    case '_' => Value(Wrap32(-b))
    case '~' => Value(-b - 1)
    case '!' => Value(JavaPow(a, b))
    case '+' => Value(Wrap32(a + b))
    case '-' => Value(Wrap32(a - b))
    case '*' => Value(Wrap32(a * b))
    case '/' => if b == 0 then DivideByZero else Value(Wrap32(JavaDiv(a, b)))
    case '<' => Value(Wrap32(a * Pow2(b % 32)))
    case '>' => Value(Wrap32(Unsigned32(a) / Pow2(b % 32)))
    case '&' => Value(Wrap32(BitAnd(Unsigned32(a), Unsigned32(b))))
    case '|' => Value(Wrap32(BitOr(Unsigned32(a), Unsigned32(b))))
    case '^' => Value(Wrap32(BitXor(Unsigned32(a), Unsigned32(b))))
    case '\\' => if b == 0 then DivideByZero else Value(Wrap32(JavaDiv(a, b)))
    case '%' => if b == 0 then DivideByZero else Value(JavaRem(a, b))
    case _ => UnknownOp
  }

  // ---------------------------------------------------------------------------
  // tokenize

  /** The characters that separate tokens: space, tab, LF and CR. */
  predicate IsBlank(c: char)
  {
    c == ' ' || c == '\t' || c == '\n' || c == '\r'
  }

  /** The characters that always form a token of their own. */
  predicate IsSingle(c: char)
  {
    IsOpChar(c) || c == '(' || c == ')'
  }

  /**
   * The tokenizer's state: the 64 slots (None for a slot never written),
   * the current slot, and `pi` (-1 before the first character, 0 after a
   * character that extends a token, 1 once the current token is closed).
   */
  datatype TokState = TokState(slots: seq<Option<string>>, current: nat, pi: int)

  function NoSlots(): (s: seq<Option<string>>)
    ensures |s| == MaxTokens && forall k :: 0 <= k < |s| ==> s[k].None?
  {
    seq(MaxTokens, _ => None)
  }

  const TokStart: TokState := TokState(NoSlots(), 0, -1)

  /** A slot's text with one more character. */
  function Appended(slot: Option<string>, c: char): string
  {
    (if slot.Some? then slot.value else []) + [c]
  }

  /** One character of `tokenize`; None is the index exception past the last slot. */
  function TokStep(st: TokState, c: char): (r: Option<TokState>)
    requires |st.slots| == MaxTokens
    ensures r.Some? ==> |r.value.slots| == MaxTokens
  {
    if IsBlank(c) then
      Some(if st.pi == 0 then TokState(st.slots, st.current + 1, 1) else st)
    else if IsSingle(c) then
      var k := st.current + 1;
      if k < MaxTokens then Some(TokState(st.slots[k := Some(Appended(st.slots[k], c))], k + 1, 1))
      else None
    else
      var ch := if c == '.' then '0' else c;
      if st.current < MaxTokens then
        Some(TokState(st.slots[st.current := Some(Appended(st.slots[st.current], ch))], st.current, 0))
      else None
  }

  /** The character loop of `tokenize` over `s`. */
  function TokScan(s: string, st: TokState): (r: Option<TokState>)
    requires |st.slots| == MaxTokens
    ensures r.Some? ==> |r.value.slots| == MaxTokens
    decreases |s|
  {
    if s == [] then Some(st)
    else
      match TokStep(st, s[0])
      case None => None
      case Some(st') => TokScan(s[1..], st')
  }

  /** The written slots in order: the fill-up loop of `tokenize`. */
  function Collect(slots: seq<Option<string>>): seq<string>
  {
    if slots == [] then []
    else Collect(slots[..|slots| - 1]) + (if slots[|slots| - 1].Some? then [slots[|slots| - 1].value] else [])
  }

  /** `tokenize` as a function of the expression; None when the slots run out. */
  function ExprTokens(expr: string): Option<seq<string>>
  {
    match TokScan(expr, TokStart)
    case None => None
    case Some(st) => Some(Collect(st.slots))
  }

  // ---------------------------------------------------------------------------
  // convertToRPN

  /** The conversion's state: the operator stack (top last), the postfix output so far, and the previous token. */
  datatype RpnState = RpnState(stack: seq<string>, output: seq<string>, prev: string)

  /** After some tokens: still going, stopped by a bad unary operator, or thrown by a `)` without `(` (with the output written so far). */
  datatype RpnRun = Going(st: RpnState) | Broke(st: RpnState) | Threw(partial: seq<string>)

  /** The result of `convertToRPN`: the postfix list it leaves, and whether it threw. */
  datatype Conversion = Conversion(postfix: seq<string>, raised: bool)

  /** Before a binary operator `t`: pop the operators that bind at least as tight. */
  function PopOps(st: RpnState, t: string): (r: RpnState)
    requires |t| > 0
    ensures r.prev == st.prev
    decreases |st.stack|
  {
    if st.stack != [] && IsOp(st.stack[|st.stack| - 1]) && OpPriority(st.stack[|st.stack| - 1], t) >= 0 then
      PopOps(RpnState(st.stack[..|st.stack| - 1], st.output + [st.stack[|st.stack| - 1]], st.prev), t)
    else st
  }

  /** What `)` finds popping back to its `(`. */
  datatype ParenPop = Matched(st: RpnState) | Unbalanced(output: seq<string>)

  /** At `)`: move the operators above the nearest `(` to the output and drop the `(`. */
  function PopParen(st: RpnState): (r: ParenPop)
    ensures r.Matched? ==> r.st.prev == st.prev
    decreases |st.stack|
  {
    if st.stack == [] then Unbalanced(st.output)
    else
      var top := st.stack[|st.stack| - 1];
      if top == "(" then Matched(RpnState(st.stack[..|st.stack| - 1], st.output, st.prev))
      else PopParen(RpnState(st.stack[..|st.stack| - 1], st.output + [top], st.prev))
  }

  /** The final loop of `convertToRPN`: the remaining stack, top first, onto the output. */
  function Flush(stack: seq<string>, output: seq<string>): seq<string>
    decreases |stack|
  {
    if stack == [] then output
    else Flush(stack[..|stack| - 1], output + [stack[|stack| - 1]])
  }

  /** Whether an operator token in this state is in unary position. */
  predicate UnaryPosition(st: RpnState)
  {
    IsOp(st.prev) || |st.output| == 0 || st.prev == "(" || |st.prev| == 0
  }

  /** One token of `convertToRPN`. */
  function RpnStep(st: RpnState, t: string): RpnRun
  {
    if IsOp(t) then
      if UnaryPosition(st) then
        if t == "+" then Going(RpnState(st.stack + ["="], st.output, t))
        else if t == "-" then Going(RpnState(st.stack + ["_"], st.output, t))
        else if t == "~" then Going(RpnState(st.stack + ["~"], st.output, t))
        else Broke(st)
      else
        var popped := PopOps(st, t);
        Going(RpnState(popped.stack + [t], popped.output, t))
    else if t == "(" then Going(RpnState(st.stack + [t], st.output, t))
    else if t == ")" then
      match PopParen(st)
      case Unbalanced(partial) => Threw(partial)
      case Matched(popped) => Going(RpnState(popped.stack, popped.output, t))
    else Going(RpnState(st.stack, st.output + [t], t))
  }

  /** The token loop of `convertToRPN`. */
  function RpnRuns(toks: seq<string>, st: RpnState): RpnRun
    decreases |toks|
  {
    if toks == [] then Going(st)
    else
      match RpnStep(st, toks[0])
      case Going(st') => RpnRuns(toks[1..], st')
      case Broke(st') => Broke(st')
      case Threw(p) => Threw(p)
  }

  /** `convertToRPN` on the tokens, appending to the postfix list `output`. */
  function ConvertTokens(toks: seq<string>, output: seq<string>): Conversion
  {
    match RpnRuns(toks, RpnState([], output, ""))
    case Going(st) => Conversion(Flush(st.stack, st.output), false)
    case Broke(st) => Conversion(Flush(st.stack, st.output), false)
    case Threw(p) => Conversion(p, true)
  }

  // ---------------------------------------------------------------------------
  // evaluate

  /** How `evaluate` (or `parse`) ends: raised, or the pair it returns; and the used-symbol set. */
  datatype Ending = Ending(raised: bool, p: Pair, used: set<string>)

  /** The evaluation stack (top last, None for a pushed `null`) and the used-symbol set. */
  datatype EvalState = EvalState(stack: seq<Option<string>>, used: set<string>)

  /** After some postfix items: still running, or ended early. */
  datatype EvalRun = Running(st: EvalState) | Stopped(end: Ending)

  const Raised: Pair := Pair(false, -1)

  /** One unary operator (no left operand is taken for these). */
  predicate IsUnaryOp(s: string)
  {
    s == "_" || s == "=" || s == "~"
  }

  /** The operator case of `evaluate`, after popping `second` and maybe `first`. */
  function Operate(s: string, first: Option<string>, second: string, rest: seq<Option<string>>,
                   used: set<string>, table: map<string, int>): EvalRun
    requires |s| > 0
  {
    var r1 := if first.Some? then ReadNumber(first, table) else Read(Pair(true, 0), None);
    if r1.LoneSign? then Stopped(Ending(true, Raised, used))
    else
      var used1 := Marked(used, r1.symbol);
      var r2 := ReadNumber(Some(second), table);
      if r2.LoneSign? then Stopped(Ending(true, Raised, used1))
      else
        var used2 := Marked(used1, r2.symbol);
        if r1.p.ok && r2.p.ok then
          match ApplyOp(s[0], r1.p.value, r2.p.value)
          case Value(t) => Running(EvalState(rest + [Some(FormatInt(t))], used2))
          case DivideByZero => Stopped(Ending(true, Raised, used2))
          case UnknownOp => Stopped(Ending(false, Pair(true, -1), used2))
        else Stopped(Ending(false, Pair(false, -1), used2))
  }

  /** One postfix item of `evaluate`. */
  function EvalStep(st: EvalState, s: string, table: map<string, int>): EvalRun
  {
    if !IsOp(s) then Running(EvalState(st.stack + [Some(s)], st.used))
    else
      var stk := st.stack;
      var second := if stk == [] then None else stk[|stk| - 1];
      var stk1 := if stk == [] then [] else stk[..|stk| - 1];
      var takesFirst := stk1 != [] && !IsUnaryOp(s);
      var first := if takesFirst then stk1[|stk1| - 1] else None;
      var stk2 := if takesFirst then stk1[..|stk1| - 1] else stk1;
      if second.None? then Running(EvalState(stk2 + [None], st.used))
      else Operate(s, first, second.value, stk2, st.used, table)
  }

  /** The item loop of `evaluate`. */
  function EvalRuns(post: seq<string>, st: EvalState, table: map<string, int>): EvalRun
    decreases |post|
  {
    if post == [] then Running(st)
    else
      match EvalStep(st, post[0], table)
      case Running(st') => EvalRuns(post[1..], st', table)
      case Stopped(e) => Stopped(e)
  }

  /** After the loop: the top of the stack read as a number, or (true, -1) for an empty stack. */
  function Finish(st: EvalState, table: map<string, int>): Ending
  {
    if st.stack == [] then Ending(false, Pair(true, -1), st.used)
    else
      match ReadNumber(st.stack[|st.stack| - 1], table)
      case LoneSign => Ending(true, Raised, st.used)
      case Read(p, sym) => Ending(false, p, Marked(st.used, sym))
  }

  /** `evaluate` on a postfix list. */
  function Evaluation(post: seq<string>, table: map<string, int>, used: set<string>): Ending
  {
    match EvalRuns(post, EvalState([], used), table)
    case Running(st) => Finish(st, table)
    case Stopped(e) => e
  }

  // ---------------------------------------------------------------------------
  // parse

  /** What `parse` ends with, and the token and postfix lists it leaves behind. */
  datatype ParseEnd = ParseEnd(end: Ending, tokens: seq<string>, postfix: seq<string>)

  /** `parse` with the symbol table it ends up using. */
  function Parsed(expr: string, table: map<string, int>, used: set<string>): ParseEnd
  {
    if expr in table then ParseEnd(Ending(false, Pair(true, table[expr]), used + {expr}), [], [])
    else
      match ExprTokens(expr)
      case None => ParseEnd(Ending(true, Raised, used), [], [])
      case Some(toks) =>
        var c := ConvertTokens(toks, []);
        if c.raised then ParseEnd(Ending(true, Raised, used), toks, c.postfix)
        else ParseEnd(Evaluation(c.postfix, table, used), toks, c.postfix)
  }

  /** One item of `evaluate` only adds symbols of the table to the used set. */
  lemma EvalStepUsed(st: EvalState, s: string, table: map<string, int>)
    ensures var r := EvalStep(st, s, table);
      var u := if r.Running? then r.st.used else r.end.used;
      st.used <= u <= st.used + table.Keys
  {
  }

  /** The evaluation loop only adds to the used set, and only symbols of the table. */
  lemma {:induction false} EvalRunsUsed(post: seq<string>, st: EvalState, table: map<string, int>)
    ensures var r := EvalRuns(post, st, table);
      var u := if r.Running? then r.st.used else r.end.used;
      st.used <= u <= st.used + table.Keys
    decreases |post|
  {
    if post != [] {
      EvalStepUsed(st, post[0], table);
      match EvalStep(st, post[0], table)
      case Running(st') => EvalRunsUsed(post[1..], st', table);
      case Stopped(e) =>
    }
  }

  /** `parse` only adds to the used set, and only names the symbol table holds. */
  lemma ParsedUsed(expr: string, table: map<string, int>, used: set<string>)
    ensures used <= Parsed(expr, table, used).end.used <= used + table.Keys
  {
    if expr !in table && ExprTokens(expr).Some? {
      var c := ConvertTokens(ExprTokens(expr).value, []);
      EvalRunsUsed(c.postfix, EvalState([], used), table);
    }
  }

  /** An operator step does the same to the stack whatever symbols were marked used before. */
  lemma OperateSame(s: string, first: Option<string>, second: string, rest: seq<Option<string>>,
                    u1: set<string>, u2: set<string>, table: map<string, int>)
    requires |s| > 0
    ensures var r1 := Operate(s, first, second, rest, u1, table);
      var r2 := Operate(s, first, second, rest, u2, table);
      r1.Running? == r2.Running? &&
      (r1.Running? ==> r1.st.stack == r2.st.stack) &&
      (r1.Stopped? ==> r1.end.raised == r2.end.raised && r1.end.p == r2.end.p)
  {
    var r1 := if first.Some? then ReadNumber(first, table) else Read(Pair(true, 0), None);
    var r2 := ReadNumber(Some(second), table);
    if !r1.LoneSign? && !r2.LoneSign? && r1.p.ok && r2.p.ok {
      match ApplyOp(s[0], r1.p.value, r2.p.value)
      case Value(t) =>
      case DivideByZero =>
      case UnknownOp =>
    }
  }

  /** One item of `evaluate` does the same to the stack whatever symbols were marked used before. */
  lemma EvalStepSame(st1: EvalState, st2: EvalState, s: string, table: map<string, int>)
    requires st1.stack == st2.stack
    ensures var r1 := EvalStep(st1, s, table);
      var r2 := EvalStep(st2, s, table);
      r1.Running? == r2.Running? &&
      (r1.Running? ==> r1.st.stack == r2.st.stack) &&
      (r1.Stopped? ==> r1.end.raised == r2.end.raised && r1.end.p == r2.end.p)
  {
    if IsOp(s) {
      var stk := st1.stack;
      var second := if stk == [] then None else stk[|stk| - 1];
      var stk1 := if stk == [] then [] else stk[..|stk| - 1];
      var takesFirst := stk1 != [] && !IsUnaryOp(s);
      var first := if takesFirst then stk1[|stk1| - 1] else None;
      var stk2 := if takesFirst then stk1[..|stk1| - 1] else stk1;
      if second.Some? {
        OperateSame(s, first, second.value, stk2, st1.used, st2.used, table);
      }
    }
  }

  /** The evaluation loop: the used set read so far does not change the outcome. */
  lemma {:induction false} EvalRunsSame(post: seq<string>, st1: EvalState, st2: EvalState, table: map<string, int>)
    requires st1.stack == st2.stack
    ensures var r1 := EvalRuns(post, st1, table);
      var r2 := EvalRuns(post, st2, table);
      r1.Running? == r2.Running? &&
      (r1.Running? ==> r1.st.stack == r2.st.stack) &&
      (r1.Stopped? ==> r1.end.raised == r2.end.raised && r1.end.p == r2.end.p)
    decreases |post|
  {
    if post != [] {
      EvalStepSame(st1, st2, post[0], table);
      var r1 := EvalStep(st1, post[0], table);
      var r2 := EvalStep(st2, post[0], table);
      if r1.Running? {
        EvalRunsSame(post[1..], r1.st, r2.st, table);
      }
    }
  }

  /** What `parse` answers depends on the expression and the table only, not on the used set. */
  lemma ParsedSame(expr: string, table: map<string, int>, u1: set<string>, u2: set<string>)
    ensures Parsed(expr, table, u1).end.raised == Parsed(expr, table, u2).end.raised
    ensures Parsed(expr, table, u1).end.p == Parsed(expr, table, u2).end.p
  {
    if expr !in table && ExprTokens(expr).Some? {
      var c := ConvertTokens(ExprTokens(expr).value, []);
      if !c.raised {
        EvalRunsSame(c.postfix, EvalState([], u1), EvalState([], u2), table);
      }
    }
  }

  // ---------------------------------------------------------------------------
  // The parser object

  class ExpressionParser {
    var tokens: seq<string>
    var expr: string
    var postfix: seq<string>
    var symbolTable: map<string, int>
    /** `usedSymbolSet_`: every symbol an expression has read. */
    var usedSymbols: set<string>

    constructor ()
      ensures tokens == [] && expr == [] && postfix == [] && symbolTable == map[] && usedSymbols == {}
    {
      tokens := [];
      expr := [];
      postfix := [];
      symbolTable := map[];
      usedSymbols := {};
    }

    /** `init`: the used set starts with `?`, the current-address symbol. */
    method Init()
      modifies this`usedSymbols
      ensures usedSymbols == {"?"}
      ensures GetUsedSymbolSet() == {"?"}
    {
      usedSymbols := {"?"};
    }

    /** `pushSymbolAsUsed`. */
    method PushSymbolAsUsed(sym: string)
      modifies this`usedSymbols
      ensures usedSymbols == old(usedSymbols) + {sym}
      ensures sym in GetUsedSymbolSet() && old(GetUsedSymbolSet()) <= GetUsedSymbolSet()
    {
      usedSymbols := usedSymbols + {sym};
    }

    /** `getUsedSymbolSet`. */
    function GetUsedSymbolSet(): (s: set<string>)
      reads this
      ensures s == usedSymbols
    {
      usedSymbols
    }

    /**
     * `parse`: a table given replaces the current one; an expression that
     * is itself a key yields that key's value and marks it used, anything
     * else is tokenized, converted and evaluated.
     */
    method Parse(e: string, symbolTab: Option<map<string, int>>) returns (raised: bool, p: Pair)
      modifies this
      ensures expr == e
      ensures symbolTable == if symbolTab.Some? then symbolTab.value else old(symbolTable)
      ensures var r := Parsed(e, symbolTable, old(usedSymbols));
        Ending(raised, p, usedSymbols) == r.end && tokens == r.tokens && postfix == r.postfix
      ensures old(GetUsedSymbolSet()) <= GetUsedSymbolSet() <= old(GetUsedSymbolSet()) + symbolTable.Keys
    {
      ParsedUsed(e, if symbolTab.Some? then symbolTab.value else symbolTable, usedSymbols);
      expr := e;
      postfix := [];
      tokens := [];
      if symbolTab.Some? {
        symbolTable := symbolTab.value;
      }
      if e in symbolTable {
        usedSymbols := usedSymbols + {e};
        return false, Pair(true, symbolTable[e]);
      }
      raised := Tokenize();
      if raised {
        return true, Raised;
      }
      assert tokens == ExprTokens(e).value;
      raised := ConvertToRPN();
      if raised {
        return true, Raised;
      }
      raised, p := Evaluate();
    }

    /** `tokenize`: appends the tokens of `expr` to `tokens`, unless a slot index runs past the last slot. */
    method Tokenize() returns (raised: bool)
      modifies this`tokens
      ensures raised <==> ExprTokens(expr).None?
      ensures tokens == if raised then old(tokens) else old(tokens) + ExprTokens(expr).value
    {
      var sbs := new Option<string>[MaxTokens](_ => None);
      assert sbs[..] == NoSlots();
      var i := 0;
      var current := 0;
      var pi := -1;
      while i < |expr|
        invariant 0 <= i <= |expr|
        invariant TokScan(expr, TokStart) == TokScan(expr[i..], TokState(sbs[..], current, pi))
        invariant tokens == old(tokens)
      {
        var c := expr[i];
        assert expr[i..][0] == c && expr[i..][1..] == expr[i + 1..];
        if IsBlank(c) {
          if pi == 0 {
            current := current + 1;
            pi := 1;
          }
          i := i + 1;
          continue;
        }
        pi := 0;
        if IsSingle(c) {
          // the token before is closed (pi is 0 here)
          current := current + 1;
          pi := 1;
          if current >= MaxTokens {
            return true;
          }
          sbs[current] := Some(Appended(sbs[current], c));
          current := current + 1;
        } else {
          var ch := if c == '.' then '0' else c;
          if current >= MaxTokens {
            return true;
          }
          sbs[current] := Some(Appended(sbs[current], ch));
        }
        i := i + 1;
      }
      ghost var slots := sbs[..];
      assert TokScan(expr, TokStart) == Some(TokState(slots, current, pi));
      var j := 0;
      while j < MaxTokens
        invariant 0 <= j <= MaxTokens
        invariant sbs[..] == slots
        invariant tokens == old(tokens) + Collect(slots[..j])
      {
        assert slots[..j + 1][..j] == slots[..j] && slots[..j + 1][j] == sbs[j];
        if sbs[j].Some? {
          tokens := tokens + [sbs[j].value];
        }
        j := j + 1;
      }
      assert slots[..MaxTokens] == slots;
      return false;
    }

    /** The popping loop before a binary operator `t`. */
    static method PopTighter(st: RpnState, t: string) returns (r: RpnState)
      requires |t| > 0
      ensures r == PopOps(st, t)
    {
      var stack := st.stack;
      var output := st.output;
      while stack != [] && IsOp(stack[|stack| - 1]) && OpPriority(stack[|stack| - 1], t) >= 0
        invariant PopOps(st, t) == PopOps(RpnState(stack, output, st.prev), t)
        decreases |stack|
      {
        output := output + [stack[|stack| - 1]];
        stack := stack[..|stack| - 1];
      }
      return RpnState(stack, output, st.prev);
    }

    /** The popping loop of `)`: back to the nearest `(`, or until the pop on an empty stack throws. */
    static method PopToParen(st: RpnState) returns (r: ParenPop)
      ensures r == PopParen(st)
    {
      var stack := st.stack;
      var output := st.output;
      if stack == [] {
        return Unbalanced(output);
      }
      var top := stack[|stack| - 1];
      stack := stack[..|stack| - 1];
      while top != "("
        invariant PopParen(st) == PopParen(RpnState(stack + [top], output, st.prev))
        decreases |stack|
      {
        assert (stack + [top])[..|stack|] == stack;
        output := output + [top];
        if stack == [] {
          return Unbalanced(output);
        }
        top := stack[|stack| - 1];
        stack := stack[..|stack| - 1];
      }
      assert (stack + [top])[..|stack|] == stack;
      return Matched(RpnState(stack, output, st.prev));
    }

    /** `convertToRPN`: appends the postfix form of `tokens` to `postfix`. */
    method ConvertToRPN() returns (raised: bool)
      modifies this`postfix
      ensures ConvertTokens(tokens, old(postfix)) == Conversion(postfix, raised)
    {
      var stack: seq<string> := [];
      var prev := "";
      var i := 0;
      while i < |tokens|
        invariant 0 <= i <= |tokens|
        invariant RpnRuns(tokens, RpnState([], old(postfix), "")) == RpnRuns(tokens[i..], RpnState(stack, postfix, prev))
      {
        var t := tokens[i];
        assert tokens[i..][0] == t && tokens[i..][1..] == tokens[i + 1..];
        if IsOp(t) {
          if IsOp(prev) || |postfix| == 0 || prev == "(" || |prev| == 0 {
            var special := "";
            if t == "+" {
              special := "=";
            } else if t == "-" {
              special := "_";
            } else if t == "~" {
              special := "~";
            } else {
              // a bad unary operator ends the conversion
              break;
            }
            stack := stack + [special];
          } else {
            var popped := PopTighter(RpnState(stack, postfix, prev), t);
            stack := popped.stack + [t];
            postfix := popped.output;
          }
        } else if t == "(" {
          stack := stack + [t];
        } else if t == ")" {
          var popped := PopToParen(RpnState(stack, postfix, prev));
          if popped.Unbalanced? {
            postfix := popped.output;
            return true;
          }
          stack := popped.st.stack;
          postfix := popped.st.output;
        } else {
          postfix := postfix + [t];
        }
        prev := t;
        i := i + 1;
      }
      ghost var left := RpnRuns(tokens, RpnState([], old(postfix), ""));
      assert (left.Going? || left.Broke?) && left.st == RpnState(stack, postfix, prev);
      ghost var stack0, output0 := stack, postfix;
      while stack != []
        invariant Flush(stack0, output0) == Flush(stack, postfix)
        decreases |stack|
      {
        postfix := postfix + [stack[|stack| - 1]];
        stack := stack[..|stack| - 1];
      }
      return false;
    }

    /** `getNumber`: reads a literal or a symbol, recording a symbol it finds as used. */
    method GetNumber(numberStr: Option<string>) returns (raised: bool, f: Pair)
      modifies this`usedSymbols
      ensures match ReadNumber(numberStr, symbolTable)
        case LoneSign => raised && f == Raised && usedSymbols == old(usedSymbols)
        case Read(p, sym) => !raised && f == p && usedSymbols == Marked(old(usedSymbols), sym)
    {
      if numberStr.None? || |numberStr.value| < 1 {
        return false, Pair(false, -1);
      }
      var t := numberStr.value;
      var radix := 10;
      var sign := 1;
      var startIndex := 0;
      var isVar := false;
      var c := t[0];
      if c == '-' || c == '+' {
        if |t| < 2 {
          // charAt(1) throws
          return true, Raised;
        }
        sign := if c == '-' then -1 else 1;
        c := t[1];
        startIndex := startIndex + 1;
      }
      if c == '$' {
        radix := 2;
        startIndex := startIndex + 1;
      } else if c == '#' {
        radix := 16;
        startIndex := startIndex + 1;
      } else if c == '@' {
        radix := 8;
        startIndex := startIndex + 1;
      } else if !IsDigit(c) {
        isVar := true;
      }
      if !isVar {
        var n := ParseInt(t[startIndex..], radix);
        if n.None? {
          return false, Pair(false, -1);
        }
        return false, Pair(true, Wrap32(n.value * sign));
      }
      var vname := t[startIndex..];
      if vname !in symbolTable {
        return false, Pair(false, -1);
      }
      usedSymbols := usedSymbols + {vname};
      return false, Pair(true, Wrap32(symbolTable[vname] * sign));
    }

    /** The operator case of `evaluate` once its operands are popped. */
    method ApplyOperator(s: string, first: Option<string>, second: string, rest: seq<Option<string>>)
      returns (r: EvalRun)
      requires |s| > 0
      modifies this`usedSymbols
      ensures r == Operate(s, first, second, rest, old(usedSymbols), symbolTable)
      ensures r.Running? ==> usedSymbols == r.st.used
      ensures r.Stopped? ==> usedSymbols == r.end.used
    {
      var p1 := Pair(true, 0);
      var raised;
      if first.Some? {
        raised, p1 := GetNumber(first);
        if raised {
          return Stopped(Ending(true, Raised, usedSymbols));
        }
      }
      var p2;
      raised, p2 := GetNumber(Some(second));
      if raised {
        return Stopped(Ending(true, Raised, usedSymbols));
      }
      if !(p1.ok && p2.ok) {
        // the stack is cleared and the loop left with (false, -1)
        return Stopped(Ending(false, Pair(false, -1), usedSymbols));
      }
      var tmp := ApplyOp(s[0], p1.value, p2.value);
      match tmp {
        case Value(v) =>
          return Running(EvalState(rest + [Some(FormatInt(v))], usedSymbols));
        case DivideByZero =>
          return Stopped(Ending(true, Raised, usedSymbols));
        case UnknownOp =>
          return Stopped(Ending(false, Pair(true, -1), usedSymbols));
      }
    }

    /** `evaluate`: runs the postfix list on a stack of strings. */
    method Evaluate() returns (raised: bool, p: Pair)
      modifies this`usedSymbols
      ensures Evaluation(postfix, symbolTable, old(usedSymbols)) == Ending(raised, p, usedSymbols)
    {
      p := Pair(true, -1);
      var stack: seq<Option<string>> := [];
      var i := 0;
      while i < |postfix|
        invariant 0 <= i <= |postfix|
        invariant EvalRuns(postfix, EvalState([], old(usedSymbols)), symbolTable)
          == EvalRuns(postfix[i..], EvalState(stack, usedSymbols), symbolTable)
      {
        var s := postfix[i];
        assert postfix[i..][0] == s && postfix[i..][1..] == postfix[i + 1..];
        if !IsOp(s) {
          stack := stack + [Some(s)];
        } else {
          var first: Option<string> := None;
          var second: Option<string> := None;
          if stack != [] {
            second := stack[|stack| - 1];
            stack := stack[..|stack| - 1];
          }
          if stack != [] && !IsUnaryOp(s) {
            first := stack[|stack| - 1];
            stack := stack[..|stack| - 1];
          }
          if second.Some? {
            var r := ApplyOperator(s, first, second.value, stack);
            if r.Stopped? {
              return r.end.raised, r.end.p;
            }
            stack := r.st.stack;
          } else {
            stack := stack + [second];
          }
        }
        i := i + 1;
      }
      if stack != [] {
        raised, p := GetNumber(stack[|stack| - 1]);
        return raised, p;
      }
      return false, p;
    }
  }
}
