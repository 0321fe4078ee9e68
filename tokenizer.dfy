/**
 * The assembler's tokenizer. The source text is cut into lines at CR LF, a
 * lone CR or a lone LF, the lines are numbered from 1, and each line is cut
 * into tokens: a `;` outside a string starts a comment, `,` separates,
 * `:` and `=` become the tokens ":" and "EQU", letters are upper-cased and
 * `.` reads as `0` outside quoted strings, and whitespace separates only the
 * leading label and mnemonic from what follows (later whitespace is
 * dropped, so `2 + 3` is the single token `2+3`).
 */
module Tokenizer {
  import opened Wrappers
  import opened JavaString
  import opened AsmErrors

  const Quote: char := '\''

  predicate IsWhitespace(c: char)
  {
    c == ' ' || c == '\t'
  }

  predicate IsLineBreak(c: char)
  {
    c == '\r' || c == '\n'
  }

  /** `TokenizedLine`: the tokens of one source line and its line number. */
  datatype TokenizedLine = TokenizedLine(tokens: seq<string>, lineNo: int)

  // ---------------------------------------------------------------------------
  // Splitting into lines

  /**
   * The lines of `s`, given the characters `cur` already collected for the
   * current line: each terminator ends one line, and a trailing segment
   * without a terminator is the last line when it is not empty.
   */
  function SplitLines(s: string, cur: string): (r: seq<string>)
    decreases |s|
  {
    if s == [] then (if cur != [] then [cur] else [])
    else if |s| >= 2 && s[0] == '\r' && s[1] == '\n' then [cur] + SplitLines(s[2..], [])
    else if IsLineBreak(s[0]) then [cur] + SplitLines(s[1..], [])
    else SplitLines(s[1..], cur + [s[0]])
  }

  /** The three line terminators. */
  predicate IsTerminator(t: string)
  {
    t == "\n" || t == "\r" || t == "\r\n"
  }

  predicate NoBreaks(l: string)
  {
    forall j :: 0 <= j < |l| ==> !IsLineBreak(l[j])
  }

  /** Lines each followed by its own terminator. */
  function Terminated(ls: seq<string>, ts: seq<string>): string
    requires |ls| == |ts|
  {
    if ls == [] then [] else ls[0] + ts[0] + Terminated(ls[1..], ts[1..])
  }

  /** A lone CR whose next line is empty and LF-ended would read as one CR LF instead. */
  predicate Unambiguous(ls: seq<string>, ts: seq<string>)
    requires |ls| == |ts|
  {
    forall k :: 0 <= k < |ls| - 1 ==> ts[k] == "\r" && ls[k + 1] == [] ==> ts[k + 1] != "\n" && ts[k + 1] != "\r\n"
  }

  /** One terminated line, then the rest. */
  lemma {:induction false} SplitOneLine(l: string, t: string, rest: string, cur: string)
    requires NoBreaks(l) && IsTerminator(t)
    requires t == "\r" ==> rest == [] || rest[0] != '\n'
    ensures SplitLines(l + t + rest, cur) == [cur + l] + SplitLines(rest, [])
    decreases |l|
  {
    if l == [] {
      var s := l + t + rest;
      assert s == t + rest && cur + l == cur;
      assert s[0] == t[0];
      if t == "\r\n" {
        assert s[1] == '\n' && s[2..] == rest;
      } else {
        assert s[1..] == rest;
        assert t == "\r" ==> |s| < 2 || s[1] != '\n';
      }
    } else {
      assert (l + t + rest)[1..] == l[1..] + t + rest;
      assert (l + t + rest)[0] == l[0];
      SplitOneLine(l[1..], t, rest, cur + [l[0]]);
      assert cur + [l[0]] + l[1..] == cur + l;
    }
  }

  /** Dropping the first line keeps the rest unambiguous. */
  lemma UnambiguousTail(ls: seq<string>, ts: seq<string>)
    requires |ls| == |ts| > 0 && Unambiguous(ls, ts)
    ensures Unambiguous(ls[1..], ts[1..])
  {
    forall k | 0 <= k < |ls[1..]| - 1
      ensures ts[1..][k] == "\r" && ls[1..][k + 1] == [] ==> ts[1..][k + 1] != "\n" && ts[1..][k + 1] != "\r\n"
    {
      assert ts[1..][k] == ts[k + 1] && ls[1..][k + 1] == ls[k + 2] && ts[1..][k + 1] == ts[k + 2];
    }
  }

  /** What follows a lone CR does not start with LF, so the CR ends its line alone. */
  lemma AfterLoneReturn(ls: seq<string>, ts: seq<string>, last: string)
    requires |ls| == |ts| > 0
    requires forall k :: 0 <= k < |ls| ==> NoBreaks(ls[k]) && IsTerminator(ts[k])
    requires Unambiguous(ls, ts) && NoBreaks(last)
    requires ts[|ts| - 1] == "\r" ==> last == [] || last[0] != '\n'
    requires ts[0] == "\r"
    ensures var rest := Terminated(ls[1..], ts[1..]) + last; rest == [] || rest[0] != '\n'
  {
    var rest := Terminated(ls[1..], ts[1..]) + last;
    if rest != [] {
      if |ls| > 1 {
        assert Terminated(ls[1..], ts[1..]) == ls[1] + ts[1] + Terminated(ls[2..], ts[2..]);
        if ls[1] == [] {
          assert rest == ts[1] + Terminated(ls[2..], ts[2..]) + last;
          assert rest[0] == ts[1][0];
        } else {
          assert rest[0] == ls[1][0];
        }
      } else {
        assert rest == last;
      }
    }
  }

  /** Every CR LF, lone CR and lone LF ends exactly one line, in order. */
  lemma {:induction false} SplitTerminated(ls: seq<string>, ts: seq<string>, last: string)
    requires |ls| == |ts|
    requires forall k :: 0 <= k < |ls| ==> NoBreaks(ls[k]) && IsTerminator(ts[k])
    requires Unambiguous(ls, ts) && NoBreaks(last)
    requires |ts| > 0 && ts[|ts| - 1] == "\r" ==> last == [] || last[0] != '\n'
    ensures SplitLines(Terminated(ls, ts) + last, []) == ls + (if last == [] then [] else [last])
    decreases |ls|
  {
    if ls == [] {
      assert Terminated(ls, ts) + last == last;
      NoBreakLine(last, []);
    } else {
      var rest := Terminated(ls[1..], ts[1..]) + last;
      assert Terminated(ls, ts) + last == ls[0] + ts[0] + rest;
      UnambiguousTail(ls, ts);
      if ts[0] == "\r" {
        AfterLoneReturn(ls, ts, last);
      }
      SplitOneLine(ls[0], ts[0], rest, []);
      SplitTerminated(ls[1..], ts[1..], last);
      var tail: seq<string> := if last == [] then [] else [last];
      assert [[] + ls[0]] + (ls[1..] + tail) == ls + tail by {
        assert [] + ls[0] == ls[0];
        assert [ls[0]] + ls[1..] == ls;
      }
    }
  }

  /** A final segment without a terminator is one line when not empty. */
  lemma {:induction false} NoBreakLine(l: string, cur: string)
    requires NoBreaks(l)
    ensures SplitLines(l, cur) == if cur + l == [] then [] else [cur + l]
    decreases |l|
  {
    if l == [] {
      assert cur + l == cur;
    } else {
      assert !IsLineBreak(l[0]);
      NoBreakLine(l[1..], cur + [l[0]]);
      assert cur + [l[0]] + l[1..] == cur + l;
    }
  }

  // ---------------------------------------------------------------------------
  // Cutting one line into tokens

  /**
   * The per-line scanner state of `tokenizeOneLine`: the tokens so far, the
   * token being built, and its flags `inStr`, `metWS`, `labelEncountered`
   * and `posToStopWSDelim`.
   */
  datatype LineState = LineState(tokens: seq<string>, token: string, inStr: bool, metWS: bool, afterLabel: bool, stopPos: int)

  const Start: LineState := LineState([], [], false, false, false, 1)

  /** Ends the token being built, if it has any characters. */
  function FlushToken(st: LineState): (r: LineState)
    ensures r.token == []
    ensures r.tokens == st.tokens + (if st.token != [] then [st.token] else [])
    ensures r.inStr == st.inStr && r.metWS == st.metWS && r.afterLabel == st.afterLabel && r.stopPos == st.stopPos
  {
    if st.token != [] then st.(tokens := st.tokens + [st.token], token := []) else st
  }

  /** Ends the token being built and adds a token of its own. */
  function Emit(st: LineState, t: string): (r: LineState)
    ensures r.token == [] && r.tokens == FlushToken(st).tokens + [t]
    ensures r.inStr == st.inStr && r.metWS == st.metWS && r.afterLabel == st.afterLabel && r.stopPos == st.stopPos
  {
    var f := FlushToken(st);
    f.(tokens := f.tokens + [t])
  }

  /** Whitespace outside a string: only the first of a run counts, and it ends the token only early in the line. */
  function AtWhitespace(st: LineState): (r: LineState)
    ensures r.tokens == st.tokens || (st.token != [] && r.tokens == st.tokens + [st.token] && r.token == [])
    ensures r.tokens == st.tokens ==> r.token == st.token
    ensures !st.metWS ==> r.metWS
    ensures st.metWS ==> r == st
    ensures !st.metWS ==>
      (r.tokens != st.tokens <==> st.token != [] && |st.tokens| < (if st.afterLabel then 3 else st.stopPos))
  {
    if st.metWS then st
    else
      var s1 := st.(metWS := true);
      var s2 := if s1.afterLabel then s1.(stopPos := 3, afterLabel := false) else s1;
      if s2.token != [] && |s2.tokens| < s2.stopPos then FlushToken(s2) else s2
  }

  /** A character added to a token outside a string: `.` reads as `0`, letters are upper-cased. */
  function Normalize(c: char): (n: char)
    ensures n != '.' && !('a' <= n <= 'z')
    ensures c != '.' ==> n == UpperAscii(c)
  {
    if c == '.' then '0' else UpperAscii(c)
  }

  /** One character outside a string that neither starts a comment nor begins a doubled quote. */
  function Outside(st: LineState, c: char): (r: LineState)
    ensures !st.inStr && c != Quote ==> !r.inStr
  {
    if IsWhitespace(c) then AtWhitespace(st)
    else if c == Quote then st.(metWS := false, inStr := true)
    else if c == ':' then Emit(st.(metWS := false), ":").(afterLabel := true)
    else if c == '=' then Emit(st.(metWS := false), "EQU")
    else if c == ',' then FlushToken(st.(metWS := false))
    else st.(metWS := false, token := st.token + [Normalize(c)])
  }

  /** One character inside a string that does not begin a doubled quote: kept verbatim, or the closing quote. */
  function Inside(st: LineState, c: char): LineState
  {
    if c == Quote then st.(inStr := false, tokens := st.tokens + [st.token], token := [])
    else st.(token := st.token + [c])
  }

  /** The tokens of `sb[i..]` scanned from state `st`. */
  function Scan(sb: string, i: nat, st: LineState): (r: seq<string>)
    decreases |sb| - i
  {
    if i >= |sb| then FlushToken(st).tokens
    else if i < |sb| - 1 && sb[i] == Quote && sb[i + 1] == Quote then
      Scan(sb, i + 2, st.(token := st.token + [Quote]))
    else if !st.inStr && sb[i] == ';' then FlushToken(st).tokens
    else if !st.inStr then Scan(sb, i + 1, Outside(st, sb[i]))
    else Scan(sb, i + 1, Inside(st, sb[i]))
  }

  /** `tokenizeOneLine` as a function of the line. */
  function LineTokens(sb: string): seq<string>
  {
    Scan(sb, 0, Start)
  }

  /** The token lines of raw lines, numbered in order. */
  function Numbered(raw: seq<string>): (r: seq<TokenizedLine>)
    ensures |r| == |raw|
  {
    if raw == [] then []
    else Numbered(raw[..|raw| - 1]) + [TokenizedLine(LineTokens(raw[|raw| - 1]), |raw|)]
  }

  /** How `SplitLines` goes on at position i: a CR LF, a single terminator, or a character of the line. */
  lemma SplitAt(s: string, i: nat, cur: string)
    requires i < |s|
    ensures i < |s| - 1 && s[i] == '\r' && s[i + 1] == '\n' ==>
      SplitLines(s[i..], cur) == [cur] + SplitLines(s[i + 2..], [])
    ensures !(i < |s| - 1 && s[i] == '\r' && s[i + 1] == '\n') && IsLineBreak(s[i]) ==>
      SplitLines(s[i..], cur) == [cur] + SplitLines(s[i + 1..], [])
    ensures !(i < |s| - 1 && s[i] == '\r' && s[i + 1] == '\n') && !IsLineBreak(s[i]) ==>
      SplitLines(s[i..], cur) == SplitLines(s[i + 1..], cur + [s[i]])
  {
    assert s[i..][1..] == s[i + 1..];
    if i < |s| - 1 {
      assert s[i..][2..] == s[i + 2..];
    }
  }

  /** One more raw line adds one numbered line at the end. */
  lemma NumberedSnoc(raw: seq<string>, l: string)
    ensures Numbered(raw + [l]) == Numbered(raw) + [TokenizedLine(LineTokens(l), |raw| + 1)]
  {
    assert (raw + [l])[..|raw|] == raw;
  }

  /** Line k (from 0) carries number k + 1 and the tokens of the k-th raw line. */
  lemma {:induction false} NumberedLines(raw: seq<string>)
    ensures forall k :: 0 <= k < |raw| ==>
      Numbered(raw)[k].lineNo == k + 1 && Numbered(raw)[k].tokens == LineTokens(raw[k])
    decreases |raw|
  {
    if raw != [] {
      var init := raw[..|raw| - 1];
      NumberedLines(init);
      assert forall k :: 0 <= k < |init| ==> init[k] == raw[k];
    }
  }

  /** `tokenize` as a function of the input: None for a missing or empty text. */
  function Tokens(input: Option<string>): (r: Option<seq<TokenizedLine>>)
    ensures r.None? <==> input.None? || input.value == []
  {
    if input.None? || input.value == [] then None
    else Some(Numbered(SplitLines(input.value, [])))
  }

  /** The numbered lines `tokenize` returns: line numbers 1, 2, 3, ... over the split lines. */
  lemma TokensNumbering(input: string)
    requires input != []
    ensures var r := Tokens(Some(input)).value;
      var ls := SplitLines(input, []);
      |r| == |ls| && forall k :: 0 <= k < |r| ==> r[k].lineNo == k + 1 && r[k].tokens == LineTokens(ls[k])
  {
    NumberedLines(SplitLines(input, []));
  }

  // ---------------------------------------------------------------------------
  // Properties of the line scanner

  predicate NoQuotes(s: string)
  {
    forall j :: 0 <= j < |s| ==> s[j] != Quote
  }

  /** A character that can end up in a token written outside a string. */
  predicate PlainChar(c: char)
  {
    c != ',' && c != ';' && c != ':' && c != '=' && c != Quote && c != '.'
    && !IsWhitespace(c) && !('a' <= c <= 'z')
  }

  /** A token of a line without strings: a label suffix, an EQU, or a non-empty run of plain characters. */
  predicate PlainToken(t: string)
  {
    t == ":" || t == "EQU" || (t != [] && forall j :: 0 <= j < |t| ==> PlainChar(t[j]))
  }

  predicate PlainState(st: LineState)
  {
    !st.inStr
    && (forall k :: 0 <= k < |st.tokens| ==> PlainToken(st.tokens[k]))
    && (forall j :: 0 <= j < |st.token| ==> PlainChar(st.token[j]))
  }

  lemma OutsidePlain(st: LineState, c: char)
    requires PlainState(st) && c != Quote && c != ';'
    ensures PlainState(Outside(st, c))
  {
  }

  lemma {:induction false} ScanPlain(sb: string, i: nat, st: LineState)
    requires NoQuotes(sb) && PlainState(st)
    ensures forall k :: 0 <= k < |Scan(sb, i, st)| ==> PlainToken(Scan(sb, i, st)[k])
    decreases |sb| - i
  {
    if i < |sb| && sb[i] != ';' {
      OutsidePlain(st, sb[i]);
      ScanPlain(sb, i + 1, Outside(st, sb[i]));
    }
  }

  /**
   * On a line without quotes, every token is ":", "EQU" or a non-empty
   * upper-case run with no separator, comment, whitespace or `.` in it:
   * commas are never emitted and whitespace never survives.
   */
  lemma PlainLineTokens(sb: string)
    requires NoQuotes(sb)
    ensures forall k :: 0 <= k < |LineTokens(sb)| ==> PlainToken(LineTokens(sb)[k])
  {
    ScanPlain(sb, 0, Start);
  }

  lemma {:induction false} ScanComment(a: string, b: string, i: nat, st: LineState)
    requires NoQuotes(a) && !st.inStr && i <= |a|
    ensures Scan(a + ";" + b, i, st) == Scan(a, i, st)
    decreases |a| - i
  {
    var s := a + ";" + b;
    assert s[|a|] == ';';
    if i < |a| {
      assert s[i] == a[i];
      if a[i] != ';' {
        ScanComment(a, b, i + 1, Outside(st, a[i]));
      }
    }
  }

  /** Outside strings, `;` discards the rest of the line. */
  lemma CommentDiscardsRest(a: string, b: string)
    requires NoQuotes(a)
    ensures LineTokens(a + ";" + b) == LineTokens(a)
  {
    ScanComment(a, b, 0, Start);
  }

  function UpperAll(s: string): (u: string)
    ensures |u| == |s| && forall j :: 0 <= j < |s| ==> u[j] == UpperAscii(s[j])
  {
    seq(|s|, j requires 0 <= j < |s| => UpperAscii(s[j]))
  }

  lemma {:induction false} ScanUpper(sb: string, i: nat, st: LineState)
    requires NoQuotes(sb) && !st.inStr
    ensures Scan(UpperAll(sb), i, st) == Scan(sb, i, st)
    decreases |sb| - i
  {
    var u := UpperAll(sb);
    if i < |sb| {
      var c := sb[i];
      assert u[i] == UpperAscii(c);
      if c != ';' {
        assert Normalize(UpperAscii(c)) == Normalize(c);
        assert Outside(st, UpperAscii(c)) == Outside(st, c);
        ScanUpper(sb, i + 1, Outside(st, c));
      }
    }
  }

  /** Outside strings the case of letters does not matter. */
  lemma CaseInsensitive(sb: string)
    requires NoQuotes(sb)
    ensures LineTokens(UpperAll(sb)) == LineTokens(sb)
  {
    ScanUpper(sb, 0, Start);
  }

  /** The state of a line so far without a label: at most the mnemonic has been split off. */
  predicate UnlabelledState(st: LineState)
  {
    !st.inStr && !st.afterLabel && st.stopPos == 1 && |st.tokens| <= 1
  }

  lemma {:induction false} ScanUnlabelled(sb: string, i: nat, st: LineState)
    requires UnlabelledState(st)
    requires forall j :: 0 <= j < |sb| ==> sb[j] != Quote && sb[j] != ':' && sb[j] != '=' && sb[j] != ','
    ensures |Scan(sb, i, st)| <= 2
    decreases |sb| - i
  {
    if i < |sb| && sb[i] != ';' {
      ScanUnlabelled(sb, i + 1, Outside(st, sb[i]));
    }
  }

  /**
   * Whitespace splits only the first token off: a line with no label, no
   * `=`, no comma and no string has at most two tokens, the mnemonic and
   * everything after it run together.
   */
  lemma WhitespaceSplitsOnce(sb: string)
    requires forall j :: 0 <= j < |sb| ==> sb[j] != Quote && sb[j] != ':' && sb[j] != '=' && sb[j] != ','
    ensures |LineTokens(sb)| <= 2
  {
    ScanUnlabelled(sb, 0, Start);
  }

  /** The state of a line after its label: from the first whitespace on, the stop position is 3. */
  predicate LabelledState(st: LineState)
  {
    !st.inStr && |st.tokens| <= 3 && (st.afterLabel || st.stopPos == 3)
  }

  /** A character that neither starts a string, a label, an assignment, a separator nor a comment. */
  predicate Ordinary(c: char)
  {
    c != Quote && c != ':' && c != '=' && c != ',' && c != ';'
  }

  lemma {:induction false} ScanLabelled(sb: string, i: nat, st: LineState)
    requires LabelledState(st)
    requires forall j :: i <= j < |sb| ==> Ordinary(sb[j])
    ensures |Scan(sb, i, st)| <= 4
    decreases |sb| - i
  {
    if i < |sb| {
      ScanLabelled(sb, i + 1, Outside(st, sb[i]));
    }
  }

  lemma {:induction false} ScanToLabel(sb: string, i: nat, p: nat, st: LineState)
    requires UnlabelledState(st) && i <= p < |sb| && sb[p] == ':'
    requires forall j :: i <= j < |sb| && j != p ==> Ordinary(sb[j])
    ensures |Scan(sb, i, st)| <= 4
    decreases p - i
  {
    if i < p {
      ScanToLabel(sb, i + 1, p, Outside(st, sb[i]));
    } else {
      ScanLabelled(sb, p + 1, Outside(st, sb[p]));
    }
  }

  /**
   * After a label the threshold is 3: a line `name: rest` with no string,
   * `=`, comma, comment or second label has at most four tokens, the name,
   * ":", the mnemonic, and everything after it run together.
   */
  lemma LabelledSplitsOnce(name: string, rest: string)
    requires forall j :: 0 <= j < |name| ==> Ordinary(name[j])
    requires forall j :: 0 <= j < |rest| ==> Ordinary(rest[j])
    ensures |LineTokens(name + ":" + rest)| <= 4
  {
    var sb := name + ":" + rest;
    assert forall j :: 0 <= j < |sb| && j != |name| ==> sb[j] == (if j < |name| then name[j] else rest[j - |name| - 1]);
    ScanToLabel(sb, 0, |name|, Start);
  }

  /** The characters of `L: LD V1 V2` after the mnemonic: no further split. */
  lemma LabelledExampleTail(sb: string)
    requires sb == "L: LD V1 V2"
    ensures Scan(sb, 5, LineState(["L", ":"], "LD", false, false, false, 3)) == ["L", ":", "LD", "V1V2"]
  {
    var s5 := LineState(["L", ":"], "LD", false, false, false, 3);
    var s6 := LineState(["L", ":", "LD"], [], false, true, false, 3);
    var s7 := LineState(["L", ":", "LD"], "V", false, false, false, 3);
    var s8 := LineState(["L", ":", "LD"], "V1", false, false, false, 3);
    var s9 := LineState(["L", ":", "LD"], "V1", false, true, false, 3);
    var s10 := LineState(["L", ":", "LD"], "V1V", false, false, false, 3);
    var s11 := LineState(["L", ":", "LD"], "V1V2", false, false, false, 3);
    assert sb[5] == ' ' && sb[6] == 'V' && sb[7] == '1' && sb[8] == ' ' && sb[9] == 'V' && sb[10] == '2';
    assert Outside(s5, ' ') == s6 && Outside(s6, 'V') == s7 && Outside(s7, '1') == s8;
    assert Outside(s8, ' ') == s9 && Outside(s9, 'V') == s10 && Outside(s10, '2') == s11;
    assert Scan(sb, 5, s5) == Scan(sb, 6, s6);
    assert Scan(sb, 6, s6) == Scan(sb, 7, s7);
    assert Scan(sb, 7, s7) == Scan(sb, 8, s8);
    assert Scan(sb, 8, s8) == Scan(sb, 9, s9);
    assert Scan(sb, 9, s9) == Scan(sb, 10, s10);
    assert Scan(sb, 10, s10) == Scan(sb, 11, s11);
  }

  /** `L: LD V1 V2`: after the label only the first whitespace splits. */
  lemma LabelledExample()
    ensures LineTokens("L: LD V1 V2") == ["L", ":", "LD", "V1V2"]
  {
    var sb := "L: LD V1 V2";
    var s1 := LineState([], "L", false, false, false, 1);
    var s2 := LineState(["L", ":"], [], false, false, true, 1);
    var s3 := LineState(["L", ":"], [], false, true, false, 3);
    var s4 := LineState(["L", ":"], "L", false, false, false, 3);
    var s5 := LineState(["L", ":"], "LD", false, false, false, 3);
    assert sb[0] == 'L' && sb[1] == ':' && sb[2] == ' ' && sb[3] == 'L' && sb[4] == 'D';
    assert Outside(Start, 'L') == s1 && Outside(s1, ':') == s2 && Outside(s2, ' ') == s3;
    assert Outside(s3, 'L') == s4 && Outside(s4, 'D') == s5;
    assert Scan(sb, 0, Start) == Scan(sb, 1, s1);
    assert Scan(sb, 1, s1) == Scan(sb, 2, s2);
    assert Scan(sb, 2, s2) == Scan(sb, 3, s3);
    assert Scan(sb, 3, s3) == Scan(sb, 4, s4);
    assert Scan(sb, 4, s4) == Scan(sb, 5, s5);
    LabelledExampleTail(sb);
  }

  lemma {:induction false} ScanString(sb: string, i: nat, w: string, st: LineState)
    requires st.inStr && NoQuotes(w) && i + |w| < |sb|
    requires sb[i..i + |w|] == w && sb[i + |w|] == Quote
    requires i + |w| + 1 == |sb| || sb[i + |w| + 1] != Quote
    ensures Scan(sb, i, st) ==
      Scan(sb, i + |w| + 1, st.(inStr := false, tokens := st.tokens + [st.token + w], token := []))
    decreases |w|
  {
    if w == [] {
      assert st.token + w == st.token;
    } else {
      assert sb[i] == w[0];
      assert sb[i + 1] == (if |w| > 1 then w[1] else Quote);
      assert sb[i + 1..i + 1 + |w[1..]|] == w[1..];
      ScanString(sb, i + 1, w[1..], st.(token := st.token + [w[0]]));
      assert st.token + [w[0]] + w[1..] == st.token + w;
    }
  }

  /** A quoted string is kept verbatim, case and separators included, as one token. */
  lemma StringVerbatim(w: string)
    requires NoQuotes(w) && w != []
    ensures LineTokens("DA '" + w + "'") == ["DA", w]
  {
    var sb := "DA '" + w + "'";
    assert sb[0] == 'D' && sb[1] == 'A' && sb[2] == ' ' && sb[3] == Quote && sb[4] == w[0];
    var st1 := LineState([], "D", false, false, false, 1);
    var st2 := LineState([], "DA", false, false, false, 1);
    var st3 := LineState(["DA"], [], false, true, false, 1);
    var st4 := LineState(["DA"], [], true, false, false, 1);
    assert Outside(Start, 'D') == st1;
    assert Outside(st1, 'A') == st2;
    assert Outside(st2, ' ') == st3;
    assert Outside(st3, Quote) == st4;
    assert Scan(sb, 0, Start) == Scan(sb, 1, st1);
    assert Scan(sb, 1, st1) == Scan(sb, 2, st2);
    assert Scan(sb, 2, st2) == Scan(sb, 3, st3);
    assert Scan(sb, 3, st3) == Scan(sb, 4, st4);
    assert sb[4..4 + |w|] == w;
    ScanString(sb, 4, w, st4);
    assert 4 + |w| + 1 == |sb|;
    var st5 := st4.(inStr := false, tokens := st4.tokens + [st4.token + w], token := []);
    assert st4.token + w == w;
    assert Scan(sb, |sb|, st5) == ["DA", w];
  }

  /** Inside a string, quote-free characters are kept verbatim. */
  lemma {:induction false} ScanInside(sb: string, i: nat, w: string, st: LineState)
    requires st.inStr && NoQuotes(w) && i + |w| <= |sb| && sb[i..i + |w|] == w
    ensures Scan(sb, i, st) == Scan(sb, i + |w|, st.(token := st.token + w))
    decreases |w|
  {
    if w == [] {
      assert st.token + w == st.token;
    } else {
      assert sb[i] == w[0];
      assert sb[i + 1..i + 1 + |w[1..]|] == w[1..];
      ScanInside(sb, i + 1, w[1..], st.(token := st.token + [w[0]]));
      assert st.token + [w[0]] + w[1..] == st.token + w;
    }
  }

  /** A doubled quote inside a string stands for one quote character. */
  lemma DoubledQuote(a: string, b: string)
    requires NoQuotes(a) && NoQuotes(b) && a != []
    ensures LineTokens("DA '" + a + "''" + b + "'") == ["DA", a + [Quote] + b]
  {
    var sb := "DA '" + a + "''" + b + "'";
    var p := 4 + |a|;
    assert |sb| == p + 2 + |b| + 1;
    assert sb[0] == 'D' && sb[1] == 'A' && sb[2] == ' ' && sb[3] == Quote && sb[4] == a[0];
    var st1 := LineState([], "D", false, false, false, 1);
    var st2 := LineState([], "DA", false, false, false, 1);
    var st3 := LineState(["DA"], [], false, true, false, 1);
    var st4 := LineState(["DA"], [], true, false, false, 1);
    assert Outside(Start, 'D') == st1;
    assert Outside(st1, 'A') == st2;
    assert Outside(st2, ' ') == st3;
    assert Outside(st3, Quote) == st4;
    assert Scan(sb, 0, Start) == Scan(sb, 1, st1);
    assert Scan(sb, 1, st1) == Scan(sb, 2, st2);
    assert Scan(sb, 2, st2) == Scan(sb, 3, st3);
    assert Scan(sb, 3, st3) == Scan(sb, 4, st4);
    assert sb[4..p] == a;
    ScanInside(sb, 4, a, st4);
    var st5 := st4.(token := a);
    assert st4.token + a == a;
    assert sb[p] == Quote && sb[p + 1] == Quote;
    assert Scan(sb, p, st5) == Scan(sb, p + 2, st5.(token := a + [Quote]));
    assert sb[p + 2..p + 2 + |b|] == b;
    ScanInside(sb, p + 2, b, st5.(token := a + [Quote]));
    var st6 := st4.(token := a + [Quote] + b);
    var q := p + 2 + |b|;
    assert sb[q] == Quote && q == |sb| - 1;
    assert Scan(sb, q, st6) == Scan(sb, q + 1, st6.(inStr := false, tokens := ["DA", a + [Quote] + b], token := []));
  }

  // ---------------------------------------------------------------------------
  // The tokenizer object

  class Tokenizer {
    /** `errors_`: cleared by every `tokenize` and never added to. */
    var errors: seq<AsmError>

    constructor ()
      ensures errors == []
    {
      errors := [];
    }

    function GetLastErrors(): (e: seq<AsmError>)
      reads this
      ensures e == errors
    {
      errors
    }

    /** `tokenizeOneLine`. */
    static method TokenizeOneLine(sb: string) returns (tokens: seq<string>)
      ensures tokens == LineTokens(sb)
    {
      var inStr := false;
      var metWS := false;
      var afterLabel := false;
      var stopPos := 1;
      var token: string := [];
      tokens := [];
      var i := 0;
      while i < |sb|
        invariant 0 <= i <= |sb|
        invariant LineTokens(sb) == Scan(sb, i, LineState(tokens, token, inStr, metWS, afterLabel, stopPos))
        decreases |sb| - i
      {
        var c := sb[i];
        if i < |sb| - 1 && c == Quote && sb[i + 1] == Quote {
          token := token + [Quote];
          i := i + 2;
          continue;
        }
        if !inStr {
          if c == ';' {
            break;
          }
          if IsWhitespace(c) {
            if !metWS {
              metWS := true;
              if afterLabel {
                stopPos := 3;
                afterLabel := false;
              }
              if token != [] && |tokens| < stopPos {
                tokens := tokens + [token];
                token := [];
              }
            }
            i := i + 1;
            continue;
          }
          metWS := false;
          if c == Quote {
            inStr := true;
          } else if c == ':' {
            if token != [] {
              tokens := tokens + [token];
              token := [];
            }
            tokens := tokens + [":"];
            afterLabel := true;
          } else if c == '=' {
            if token != [] {
              tokens := tokens + [token];
              token := [];
            }
            tokens := tokens + ["EQU"];
          } else if c == ',' {
            if token != [] {
              tokens := tokens + [token];
              token := [];
            }
          } else {
            var d := if c == '.' then '0' else c;
            token := token + [UpperAscii(d)];
          }
        } else {
          if c == Quote {
            inStr := false;
            tokens := tokens + [token];
            token := [];
          } else {
            token := token + [c];
          }
        }
        i := i + 1;
      }
      if token != [] {
        tokens := tokens + [token];
      }
    }

    /** `tokenize`: the numbered token lines of the text, or None for a missing or empty one. */
    method Tokenize(input: Option<string>) returns (r: Option<seq<TokenizedLine>>)
      modifies this
      ensures errors == [] && GetLastErrors() == []
      ensures r == Tokens(input)
    {
      errors := [];
      if input.None? || input.value == [] {
        return None;
      }
      var lines := TokenizeText(input.value);
      return Some(lines);
    }

    /** The line loop of `tokenize`: split at CR LF, CR or LF, number from 1 and tokenize each line. */
    static method TokenizeText(s: string) returns (lines: seq<TokenizedLine>)
      ensures lines == Numbered(SplitLines(s, []))
    {
      lines := [];
      ghost var raw: seq<string> := [];
      var tmp: string := [];
      var lineNum := 0;
      var i := 0;
      while i < |s|
        invariant 0 <= i <= |s|
        invariant raw + SplitLines(s[i..], tmp) == SplitLines(s, [])
        invariant lineNum == |raw|
        invariant lines == Numbered(raw)
        decreases |s| - i
      {
        var c := s[i];
        SplitAt(s, i, tmp);
        if i < |s| - 1 && c == '\r' && s[i + 1] == '\n' {
          lines, lineNum := AddLine(lines, raw, lineNum, tmp);
          raw := raw + [tmp];
          tmp := [];
          i := i + 2;
          continue;
        }
        if IsLineBreak(c) {
          lines, lineNum := AddLine(lines, raw, lineNum, tmp);
          raw := raw + [tmp];
          tmp := [];
          i := i + 1;
          continue;
        }
        tmp := tmp + [c];
        i := i + 1;
      }
      assert s[i..] == [];
      if tmp != [] {
        lines, lineNum := AddLine(lines, raw, lineNum, tmp);
        raw := raw + [tmp];
      }
      assert raw == SplitLines(s, []);
    }

    /** A finished line: the counter steps and the line's tokens are added under the new number. */
    static method AddLine(lines: seq<TokenizedLine>, ghost raw: seq<string>, lineNum: int, line: string)
      returns (lines': seq<TokenizedLine>, lineNum': int)
      requires lines == Numbered(raw) && lineNum == |raw|
      ensures lines' == Numbered(raw + [line]) && lineNum' == |raw| + 1
    {
      NumberedSnoc(raw, line);
      lineNum' := lineNum + 1;
      var t := TokenizeOneLine(line);
      lines' := lines + [TokenizedLine(t, lineNum')];
    }
  }
}
