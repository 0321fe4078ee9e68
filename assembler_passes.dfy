/**
 * What the passes, the resolution of deferred expressions and the
 * encoding promise: a pass leaves translated lines alone and reports
 * whether there was anything to do, `assemble` makes at most two passes,
 * a sweep only adds to the symbol table and keeps every deferred
 * expression it cannot resolve, and the image holds each placed line's
 * bytes at its offset with zeros elsewhere.
 */
module AssemblerPasses {
  import opened Wrappers
  import opened AssemblerSpec
  import Tokenizer

  // ---------------------------------------------------------------------------
  // Passes

  /**
   * A pass from line i changes neither the lines before i nor a line
   * already translated, and it is fulfilled exactly when it was so far and
   * every line from i on was already translated.
   */
  lemma {:induction false} PassKeepsTranslated(st: State, pass: int, lines: seq<AsmLine>, i: nat, fulfilled: bool)
    requires i <= |lines|
    ensures var r := PassFrom(st, pass, lines, i, fulfilled);
      r.Passed? ==>
        (forall k :: 0 <= k < |lines| && (k < i || lines[k].translated) ==> r.lines[k] == lines[k]) &&
        (r.fulfilled <==> fulfilled && forall k :: i <= k < |lines| ==> lines[k].translated)
    decreases |lines| - i
  {
    if i < |lines| {
      if lines[i].translated {
        PassKeepsTranslated(st, pass, lines, i + 1, fulfilled);
      } else {
        match OneLine(st, pass, lines[i])
        case LineThrew =>
        case LineDone(st', line') =>
          PassKeepsTranslated(st', pass, lines[i := line'], i + 1, false);
      }
    }
  }

  /** The pass loop makes one pass when the first finds nothing to do and at most two in all; the lines keep their number. */
  lemma PassCount(st: State, lines: seq<AsmLine>)
    ensures var a := Passes(st, FirstPass, lines);
      a.Assembled? ==>
        |a.lines| == |lines| &&
        (a.pass == 1 <==> forall k :: 0 <= k < |lines| ==> lines[k].translated) &&
        (a.pass == 1 || a.pass == 2)
  {
    var a := Passes(st, FirstPass, lines);
    PassKeepsTranslated(st, FirstPass, lines, 0, true);
    match PassFrom(st, FirstPass, lines, 0, true)
    case PassThrew =>
    case Passed(st2, lines2, f) =>
      if !f {
        assert Passes(st, FirstPass, lines) == Passes(st2, SecondPass, lines2);
        match ResolveAll(st2)
        case SweepThrew =>
        case Swept(st3) =>
          match PassFrom(st3, SecondPass, lines2, 0, true)
          case PassThrew =>
          case Passed(_, _, _) =>
      }
  }

  /** The lines `preprocess` makes are untranslated, so a text with a line of tokens takes both passes. */
  lemma NewLinesTakeTwoPasses(st: State, lines: seq<AsmLine>)
    requires |lines| > 0 && !lines[0].translated
    ensures var a := Passes(st, FirstPass, lines);
      a.Assembled? ==> a.pass == 2
  {
    PassCount(st, lines);
  }

  lemma {:induction false} LinesAreNew(tl: seq<Tokenizer.TokenizedLine>)
    ensures forall k :: 0 <= k < |Lines(tl)| ==> !Lines(tl)[k].translated && Lines(tl)[k].offset == NoOffset
  {
    if tl != [] {
      LinesAreNew(tl[..|tl| - 1]);
    }
  }

  /** `assemble` makes two passes over a text with a line of tokens, and one over a text without. */
  lemma AssemblyPasses(st: State, input: string, start: int)
    ensures var a := Assembly(st, input, start);
      a.Assembled? ==> (a.pass == 2 <==> |a.lines| > 0) && (a.pass == 1 || a.pass == 2)
  {
    match Tokenizer.Tokens(Some(input))
    case None =>
    case Some(tl) =>
      var ls := Lines(tl);
      assert Assembly(st, input, start) == Passes(Reset(st, start), FirstPass, ls);
      LinesAreNew(tl);
      PassCount(Reset(st, start), ls);
      if |ls| > 0 {
        assert !ls[0].translated;
      }
  }

  // ---------------------------------------------------------------------------
  // Deferred expressions

  /** Every binding of `small` is in `big`. */
  predicate Extends(big: map<string, int>, small: map<string, int>)
  {
    forall n :: n in small ==> n in big && big[n] == small[n]
  }

  /** `resolveIntermediateExpr` only adds its own name to the table, and does so when it resolves. */
  lemma ResolveOneKeeps(st: State, name: string, expr: string)
    ensures var r := ResolveOne(st, name, expr);
      Extends(r.st.table, st.table) && r.st.errors == st.errors && r.st.unresolved == st.unresolved &&
      (r.ok ==> name in r.st.table) && (forall n :: n in r.st.table && n != name ==> n in st.table) &&
      (!r.ok ==> name !in r.st.table)
  {
    if name !in st.table {
      var e := Parse(st, expr);
      var st1 := st.(used := e.used);
      if !e.raised && e.p.ok {
        var t := st1.table[name := e.p.value];
        assert ResolveOne(st, name, expr).st.table == t;
        assert forall n :: n in st.table ==> n in t && t[n] == st.table[n];
      }
    }
  }

  /**
   * A sweep from entry i only adds to the table and leaves the errors; what
   * is still deferred afterwards was deferred before, and every entry it
   * drops has its name in the table.
   */
  lemma {:induction false} SweepKeeps(st: State, entries: seq<(string, string)>, i: nat, kept: seq<(string, string)>)
    requires i <= |entries| && st.unresolved == kept + entries[i..]
    ensures var r := SweepFrom(st, entries, i, kept);
      r.Swept? ==>
        Extends(r.st.table, st.table) && r.st.errors == st.errors &&
        (forall e :: e in r.st.unresolved ==> e in st.unresolved) &&
        (forall e :: e in st.unresolved ==> e in r.st.unresolved || e.0 in r.st.table)
    decreases |entries| - i
  {
    if i < |entries| {
      var e := entries[i];
      var o := ResolveOne(st, e.0, e.1);
      ResolveOneKeeps(st, e.0, e.1);
      if !o.raised {
        var kept' := if o.ok then kept else kept + [e];
        var st' := o.st.(unresolved := kept' + entries[i + 1..]);
        assert entries[i..] == [e] + entries[i + 1..];
        assert o.ok ==> e.0 in st'.table;
        SweepKeeps(st', entries, i + 1, kept');
      }
    }
  }

  /** The queue `unresolved_` is a hash map: no name is queued twice. */
  predicate DistinctNames(u: seq<(string, string)>)
  {
    forall j, k :: 0 <= j < k < |u| ==> u[j].0 != u[k].0
  }

  /** `unresolved_.put` keeps the names of the queue distinct. */
  lemma {:induction false} PutDistinct(u: seq<(string, string)>, name: string, expr: string)
    requires DistinctNames(u)
    ensures DistinctNames(Put(u, name, expr))
    decreases |u|
  {
    if u != [] && u[0].0 != name {
      var t := Put(u[1..], name, expr);
      PutDistinct(u[1..], name, expr);
      forall e | e in t
        ensures e.0 != u[0].0
      {
        if e != (name, expr) {
          var m :| 0 <= m < |u[1..]| && u[1..][m] == e;
          assert u[m + 1] == e;
        }
      }
      var r := [u[0]] + t;
      forall j, k | 0 <= j < k < |r|
        ensures r[j].0 != r[k].0
      {
        if j == 0 {
          assert r[k] == t[k - 1] && r[k] in t;
        } else {
          assert r[j] == t[j - 1] && r[k] == t[k - 1];
        }
      }
    } else if u != [] {
      var r := [(name, expr)] + u[1..];
      forall j, k | 0 <= j < k < |r|
        ensures r[j].0 != r[k].0
      {
        assert r[k] == u[k];
        if j > 0 {
          assert r[j] == u[j];
        }
      }
    }
  }

  /** Taking entry j out of a queue with distinct names keeps them distinct. */
  lemma DropDistinct(u: seq<(string, string)>, j: nat)
    requires DistinctNames(u) && j < |u|
    ensures DistinctNames(u[..j] + u[j + 1..])
  {
    var r := u[..j] + u[j + 1..];
    forall a, b | 0 <= a < b < |r|
      ensures r[a].0 != r[b].0
    {
      var a' := if a < j then a else a + 1;
      var b' := if b < j then b else b + 1;
      assert r[a] == u[a'] && r[b] == u[b'];
    }
  }

  /** The queue after entry i is handled: the entry is dropped when it resolved and kept otherwise. */
  function KeptAfter(kept: seq<(string, string)>, entries: seq<(string, string)>, i: nat, ok: bool): seq<(string, string)>
    requires i < |entries|
  {
    if ok then kept else kept + [entries[i]]
  }

  lemma KeptDistinct(kept: seq<(string, string)>, entries: seq<(string, string)>, i: nat, ok: bool)
    requires i < |entries| && DistinctNames(kept + entries[i..])
    ensures DistinctNames(KeptAfter(kept, entries, i, ok) + entries[i + 1..])
  {
    var u := kept + entries[i..];
    assert u[..|kept|] == kept && u[|kept| + 1..] == entries[i + 1..];
    if ok {
      DropDistinct(u, |kept|);
    } else {
      assert kept + [entries[i]] + entries[i + 1..] == u;
    }
  }

  lemma KeptUnbound(kept: seq<(string, string)>, entries: seq<(string, string)>, i: nat, ok: bool, t0: map<string, int>, t1: map<string, int>)
    requires i < |entries| && DistinctNames(kept + entries[i..])
    requires forall e :: e in kept ==> e.0 !in t0
    requires forall n :: n in t1 && n != entries[i].0 ==> n in t0
    requires !ok ==> entries[i].0 !in t1
    ensures forall k :: k in KeptAfter(kept, entries, i, ok) ==> k.0 !in t1
  {
    var u := kept + entries[i..];
    assert u[|kept|] == entries[i];
    forall k | k in KeptAfter(kept, entries, i, ok)
      ensures k.0 !in t1
    {
      if k in kept {
        var m :| 0 <= m < |kept| && kept[m] == k;
        assert u[m] == k;
      }
    }
  }

  /**
   * The other half of the sweep over a queue with distinct names: every
   * entry still queued afterwards has a name the table does not bind, so an
   * entry is removed exactly when its name resolves.
   */
  lemma {:induction false} SweepDropsResolved(st: State, entries: seq<(string, string)>, i: nat, kept: seq<(string, string)>)
    requires i <= |entries| && st.unresolved == kept + entries[i..]
    requires DistinctNames(st.unresolved)
    requires forall e :: e in kept ==> e.0 !in st.table
    ensures var r := SweepFrom(st, entries, i, kept);
      r.Swept? ==> DistinctNames(r.st.unresolved) && forall e :: e in r.st.unresolved ==> e.0 !in r.st.table
    decreases |entries| - i
  {
    if i < |entries| {
      var o := ResolveOne(st, entries[i].0, entries[i].1);
      ResolveOneKeeps(st, entries[i].0, entries[i].1);
      if !o.raised {
        var kept' := KeptAfter(kept, entries, i, o.ok);
        KeptDistinct(kept, entries, i, o.ok);
        KeptUnbound(kept, entries, i, o.ok, st.table, o.st.table);
        SweepDropsResolved(o.st.(unresolved := kept' + entries[i + 1..]), entries, i + 1, kept');
      }
    }
  }

  /** A state whose queue has distinct names, none of them bound in the table. */
  predicate QueueUnbound(s: State)
  {
    DistinctNames(s.unresolved) && forall e :: e in s.unresolved ==> e.0 !in s.table
  }

  /** One whole sweep, from the start of the queue. */
  lemma SweepAllDrops(st: State)
    requires DistinctNames(st.unresolved)
    ensures var r := SweepFrom(st, st.unresolved, 0, []);
      r.Swept? ==> QueueUnbound(r.st)
  {
    assert st.unresolved == [] + st.unresolved[0..];
    SweepDropsResolved(st, st.unresolved, 0, []);
  }

  /** `resolveAllIntermediateExpr` leaves queued only entries whose names the table does not bind. */
  lemma ResolveAllDropsResolved(st: State)
    requires DistinctNames(st.unresolved)
    ensures var r := ResolveAll(st);
      r.Swept? ==> DistinctNames(r.st.unresolved) && forall e :: e in r.st.unresolved ==> e.0 !in r.st.table
  {
    var r1 := SweepFrom(st, st.unresolved, 0, []);
    SweepAllDrops(st);
    if r1.Swept? && r1.st.unresolved != [] {
      SweepAllDrops(r1.st);
    }
  }

  /** `resolveAllIntermediateExpr`: the same for its one or two sweeps. */
  lemma ResolveAllKeeps(st: State)
    ensures var r := ResolveAll(st);
      r.Swept? ==>
        Extends(r.st.table, st.table) && r.st.errors == st.errors &&
        (forall e :: e in r.st.unresolved ==> e in st.unresolved) &&
        (forall e :: e in st.unresolved ==> e in r.st.unresolved || e.0 in r.st.table)
  {
    assert st.unresolved == [] + st.unresolved[0..];
    SweepKeeps(st, st.unresolved, 0, []);
    match SweepFrom(st, st.unresolved, 0, [])
    case SweepThrew =>
    case Swept(st1) =>
      if st1.unresolved != [] {
        assert st1.unresolved == [] + st1.unresolved[0..];
        SweepKeeps(st1, st1.unresolved, 0, []);
      }
  }

  // ---------------------------------------------------------------------------
  // The image

  /** A line that takes space in the image. */
  predicate Placed(l: AsmLine)
  {
    l.offset != NoOffset
  }

  /** Where a placed line's bytes end. */
  function End(l: AsmLine): int
  {
    l.offset + |Bytes(l)|
  }

  /** A line `encodeBinary` refuses: its offset is outside 0..4094 or its bytes run past the 4096-byte buffer. */
  predicate Misplaced(l: AsmLine)
  {
    Placed(l) && (l.offset < 0 || l.offset > MaxMemSize - 2 || End(l) > MaxMemSize)
  }

  /** `encodeBinary` fails exactly when a line from i on is misplaced. */
  lemma {:induction false} EncodeFails(lines: seq<AsmLine>, i: nat, mem: seq<int>, pos: int)
    requires i <= |lines| && |mem| == MaxMemSize && 0 <= pos <= MaxMemSize
    ensures EncodeFrom(lines, i, mem, pos).None? <==> exists k :: i <= k < |lines| && Misplaced(lines[k])
    decreases |lines| - i
  {
    if i < |lines| {
      var l := lines[i];
      if !Misplaced(l) {
        if l.offset == NoOffset {
          EncodeFails(lines, i + 1, mem, pos);
        } else {
          EncodeFails(lines, i + 1, Write(mem, l.offset, Bytes(l)), End(l));
        }
        assert forall k :: i <= k < |lines| && Misplaced(lines[k]) ==> i + 1 <= k;
      }
    }
  }

  lemma WriteParts(mem: seq<int>, at: nat, b: seq<int>)
    requires at + |b| <= |mem|
    ensures Write(mem, at, b)[..at] == mem[..at]
    ensures Write(mem, at, b)[at..at + |b|] == b
    ensures forall p :: 0 <= p < |mem| && !(at <= p < at + |b|) ==> Write(mem, at, b)[p] == mem[p]
  {
    var r := Write(mem, at, b);
    assert forall p :: 0 <= p < at ==> r[p] == mem[p];
    assert forall p :: at <= p < at + |b| ==> r[p] == b[p - at];
  }

  /** The placed lines follow each other in the buffer, as the first pass lays them out. */
  predicate InOrder(lines: seq<AsmLine>)
  {
    forall j, k :: 0 <= j < k < |lines| && Placed(lines[j]) && Placed(lines[k]) ==> End(lines[j]) <= lines[k].offset
  }

  lemma {:induction false} EncodeFromPlaces(lines: seq<AsmLine>, i: nat, mem: seq<int>, pos: int, k: nat)
    requires i <= |lines| && |mem| == MaxMemSize && 0 <= pos <= MaxMemSize && InOrder(lines)
    requires forall j :: i <= j < |lines| && Placed(lines[j]) ==> pos <= lines[j].offset
    requires k < |lines| && Placed(lines[k])
    requires k < i ==> 0 <= lines[k].offset && End(lines[k]) <= pos && mem[lines[k].offset..End(lines[k])] == Bytes(lines[k])
    requires EncodeFrom(lines, i, mem, pos).Some?
    ensures var img := EncodeFrom(lines, i, mem, pos).value;
      0 <= lines[k].offset && End(lines[k]) <= |img| && img[lines[k].offset..End(lines[k])] == Bytes(lines[k])
    decreases |lines| - i
  {
    if i < |lines| {
      var l := lines[i];
      if l.offset == NoOffset {
        EncodeFromPlaces(lines, i + 1, mem, pos, k);
      } else {
        var b := Bytes(l);
        var mem' := Write(mem, l.offset, b);
        WriteParts(mem, l.offset, b);
        if k < i {
          assert mem'[lines[k].offset..End(lines[k])] == mem[lines[k].offset..End(lines[k])];
        }
        assert forall j :: i + 1 <= j < |lines| && Placed(lines[j]) ==> End(l) <= lines[j].offset;
        EncodeFromPlaces(lines, i + 1, mem', End(l), k);
      }
    } else {
      assert mem[..pos][lines[k].offset..End(lines[k])] == mem[lines[k].offset..End(lines[k])];
    }
  }

  /** With the lines in order, the image holds every placed line's bytes, its word high byte first, at the line's offset. */
  lemma EncodePlaces(lines: seq<AsmLine>, k: nat)
    requires InOrder(lines) && k < |lines| && Placed(lines[k])
    ensures var img := Encode(lines);
      img.Some? ==> 0 <= lines[k].offset && End(lines[k]) <= |img.value| && img.value[lines[k].offset..End(lines[k])] == Bytes(lines[k])
  {
    if Encode(lines).Some? {
      EncodeFails(lines, 0, Zeros(MaxMemSize), 0);
      assert forall j :: 0 <= j < |lines| && Placed(lines[j]) ==> !Misplaced(lines[j]);
      EncodeFromPlaces(lines, 0, Zeros(MaxMemSize), 0, k);
    }
  }

  /** The image is never longer than the buffer. */
  lemma {:induction false} EncodeFits(lines: seq<AsmLine>, i: nat, mem: seq<int>, pos: int)
    requires i <= |lines| && |mem| == MaxMemSize && 0 <= pos <= MaxMemSize
    ensures var img := EncodeFrom(lines, i, mem, pos);
      img.Some? ==> |img.value| <= MaxMemSize
    decreases |lines| - i
  {
    if i < |lines| {
      var l := lines[i];
      if l.offset == NoOffset {
        EncodeFits(lines, i + 1, mem, pos);
      } else if 0 <= l.offset <= MaxMemSize - 2 && End(l) <= MaxMemSize {
        EncodeFits(lines, i + 1, Write(mem, l.offset, Bytes(l)), End(l));
      }
    }
  }

  /** A position no line from i on covers keeps its byte. */
  lemma {:induction false} EncodeFromGaps(lines: seq<AsmLine>, i: nat, mem: seq<int>, pos: int, p: nat)
    requires i <= |lines| && |mem| == MaxMemSize && 0 <= pos <= MaxMemSize && p < MaxMemSize
    requires forall j :: i <= j < |lines| && Placed(lines[j]) ==> !(lines[j].offset <= p < End(lines[j]))
    requires EncodeFrom(lines, i, mem, pos).Some? && p < |EncodeFrom(lines, i, mem, pos).value|
    ensures EncodeFrom(lines, i, mem, pos).value[p] == mem[p]
    decreases |lines| - i
  {
    if i < |lines| {
      var l := lines[i];
      if l.offset == NoOffset {
        EncodeFromGaps(lines, i + 1, mem, pos, p);
      } else {
        WriteParts(mem, l.offset, Bytes(l));
        EncodeFromGaps(lines, i + 1, Write(mem, l.offset, Bytes(l)), End(l), p);
      }
    }
  }

  /** A byte of the image that no placed line covers is zero. */
  lemma EncodeGapsZero(lines: seq<AsmLine>, p: nat)
    requires forall j :: 0 <= j < |lines| && Placed(lines[j]) ==> !(lines[j].offset <= p < End(lines[j]))
    ensures var img := Encode(lines);
      img.Some? && p < |img.value| ==> img.value[p] == 0
  {
    if Encode(lines).Some? && p < |Encode(lines).value| {
      EncodeFits(lines, 0, Zeros(MaxMemSize), 0);
      EncodeFromGaps(lines, 0, Zeros(MaxMemSize), 0, p);
    }
  }

  /** A word line's two bytes are its high and low byte. */
  lemma WordBytes(l: AsmLine)
    requires l.data.None? && 0 <= l.bin < 0x1_0000
    ensures var b := Bytes(l);
      |b| == 2 && 0 <= b[0] < 0x100 && 0 <= b[1] < 0x100 && b[0] * 0x100 + b[1] == l.bin
  {
  }
}
