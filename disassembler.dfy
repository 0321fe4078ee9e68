/**
 * The disassembler object. Its bookkeeping fields are those of
 * `DisassemblerSpec.Labels`; each method is proved to do what the
 * function of the same name in `DisassemblerSpec` says. A missing code
 * array is `None`; a method that can raise returns `thrown`.
 */
module Disassembler {
  import opened Wrappers
  import opened DisassemblerSpec

  class Disassembler {
    var srCounter: nat
    var lbCounter: nat
    var dtCounter: nat
    var memory: Option<seq<int>>
    var lines: seq<DasmLine>
    var cursor: int
    var subroutines: map<int, string>
    var jumpLabels: map<int, string>
    var dataLabels: map<int, string>
    var lastRet: int

    /** The bookkeeping fields as a value. */
    function State(): Labels
      reads this
    {
      Labels(srCounter, lbCounter, dtCounter, subroutines, jumpLabels, dataLabels, lastRet)
    }

    constructor ()
      ensures State() == Fresh && lines == [] && cursor == 0 && memory == None
    {
      srCounter, lbCounter, dtCounter := 0, 0, 0;
      memory := None;
      lines := [];
      cursor := 0;
      subroutines, jumpLabels, dataLabels := map[], map[], map[];
      lastRet := -1;
    }

    /** `nextSubroutineName`: `SUBn` from the counter, which moves on. */
    method NextSubroutineName() returns (name: string)
      modifies this
      ensures name == Names("SUB", old(srCounter)) && State() == old(State()).(srCounter := old(srCounter) + 1)
      ensures unchanged(this`lines, this`cursor, this`memory)
    {
      name := Names("SUB", srCounter);
      srCounter := srCounter + 1;
    }

    /** `nextLabelName`: `LABELn` from the counter, which moves on. */
    method NextLabelName() returns (name: string)
      modifies this
      ensures name == Names("LABEL", old(lbCounter)) && State() == old(State()).(lbCounter := old(lbCounter) + 1)
      ensures unchanged(this`lines, this`cursor, this`memory)
    {
      name := Names("LABEL", lbCounter);
      lbCounter := lbCounter + 1;
    }

    /** `nextDataName`: `DATAn` from the counter, which moves on. */
    method NextDataName() returns (name: string)
      modifies this
      ensures name == Names("DATA", old(dtCounter)) && State() == old(State()).(dtCounter := old(dtCounter) + 1)
      ensures unchanged(this`lines, this`cursor, this`memory)
    {
      name := Names("DATA", dtCounter);
      dtCounter := dtCounter + 1;
    }

    /** `dis`: the record of the word at the cursor, updating the label bookkeeping. */
    method Dis(opcode: nat) returns (line: DasmLine)
      requires opcode < 0x1_0000 && cursor >= 0
      modifies this
      ensures var d := Decode(opcode, old(cursor), old(State()));
        line == Record(opcode, old(cursor), d) && State() == d.labels
      ensures unchanged(this`lines, this`cursor, this`memory)
    {
      var top := opcode / 0x1000;
      var form: Asm;
      var kind := Normal;
      if top == 0x1 {
        var a := NNN(opcode);
        var jumpLabel: string;
        if a in jumpLabels {
          jumpLabel := jumpLabels[a];
        } else {
          jumpLabel := NextLabelName();
          jumpLabels := jumpLabels[a := jumpLabel];
        }
        form, kind := Op("JP", [Fixed(jumpLabel)]), CodeJump;
      } else if top == 0x2 {
        var a := NNN(opcode);
        var subroutine: string;
        if a in subroutines {
          subroutine := subroutines[a];
        } else {
          subroutine := NextSubroutineName();
          subroutines := subroutines[a := subroutine];
        }
        form, kind := Op("CALL", [Fixed(subroutine)]), CodeCall;
      } else if top == 0xA {
        var dlabel := NextDataName();
        dataLabels := dataLabels[NNN(opcode) := dlabel];
        form, kind := Op("LD", [Fixed("I"), Fixed(dlabel)]), CodeLoadI;
      } else {
        // The remaining forms only format the word's fields.
        form, kind := Formatted(opcode), FormatKind(opcode);
        if opcode == RetOpcode {
          lastRet := cursor;
        }
      }
      line := DasmLine(form, "", "", opcode, "", "", cursor, cursor + 1, None, kind);
    }

    /**
     * `disassemble`: resets the bookkeeping, appends one record per word
     * from `start` on and then runs `enhance`. A missing array, a start
     * before 0 and a last word cut short raise.
     */
    method Disassemble(code: Option<seq<int>>, start: int) returns (thrown: bool)
      modifies this
      ensures var o := Disassembly(old(lines), code, start);
        lines == o.lines && State() == o.labels && cursor == o.cursor && thrown == o.raised
      ensures GetDisassembleResult() == Disassembly(old(GetDisassembleResult()), code, start).lines
      ensures memory == code
    {
      memory := code;
      cursor := start;
      lastRet := -1;
      srCounter, lbCounter, dtCounter := 0, 0, 0;
      subroutines, jumpLabels, dataLabels := map[], map[], map[];
      if code.None? {
        return true;
      }
      assert State() == Fresh;
      ghost var p := DisLoop(code.value, start, lines, Fresh);
      assert Disassembly(old(lines), code, start) == if p.raised then p else p.(lines := EnhanceAll(p.lines, p.labels));
      thrown := FirstPass(code.value);
      if thrown {
        return;
      }
      Enhance();
      return false;
    }

    /** The first pass of `disassemble`: one record per word from the cursor on. */
    method FirstPass(mem: seq<int>) returns (thrown: bool)
      modifies this
      ensures var p := DisLoop(mem, old(cursor), old(lines), old(State()));
        lines == p.lines && State() == p.labels && cursor == p.cursor && thrown == p.raised
      ensures unchanged(this`memory)
    {
      var len := |mem|;
      ghost var total := DisLoop(mem, cursor, lines, State());
      while cursor < len
        invariant unchanged(this`memory)
        invariant DisLoop(mem, cursor, lines, State()) == total
        decreases len - cursor
      {
        if cursor < 0 || cursor + 1 >= len {
          return true;
        }
        var opcode := (mem[cursor] % 0x100) * 0x100 + mem[cursor + 1] % 0x100;
        assert opcode == Word(mem, cursor);
        ghost var d := Decode(opcode, cursor, State());
        assert DisLoop(mem, cursor, lines, State()) == DisLoop(mem, cursor + 2, lines + [Record(opcode, cursor, d)], d.labels);
        var line := Dis(opcode);
        lines := lines + [line];
        cursor := cursor + 2;
      }
      return false;
    }

    /** `enhance`: every record gets its labels and, past the last `RET` or where data is loaded, becomes data. */
    method Enhance()
      modifies this
      ensures lines == EnhanceAll(old(lines), old(State()))
      ensures State() == old(State()) && unchanged(this`cursor, this`memory)
    {
      var k := 0;
      while k < |lines|
        invariant 0 <= k <= |lines| == |old(lines)|
        invariant lines[..k] == EnhanceAll(old(lines)[..k], State())
        invariant lines[k..] == old(lines)[k..]
        invariant State() == old(State()) && unchanged(this`cursor, this`memory)
      {
        lines := lines[k := EnhanceLine(lines[k], State())];
        k := k + 1;
      }
      assert old(lines)[..k] == old(lines);
    }

    /** `getDisassembleResult`: the records the last `disassemble` left. */
    function GetDisassembleResult(): (r: seq<DasmLine>)
      reads this
      ensures r == lines
    {
      lines
    }

    /** `getDisassembleResultAsString(showAddress, showComment)`; `newline` is the platform line separator. */
    method GetDisassembleResultAsString(showAddress: bool, showComment: bool, newline: string) returns (s: string)
      ensures s == Listing(lines, showAddress, showComment, newline)
    {
      var sb := "";
      var k := 0;
      while k < |lines|
        invariant 0 <= k <= |lines|
        invariant sb == LinesText(lines[..k], showAddress, showComment, newline)
      {
        var line := lines[k];
        var head := "";
        if |line.labelName| > 0 {
          head := line.labelName + ":" + newline;
        }
        var where := "";
        if showAddress {
          where := "0x" + Hex(line.addr, 3, false) + ": ";
        }
        var body: string;
        if line.kind != Data {
          body := "\t" + Text(line.asm);
        } else {
          var head1 := "";
          if |line.labelName1| > 0 {
            head1 := line.labelName1 + ":" + newline;
          }
          var where1 := "";
          if showAddress {
            where1 := "0x" + Hex(line.addr1, 3, false) + ": ";
          }
          body := "\t" + line.data + newline + head1 + where1 + "\t" + line.data1;
        }
        var note := "";
        if showComment && line.comment.Some? {
          note := " ;; " + line.comment.value;
        }
        assert lines[..k + 1][..k] == lines[..k];
        sb := sb + (head + where + body + note + newline);
        k := k + 1;
      }
      assert lines[..k] == lines;
      s := sb + "END" + newline;
    }

    /** `getDisassembleResultAsString()`: no addresses and no comments. */
    method GetDisassembleResultAsPlainString(newline: string) returns (s: string)
      ensures s == Listing(lines, false, false, newline)
    {
      s := GetDisassembleResultAsString(false, false, newline);
    }
  }
}
