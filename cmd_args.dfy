/**
 * The command-line option parser of the assembler front end. Options are
 * described by definitions (a long name matched after `--`, a short alias
 * matched after `-`, and whether a value is mandatory); `getNext` reads the
 * option at an index, takes its value either from the same argument or from
 * the next one, and says where the caller should continue.
 */
module CmdArgs {
  import opened Wrappers
  import opened JavaString

  /** `ArgDef`: `value` is 0 for a flag and 2 for an option that takes a value. */
  datatype ArgDef = ArgDef(name: string, alias: string, desc: string, required: int, value: int)

  /**
   * `Arg`: the option's long name ("" when nothing matched), its value
   * (None where `getNext` leaves the field at its initial value), and the
   * index to read next, -1 after the last argument.
   */
  datatype Arg = Arg(argName: string, argVal: Option<string>, nextIndex: int)

  /** What `getNext` ends with. */
  datatype NextResult =
    | NoArg                        // null: no arguments, or the index is out of range
    | Next(arg: Arg)
    | MissingValue(error: string)  // `lastError_` is set, then the nulled result is dereferenced

  /** The name `getMatchedDef` compares: the long name after `--`, the alias after `-`. */
  function Key(d: ArgDef, long: bool): string
  {
    if long then d.name else d.alias
  }

  /** The position of the first definition whose key starts `rest`, or |defs| when none does. */
  function FirstMatch(defs: seq<ArgDef>, rest: string, long: bool): (i: nat)
    ensures i <= |defs|
    ensures i < |defs| ==> StartsWith(rest, Key(defs[i], long))
    ensures forall j :: 0 <= j < i ==> !StartsWith(rest, Key(defs[j], long))
  {
    if defs == [] then 0
    else if StartsWith(rest, Key(defs[0], long)) then 0
    else
      var i := 1 + FirstMatch(defs[1..], rest, long);
      assert forall j :: 1 <= j < i ==> defs[j] == defs[1..][j - 1];
      i
  }

  /** The dashes an argument starts with: 2 for `--`, 1 for a single `-`, 0 otherwise. */
  function DashCount(s: string): (n: nat)
    ensures n == 2 ==> StartsWith(s, "--")
    ensures n == 1 ==> StartsWith(s, "-") && !StartsWith(s, "--")
    ensures n == 0 ==> !StartsWith(s, "-")
  {
    if StartsWith(s, "--") then 2 else if StartsWith(s, "-") then 1 else 0
  }

  /** The definition an argument selects and where its attached value starts. */
  function Matched(defs: seq<ArgDef>, s: string): (r: Option<(ArgDef, nat)>)
    ensures r.Some? ==> DashCount(s) > 0 && r.value.0 in defs
    ensures r.Some? ==> r.value.1 == DashCount(s) + |Key(r.value.0, DashCount(s) == 2)| <= |s|
    ensures r.Some? ==> StartsWith(s[DashCount(s)..], Key(r.value.0, DashCount(s) == 2))
  {
    var start := DashCount(s);
    if start == 0 then None
    else
      var i := FirstMatch(defs, s[start..], start == 2);
      if i == |defs| then None
      else Some((defs[i], start + |Key(defs[i], start == 2)|))
  }

  /** Where the caller continues after the argument at (the possibly advanced) index. */
  function NextIndex(index: int, len: int): int
  {
    if index == len - 1 then -1 else index + 1
  }

  /** `getNext` on the arguments: the option at `index` and, for a detached value, the one after it. */
  function NextArg(defs: seq<ArgDef>, args: Option<seq<string>>, index: int): (r: NextResult)
  {
    if args.None? || index >= |args.value| || index < 0 then NoArg
    else
      var a := args.value;
      var s := Trim(a[index]);
      match Matched(defs, s)
      case None => Next(Arg("", Some(s), NextIndex(index, |a|)))
      case Some((d, at)) =>
        if d.value <= 0 then Next(Arg(d.name, None, NextIndex(index, |a|)))
        else if at < |s| then Next(Arg(d.name, Some(s[at..]), NextIndex(index, |a|)))
        else if index < |a| - 1 then Next(Arg(d.name, Some(Trim(a[index + 1])), NextIndex(index + 1, |a|)))
        else MissingValue("Option " + d.name + " missing mandatory value.")
  }

  class CmdArgs {
    const args: Option<seq<string>>
    const defs: seq<ArgDef>
    /** `len_`: the number of arguments, 0 without any. */
    const len: int
    var lastError: string
    /** `ArgValueStart`: where the matched option's attached value starts, set by each match. */
    var argValueStart: int

    constructor (defs: seq<ArgDef>, args: Option<seq<string>>)
      ensures this.defs == defs && this.args == args
      ensures len == (if args.Some? then |args.value| else 0)
      ensures lastError == "" && argValueStart == 0
    {
      this.defs := defs;
      this.args := args;
      len := if args.Some? then |args.value| else 0;
      lastError := "";
      argValueStart := 0;
    }

    /**
     * `getMatchedDef`: the first definition whose long name (start 2) or
     * alias (start 1) begins the argument after its dashes; a match also
     * records where the attached value starts.
     */
    method GetMatchedDef(arg: string, start: int) returns (md: Option<ArgDef>)
      requires start == 1 || start == 2
      requires start <= |arg|
      modifies this`argValueStart
      ensures var i := FirstMatch(defs, arg[start..], start == 2);
        if i < |defs| then md == Some(defs[i]) && argValueStart == start + |Key(defs[i], start == 2)|
        else md == None && argValueStart == old(argValueStart)
    {
      var rest := arg[start..];
      var i := 0;
      while i < |defs|
        invariant 0 <= i <= |defs|
        invariant FirstMatch(defs, rest, start == 2) >= i
      {
        var key := if start == 2 then defs[i].name else defs[i].alias;
        if StartsWith(rest, key) {
          argValueStart := start + |key|;
          return Some(defs[i]);
        }
        i := i + 1;
      }
      return None;
    }

    /** The dash test of `getNext` and the match it leads to. */
    method MatchArg(s: string) returns (m: Option<(ArgDef, nat)>)
      modifies this`argValueStart
      ensures m == Matched(defs, s)
      ensures m.Some? ==> argValueStart == m.value.1
    {
      var md: Option<ArgDef> := None;
      if StartsWith(s, "--") {
        md := GetMatchedDef(s, 2);
      } else if StartsWith(s, "-") {
        md := GetMatchedDef(s, 1);
      }
      if md.None? {
        return None;
      }
      return Some((md.value, argValueStart));
    }

    /** `getNext`. */
    method GetNext(index: int) returns (r: NextResult)
      requires len == (if args.Some? then |args.value| else 0)
      modifies this`lastError, this`argValueStart
      ensures r == NextArg(defs, args, index)
      ensures lastError == if r.MissingValue? then r.error else old(lastError)
    {
      if args.None? || index >= len || index < 0 {
        return NoArg;
      }
      var a := args.value;
      var s := Trim(a[index]);
      var m := MatchArg(s);
      if m.None? {
        return Next(Arg("", Some(s), NextIndex(index, len)));
      }
      var d := m.value.0;
      if d.value <= 0 {
        return Next(Arg(d.name, None, NextIndex(index, len)));
      }
      if argValueStart != |s| {
        return Next(Arg(d.name, Some(s[argValueStart..]), NextIndex(index, len)));
      }
      if index < len - 1 {
        return Next(Arg(d.name, Some(Trim(a[index + 1])), NextIndex(index + 1, len)));
      }
      lastError := "Option " + d.name + " missing mandatory value.";
      return MissingValue(lastError);
    }
  }

  /** The caller always makes progress: the next index is past the current one and in range, or -1. */
  lemma NextIndexProgress(defs: seq<ArgDef>, args: seq<string>, index: int)
    ensures NextArg(defs, Some(args), index).Next? ==>
      var n := NextArg(defs, Some(args), index).arg.nextIndex;
      n == -1 || index < n < |args|
  {
  }

  /** Only an index inside the arguments yields anything. */
  lemma NoArgOutside(defs: seq<ArgDef>, args: Option<seq<string>>, index: int)
    ensures NextArg(defs, args, index).NoArg? <==>
      args.None? || index < 0 || index >= |args.value|
  {
  }

  /** An argument starting with neither `-` nor `--` is passed through trimmed, under the empty name. */
  lemma PlainArgument(defs: seq<ArgDef>, args: seq<string>, index: int)
    requires 0 <= index < |args| && !StartsWith(Trim(args[index]), "-")
    ensures NextArg(defs, Some(args), index) == Next(Arg("", Some(Trim(args[index])), NextIndex(index, |args|)))
  {
    assert Matched(defs, Trim(args[index])) == None;
  }

  /** `--name=value` glued together: the value is what follows the name. */
  lemma AttachedValue(defs: seq<ArgDef>, i: int, w: string)
    requires 0 <= i < |defs| && defs[i].value > 0 && w != []
    requires forall j :: 0 <= j < i ==> !StartsWith(defs[i].name + w, defs[j].name)
    requires Trim("--" + defs[i].name + w) == "--" + defs[i].name + w
    ensures NextArg(defs, Some(["--" + defs[i].name + w]), 0) == Next(Arg(defs[i].name, Some(w), -1))
  {
    var s := "--" + defs[i].name + w;
    assert s[..2] == "--";
    assert DashCount(s) == 2;
    assert s[2..] == defs[i].name + w;
    assert StartsWith(defs[i].name + w, defs[i].name);
    assert FirstMatch(defs, s[2..], true) == i;
    assert Matched(defs, s) == Some((defs[i], 2 + |defs[i].name|));
    assert s[2 + |defs[i].name|..] == w;
  }

  /** A value option with nothing attached takes the next argument and skips over it. */
  lemma DetachedValue(defs: seq<ArgDef>, args: seq<string>, index: int)
    requires 0 <= index < |args| - 1
    requires Matched(defs, Trim(args[index])).Some?
    requires var (d, at) := Matched(defs, Trim(args[index])).value; d.value > 0 && at == |Trim(args[index])|
    ensures NextArg(defs, Some(args), index).Next?
    ensures NextArg(defs, Some(args), index).arg.argVal == Some(Trim(args[index + 1]))
    ensures NextArg(defs, Some(args), index).arg.nextIndex == NextIndex(index + 1, |args|)
  {
  }

  /** A value option as the last argument with nothing attached is the failure case. */
  lemma MissingValueAtEnd(defs: seq<ArgDef>, args: seq<string>)
    requires |args| > 0
    requires Matched(defs, Trim(args[|args| - 1])).Some?
    requires var (d, at) := Matched(defs, Trim(args[|args| - 1])).value; d.value > 0 && at == |Trim(args[|args| - 1])|
    ensures NextArg(defs, Some(args), |args| - 1).MissingValue?
  {
  }
}
