/**
 * The window that owns the menu commands and routes menu actions to them.
 * A radio-button group is registered under an automatically generated
 * master action name, and each of its buttons fires a sub action that
 * carries the master name and the button's own id; the router splits the
 * two back apart. Building the menus (reflection, Swing) is not part of this
 * model; what is kept of it is the group counter and the registration of
 * each command under its action name.
 */
module UiCommandSite {
  import opened Wrappers
  import opened UiCommand
  import opened JavaString

  /** `AUTO_RADIO_PREFIX`. */
  const AutoRadioPrefix: string := "__auto198214rad"

  lemma PrefixLength()
    ensures |AutoRadioPrefix| == 15
  {
  }

  /** `%02d`: at least two digits, zero-padded on the left. */
  function TwoDigits(c: nat): (s: string)
    ensures c < 100 ==> |s| == 2
    ensures 100 <= c ==> 3 <= |s|
    ensures forall k :: 0 <= k < |s| ==> '0' <= s[k] <= '9'
  {
    if c < 10 then "0" + Decimal(c)
    else
      DecimalLength(c);
      Decimal(c)
  }

  lemma {:induction false} DecimalLength(n: nat)
    ensures 10 <= n < 100 ==> |Decimal(n)| == 2
    ensures 100 <= n ==> 3 <= |Decimal(n)|
  {
    if 100 <= n {
      DecimalLength(n / 10);
    }
  }

  /** The two-digit counter reads back as the counter. */
  lemma TwoDigitsValue(c: nat)
    requires c < 100
    ensures (TwoDigits(c)[0] as int - '0' as int) * 10 + (TwoDigits(c)[1] as int - '0' as int) == c
  {
    if 10 <= c {
      assert Decimal(c) == Decimal(c / 10) + [DigitChar(c % 10)];
    }
  }

  /** `generateRadioButtonGroupMasterAction`: prefix, "_", the counter in two or more digits. */
  function MasterAction(counter: nat): (s: string)
    ensures StartsWith(s, AutoRadioPrefix)
    ensures counter < 100 ==> |s| == 18
  {
    AutoRadioPrefix + "_" + TwoDigits(counter)
  }

  /** `generateRadioButtonGroupSubAction`: the master action, "_", the button's id. */
  function SubAction(counter: nat, subId: string): (s: string)
    ensures StartsWith(s, AutoRadioPrefix)
    ensures s == MasterAction(counter) + "_" + subId
  {
    AutoRadioPrefix + "_" + TwoDigits(counter) + "_" + subId
  }

  /**
   * `extractRadioButtonGroupMasterAndSubAction`: characters 0..17 and
   * 19..end; the Java `substring` calls fail on a string shorter than 19.
   */
  function Extract(s: string): (r: Option<(string, string)>)
    ensures r.Some? <==> 19 <= |s|
    ensures r.Some? ==> |r.value.0| == 18 && r.value.0 + [s[18]] + r.value.1 == s
  {
    if |s| < 19 then None else Some((s[..18], s[19..]))
  }

  /** Splitting a sub action of one of the first 99 groups gives back the master action and the id. */
  lemma ExtractSubAction(counter: nat, subId: string)
    requires counter < 100
    ensures Extract(SubAction(counter, subId)) == Some((MasterAction(counter), subId))
  {
    var s := SubAction(counter, subId);
    assert s[..18] == MasterAction(counter);
    assert s[19..] == subId;
  }

  /** From the hundredth group on, the master name is longer and the split cuts it. */
  lemma ExtractBreaksFrom100(counter: nat, subId: string)
    requires 100 <= counter
    ensures Extract(SubAction(counter, subId)) != Some((MasterAction(counter), subId))
  {
  }

  /** Different groups among the first 99 get different master actions. */
  lemma MasterActionInjective(c1: nat, c2: nat)
    requires c1 < 100 && c2 < 100 && MasterAction(c1) == MasterAction(c2)
    ensures c1 == c2
  {
    assert TwoDigits(c1) == MasterAction(c1)[16..];
    assert TwoDigits(c2) == MasterAction(c2)[16..];
    TwoDigitsValue(c1);
    TwoDigitsValue(c2);
  }

  /** Where `actionPerformed` sends an action command. */
  datatype Dispatch =
    | Direct(key: string)                // looked up as it is
    | ToGroup(master: string, sub: string) // a radio button: its group's command gets the sub id
    | Malformed                          // carries the prefix but is too short to split

  function DispatchOf(acmd: string): (d: Dispatch)
    ensures d.Direct? <==> !StartsWith(acmd, AutoRadioPrefix)
    ensures d.Direct? ==> d.key == acmd
    ensures d.Malformed? <==> StartsWith(acmd, AutoRadioPrefix) && |acmd| < 19
    ensures d.ToGroup? ==> Extract(acmd) == Some((d.master, d.sub))
  {
    if !StartsWith(acmd, AutoRadioPrefix) then Direct(acmd)
    else match Extract(acmd)
      case None => Malformed
      case Some(p) => ToGroup(p.0, p.1)
  }

  /** A radio button's sub action reaches its group's master action with its own id. */
  lemma SubActionDispatch(counter: nat, subId: string)
    requires counter < 100
    ensures DispatchOf(SubAction(counter, subId)) == ToGroup(MasterAction(counter), subId)
  {
    ExtractSubAction(counter, subId);
  }

  /** One menu line after parsing, as far as command registration goes. */
  datatype MenuLine =
    | RadioGroup(cmd: UiCommand)  // an `r` line whose class was instantiated
    | Command(cmd: UiCommand)     // any other command line whose class was instantiated
    | Ignored                     // comments, package and separator lines, missing classes

  /** The number of radio groups among the lines. */
  function RadioCount(lines: seq<MenuLine>): (n: nat)
    ensures n <= |lines|
  {
    if lines == [] then 0
    else RadioCount(lines[..|lines| - 1]) + (if lines[|lines| - 1].RadioGroup? then 1 else 0)
  }

  /**
   * The command table after registering the first n lines: the k-th radio
   * group under the k-th master action, every other command under its id.
   */
  function Registered(cmds: map<string, UiCommand>, lines: seq<MenuLine>, n: nat): (r: map<string, UiCommand>)
    requires n <= |lines|
    ensures cmds.Keys <= r.Keys
  {
    if n == 0 then cmds
    else
      var t := Registered(cmds, lines, n - 1);
      match lines[n - 1]
      case RadioGroup(c) => t[MasterAction(RadioCount(lines[..n])) := c]
      case Command(c) => t[c.id := c]
      case Ignored => t
  }

  /** The last line of a prefix that is a radio group is found under the master action of its number. */
  lemma RadioGroupRegistered(cmds: map<string, UiCommand>, lines: seq<MenuLine>, n: nat)
    requires 0 < n <= |lines| && lines[n - 1].RadioGroup?
    ensures RadioCount(lines[..n]) >= 1
    ensures Registered(cmds, lines, n)[MasterAction(RadioCount(lines[..n]))] == lines[n - 1].cmd
  {
    assert lines[..n][..n - 1] == lines[..n - 1];
  }

  class UiCommandSite {
    /** `s_counter`: the number of radio groups registered by the last menu build. */
    var counter: nat
    /** `cmds`: every command, by action name. */
    var cmds: map<string, UiCommand>

    constructor ()
      ensures counter == 0 && cmds == map[]
    {
      counter := 0;
      cmds := map[];
    }

    /**
     * The registration part of `setupMenu`: the counter restarts at 0 and
     * goes up by one per radio group, which is registered under the master
     * action of the new count. The table is not emptied first.
     */
    method SetupMenu(lines: seq<MenuLine>)
      modifies this`counter, this`cmds
      ensures counter == RadioCount(lines)
      ensures cmds == Registered(old(cmds), lines, |lines|)
    {
      ghost var cmds0 := cmds;
      counter := 0;
      var n := 0;
      while n < |lines|
        invariant 0 <= n <= |lines|
        invariant counter == RadioCount(lines[..n])
        invariant cmds == Registered(cmds0, lines, n)
      {
        assert lines[..n + 1][..n] == lines[..n];
        match lines[n] {
          case RadioGroup(c) =>
            counter := counter + 1;
            cmds := cmds[MasterAction(counter) := c];
          case Command(c) =>
            cmds := cmds[c.id := c];
          case Ignored =>
        }
        n := n + 1;
      }
      assert lines[..|lines|] == lines;
    }

    /**
     * `actionPerformed`: a radio sub action is split and its id stored on
     * the group's command; any other action is looked up as it is. Returns
     * the command whose `action` then runs, if any, and whether the split
     * failed.
     */
    method ActionPerformed(acmd: Option<string>) returns (invoked: Option<UiCommand>, failed: bool)
      modifies cmds.Values
      ensures acmd.None? ==> invoked.None? && !failed
      ensures acmd.Some? ==> (failed <==> DispatchOf(acmd.value).Malformed?)
      ensures acmd.Some? && DispatchOf(acmd.value).Direct? ==>
        invoked == (if acmd.value in cmds then Some(cmds[acmd.value]) else None)
        && (invoked.Some? ==> invoked.value.radioCmd == old(invoked.value.radioCmd))
      ensures acmd.Some? && DispatchOf(acmd.value).ToGroup? ==>
        var d := DispatchOf(acmd.value);
        invoked == (if d.master in cmds then Some(cmds[d.master]) else None)
        && (invoked.Some? ==> invoked.value.radioCmd == d.sub)
      ensures forall c :: c in cmds.Values && Some(c) != invoked ==> c.radioCmd == old(c.radioCmd)
      ensures forall c :: c in cmds.Values ==> c.radioAllIds == old(c.radioAllIds)
    {
      invoked, failed := None, false;
      if acmd.None? {
        return;
      }
      var d := DispatchOf(acmd.value);
      match d
      case Malformed =>
        failed := true;
      case Direct(key) =>
        if key in cmds {
          invoked := Some(cmds[key]);
        }
      case ToGroup(master, sub) =>
        if master in cmds {
          var c := cmds[master];
          c.SetRadioSelectionActionCommand(sub);
          invoked := Some(c);
        }
    }
  }
}
