/**
 * A menu command of the window framework, as far as radio-button groups go:
 * the ids of all the buttons in the group, the action command of the button
 * selected last, and the search for its position in the group. The command's
 * own `action` (supplied by each concrete command) is not part of this model.
 */
module UiCommand {
  import opened Wrappers
  import opened JavaString

  /** The position of the first id equal to `cmd` up to case, or |ids| when none is. */
  function SelectionIndex(cmd: string, ids: seq<string>): (i: nat)
    ensures i <= |ids|
  {
    if ids == [] then 0
    else if EqualsIgnoreCase(cmd, ids[0]) then 0
    else 1 + SelectionIndex(cmd, ids[1..])
  }

  /** The index is the first match: no id before it matches, and the id at it does. */
  lemma {:induction false} SelectionIndexIsFirstMatch(cmd: string, ids: seq<string>)
    ensures forall j :: 0 <= j < SelectionIndex(cmd, ids) ==> !EqualsIgnoreCase(cmd, ids[j])
    ensures SelectionIndex(cmd, ids) < |ids| ==> EqualsIgnoreCase(cmd, ids[SelectionIndex(cmd, ids)])
  {
    if ids != [] && !EqualsIgnoreCase(cmd, ids[0]) {
      SelectionIndexIsFirstMatch(cmd, ids[1..]);
      forall j | 1 <= j < SelectionIndex(cmd, ids)
        ensures !EqualsIgnoreCase(cmd, ids[j])
      {
        assert ids[j] == ids[1..][j - 1];
      }
    }
  }

  class UiCommand {
    /** `getID`: the action command a plain (non-radio) command is registered under. */
    const id: string
    /** `radioCmd_`: the action command of the radio button selected last. */
    var radioCmd: string
    /** `radioAllIds_`: the ids of the group's buttons; absent until the menu is built. */
    var radioAllIds: Option<seq<string>>

    constructor (id: string)
      ensures this.id == id && radioCmd == "" && radioAllIds == None
    {
      this.id := id;
      radioCmd := "";
      radioAllIds := None;
    }

    /** `setAllIDs`: the ids the index search scans from now on. */
    method SetAllIds(ids: seq<string>)
      modifies this`radioAllIds
      ensures radioAllIds == Some(ids)
    {
      radioAllIds := Some(ids);
    }

    /** `setRadioSelectionActionCommand`. */
    method SetRadioSelectionActionCommand(s: string)
      modifies this`radioCmd
      ensures radioCmd == s && GetRadioSelectionActionCommand() == s
    {
      radioCmd := s;
    }

    /** `getRadioSelectionActionCommand`: the string stored by the last set, or "" before any. */
    function GetRadioSelectionActionCommand(): (s: string)
      reads this
      ensures s == radioCmd
    {
      radioCmd
    }

    /**
     * `getRadioSelectionIndex`: the position of the first id that equals the
     * selected action command up to case, or the number of ids when none
     * does. Without ids (before `setAllIDs`) the search fails, as the Java
     * loop dereferences the missing array.
     */
    method GetRadioSelectionIndex() returns (r: Option<int>)
      ensures r.None? <==> radioAllIds.None?
      ensures r.Some? ==> r.value == SelectionIndex(radioCmd, radioAllIds.value)
    {
      if radioAllIds.None? {
        return None;
      }
      var ids := radioAllIds.value;
      var i := 0;
      while i < |ids|
        invariant 0 <= i <= |ids|
        invariant SelectionIndex(radioCmd, ids) == i + SelectionIndex(radioCmd, ids[i..])
      {
        assert ids[i..][0] == ids[i] && ids[i..][1..] == ids[i + 1..];
        if EqualsIgnoreCase(radioCmd, ids[i]) {
          break;
        }
        i := i + 1;
      }
      return Some(i);
    }
  }

}
