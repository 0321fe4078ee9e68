/**
 * The emulator window's keyboard: a table of sixteen host key codes, one per
 * position of the 4x4 keypad as it is laid out on the host keyboard, and the
 * table that sends each position to the CHIP-8 key it stands for. Key events
 * write 1 or 0 into the sixteen-entry key-state array that the processor
 * reads (and, after a key wait, aliases). Everything else the window does is
 * not part of this model.
 */
module Board {
  import opened Wrappers
  import M = Chip8Machine

  const KeyCount: int := 16

  /**
   * `posKeyMap_`: host keypad position i (row by row, 1 2 3 4 / Q W E R /
   * A S D F / Z X C V) stands for CHIP-8 key PosKeyMap[i], so that the
   * keypad reads 1 2 3 C / 4 5 6 D / 7 8 9 E / A 0 B F.
   */
  const PosKeyMap: seq<int> := [0x1, 0x2, 0x3, 0xC, 0x4, 0x5, 0x6, 0xD, 0x7, 0x8, 0x9, 0xE, 0xA, 0x0, 0xB, 0xF]

  /** The inverse table: CHIP-8 key k sits at host position KeyPosition[k]. */
  const KeyPosition: seq<int> := [13, 0, 1, 2, 4, 5, 6, 8, 9, 10, 12, 14, 3, 7, 11, 15]

  /** The default `keycodeMap_`: the AWT virtual key codes of 1 2 3 4 Q W E R A S D F Z X C V. */
  const DefaultKeycodes: seq<int> := [49, 50, 51, 52, 81, 87, 69, 82, 65, 83, 68, 70, 90, 88, 67, 86]

  /** The two tables are inverse to each other, so PosKeyMap is a permutation of 0..15. */
  lemma PosKeyMapIsPermutation()
    ensures |PosKeyMap| == KeyCount && |KeyPosition| == KeyCount
    ensures forall i :: 0 <= i < KeyCount ==> 0 <= PosKeyMap[i] < KeyCount && KeyPosition[PosKeyMap[i]] == i
    ensures forall k :: 0 <= k < KeyCount ==> 0 <= KeyPosition[k] < KeyCount && PosKeyMap[KeyPosition[k]] == k
    ensures forall i, j :: 0 <= i < j < KeyCount ==> PosKeyMap[i] != PosKeyMap[j]
  {
    forall i | 0 <= i < KeyCount
      ensures 0 <= PosKeyMap[i] < KeyCount && KeyPosition[PosKeyMap[i]] == i
    {
    }
    forall k | 0 <= k < KeyCount
      ensures 0 <= KeyPosition[k] < KeyCount && PosKeyMap[KeyPosition[k]] == k
    {
    }
  }

  /**
   * The key-state array after the first n table positions have been
   * scanned for `code`: each position whose key code is `code` writes
   * `val` into the state of the CHIP-8 key it stands for.
   */
  function Scan(keys: seq<int>, codes: seq<int>, code: int, val: int, n: nat): (r: seq<int>)
    requires |keys| == KeyCount && |codes| == KeyCount && n <= KeyCount
    ensures |r| == KeyCount
  {
    if n == 0 then keys
    else
      var r := Scan(keys, codes, code, val, n - 1);
      if codes[n - 1] == code then r[PosKeyMap[n - 1] := val] else r
  }

  /**
   * Scanning the whole table sets exactly the keys whose host key code is
   * `code` to `val` and leaves every other key as it was.
   */
  lemma {:induction false} ScanCells(keys: seq<int>, codes: seq<int>, code: int, val: int, n: nat)
    requires |keys| == KeyCount && |codes| == KeyCount && n <= KeyCount
    ensures forall k :: 0 <= k < KeyCount ==>
      Scan(keys, codes, code, val, n)[k] ==
        if KeyPosition[k] < n && codes[KeyPosition[k]] == code then val else keys[k]
  {
    PosKeyMapIsPermutation();
    if n > 0 {
      ScanCells(keys, codes, code, val, n - 1);
    }
  }

  /** A key event leaves a 0/1 key-state array 0/1 when it writes 0 or 1. */
  lemma ScanKeepsBits(keys: seq<int>, codes: seq<int>, code: int, val: int)
    requires |keys| == KeyCount && |codes| == KeyCount
    requires forall k :: 0 <= k < KeyCount ==> keys[k] in {0, 1}
    requires val in {0, 1}
    ensures forall k :: 0 <= k < KeyCount ==> Scan(keys, codes, code, val, KeyCount)[k] in {0, 1}
  {
    ScanCells(keys, codes, code, val, KeyCount);
  }

  /** With the default table, the code of host position i presses exactly key PosKeyMap[i]. */
  lemma DefaultPressOneKey(keys: seq<int>, i: int, val: int)
    requires |keys| == KeyCount && 0 <= i < KeyCount
    ensures Scan(keys, DefaultKeycodes, DefaultKeycodes[i], val, KeyCount) == keys[PosKeyMap[i] := val]
  {
    PosKeyMapIsPermutation();
    ScanCells(keys, DefaultKeycodes, DefaultKeycodes[i], val, KeyCount);
    var r := Scan(keys, DefaultKeycodes, DefaultKeycodes[i], val, KeyCount);
    forall k | 0 <= k < KeyCount
      ensures r[k] == keys[PosKeyMap[i] := val][k]
    {
      assert DefaultKeycodes[KeyPosition[k]] == DefaultKeycodes[i] <==> KeyPosition[k] == i;
    }
  }

  /** Releasing a key after pressing it gives back the state in which that key was up. */
  lemma PressThenRelease(keys: seq<int>, codes: seq<int>, code: int)
    requires |keys| == KeyCount && |codes| == KeyCount
    ensures Scan(Scan(keys, codes, code, 1, KeyCount), codes, code, 0, KeyCount)
         == Scan(keys, codes, code, 0, KeyCount)
  {
    var p := Scan(keys, codes, code, 1, KeyCount);
    ScanCells(keys, codes, code, 1, KeyCount);
    ScanCells(p, codes, code, 0, KeyCount);
    ScanCells(keys, codes, code, 0, KeyCount);
  }

  /**
   * `onException`: true (keep the clock loop running) exactly for the exit
   * request; any other fault clears the window, unloads the program and
   * stops the loop.
   */
  function OnException(e: M.Fault): (keepRunning: bool)
    ensures keepRunning <==> e == M.ExitRequested
  {
    match e
    case ExitRequested => true
    case _ => false
  }

  /**
   * The exit opcode `00FD` raises the one fault that keeps the clock loop
   * going, while running off the top of memory stops it.
   */
  lemma ExitKeepsLoop(m: M.Machine, rnd: M.Byte)
    requires M.Inv(m) && m.mem.Some?
    ensures var o := M.RunOpcode(m, 0x00FD, rnd);
      o.fault == Some(M.ExitRequested) && OnException(o.fault.value)
    ensures m.pc >= M.MemSize - 2 ==>
      M.OneCycle(m, rnd).fault == Some(M.EndOfProgram) && !OnException(M.EndOfProgram)
  {
  }

  class Board {
    /** `keycodeMap_`: the host key code of each keypad position; the mapping dialog may replace it. */
    var keycodeMap: array<int>
    /** `keystates_`: 1 for a key that is down, 0 for one that is up, indexed by CHIP-8 key. */
    const keystates: array<M.Byte>

    ghost predicate Valid()
      reads this
    {
      keycodeMap.Length == KeyCount && keystates.Length == KeyCount
    }

    /** All keys up, with the default key table. */
    constructor ()
      ensures Valid() && fresh(keycodeMap) && fresh(keystates)
      ensures keycodeMap[..] == DefaultKeycodes
      ensures keystates[..] == M.ByteZeros(KeyCount)
    {
      keycodeMap := new int[KeyCount](k requires 0 <= k < KeyCount => DefaultKeycodes[k]);
      keystates := new M.Byte[KeyCount](_ => 0);
      new;
      assert keystates[..] == M.ByteZeros(KeyCount);
    }

    /** `getKeyboardState`: the board's own live array, not a copy. */
    function GetKeyboardState(): (keys: array<M.Byte>)
      reads this
      requires Valid()
      ensures keys == keystates && keys.Length == KeyCount
    {
      keystates
    }

    /** Writes `val` for every table position whose key code is `code`, in table order. */
    method ScanTable(code: int, val: M.Byte)
      requires Valid()
      modifies keystates
      ensures Valid()
      ensures keystates[..] == Scan(old(keystates[..]), keycodeMap[..], code, val, KeyCount)
    {
      ghost var keys := keystates[..];
      var i := 0;
      while i < KeyCount
        invariant 0 <= i <= KeyCount
        invariant keystates[..] == Scan(keys, keycodeMap[..], code, val, i)
      {
        if code == keycodeMap[i] {
          keystates[PosKeyMap[i]] := val;
        }
        i := i + 1;
      }
    }

    /** `keyPressed`: the keys the code maps to go down; every other key keeps its state. */
    method KeyPressed(code: int)
      requires Valid()
      modifies keystates
      ensures Valid()
      ensures keystates[..] == Scan(old(keystates[..]), keycodeMap[..], code, 1, KeyCount)
      ensures GetKeyboardState() == old(GetKeyboardState())
      ensures forall k :: 0 <= k < KeyCount ==>
        keystates[k] == if keycodeMap[KeyPosition[k]] == code then 1 else old(keystates[k])
    {
      ghost var keys := keystates[..];
      ScanTable(code, 1);
      ScanCells(keys, keycodeMap[..], code, 1, KeyCount);
    }

    /** `keyReleased`: the keys the code maps to go up; every other key keeps its state. */
    method KeyReleased(code: int)
      requires Valid()
      modifies keystates
      ensures Valid()
      ensures keystates[..] == Scan(old(keystates[..]), keycodeMap[..], code, 0, KeyCount)
      ensures GetKeyboardState() == old(GetKeyboardState())
      ensures forall k :: 0 <= k < KeyCount ==>
        keystates[k] == if keycodeMap[KeyPosition[k]] == code then 0 else old(keystates[k])
    {
      ghost var keys := keystates[..];
      ScanTable(code, 0);
      ScanCells(keys, keycodeMap[..], code, 0, KeyCount);
    }
  }
}
