/**
 * The interpreter object with the state it inherits from the processor base
 * class: memory, registers, the pixel buffer, the RPL flags and the key arrays
 * are arrays changed in place. `Abs` reads them as a `Chip8Machine.Machine`,
 * and every operation is proved to change them exactly as the state machine
 * of module Chip8Machine says.
 */
module Chip8 {
  import opened Wrappers
  import Util
  import GenericCpu
  import M = Chip8Machine

  /** The period registered for timer 0: 10^9 / 60 nanoseconds, by integer division. */
  const TimerPeriod: real := 16666666.0

  class Chip8 {
    /** The processor base: `pc`, the call stack and `sp`, the run flags and the timer registry. */
    const cpu: GenericCpu.GenericCpu
    /** `memory_`: null until the first program is loaded. */
    var memory: array?<M.Byte>
    const gfx: array<int>
    const v: array<M.Byte>
    const rpl: array<M.Byte>
    /** The processor's own key array, and the board's live one (`keyboard.getKeyboardState()`). */
    const ownKbd: array<M.Byte>
    const board: array<M.Byte>
    /** `kbdmem`: the processor's own key array until a key wait makes it the board's. */
    var kbdmem: array<M.Byte>
    var i: int
    var delay: int
    var sound: int
    var awaitingKey: bool
    var h: int
    var vres: int
    var extended: bool
    var start: int
    var mode: M.Mode

    ghost function Abs(): M.Machine
      reads this, cpu, cpu.callStack, memory, gfx, v, rpl, ownKbd, board
    {
      M.Machine(if memory == null then None else Some(memory[..]), v[..], i, cpu.pc, cpu.sp,
        cpu.callStack[..], delay, sound, gfx[..], board[..], ownKbd[..], kbdmem == board,
        awaitingKey, rpl[..], h, vres, extended, start, mode)
    }

    /** The class invariant: the arrays apart and of their fixed sizes, and `Abs()` a valid machine state. */
    ghost predicate Valid()
      reads this, cpu, cpu.callStack, memory, gfx, v, rpl, ownKbd, board
      ensures Valid() ==> M.Inv(Abs())
    {
      Shaped()
      && (memory != null ==> memory.Length == M.MemSize)
      && v.Length == M.RegisterCount
      && 0 <= i < M.MemSize
      && cpu.sp <= M.StackDepth
      && 0 <= delay < 256 && 0 <= sound < 256
      && gfx.Length == M.GfxSize && M.IsPixels(gfx[..])
      && board.Length == M.KeyCount && ownKbd.Length == M.KeyCount
      && rpl.Length == M.RplCount
      && M.ScreenOk(h, vres)
    }

    /** The arrays are allocated apart from each other, and the key array in use is one of the two. */
    ghost predicate Shaped()
      reads this, cpu
    {
      cpu.Valid()
      && (kbdmem == board || kbdmem == ownKbd)
      && v != rpl && v != ownKbd && v != board && rpl != ownKbd && rpl != board && ownKbd != board
      && (memory != null ==> memory != v && memory != rpl && memory != ownKbd && memory != board)
      && gfx != cpu.callStack
    }

    /** The pixel buffer and the collision flag VF while a sprite is drawn. */
    ghost function Screen(): M.Canvas
      reads this, gfx, v
      requires v.Length == M.RegisterCount
    {
      M.Canvas(gfx[..], v[15] == 1)
    }

    /**
     * A processor wired to the board's key array: no memory yet, everything
     * cleared, the 64x32 screen, load address 0x200, and timer 0 registered at
     * 60 Hz.
     */
    constructor (keys: array<M.Byte>)
      requires keys.Length == M.KeyCount
      ensures Valid() && board == keys
      ensures Abs() == M.Machine(None, M.ByteZeros(M.RegisterCount), 0, 0, 0, M.Zeros(M.StackDepth), 0, 0,
        M.Zeros(M.GfxSize), keys[..], M.ByteZeros(M.KeyCount), false, false, M.ByteZeros(M.RplCount),
        M.LoresWidth, M.LoresHeight, false, M.DefaultLoadAddress, M.Chip8Mode)
      ensures cpu.timerIntervals[0] == TimerPeriod
      ensures forall k :: 1 <= k < GenericCpu.MaxTimers ==> cpu.timerIntervals[k] == GenericCpu.Unregistered
      ensures !cpu.running && !cpu.paused
    {
      var c := new GenericCpu.GenericCpu();
      c.RegisterTimer(0, TimerPeriod);
      cpu := c;
      memory := null;
      gfx := new int[M.GfxSize](_ => 0);
      var regs := ZeroBytes(M.RegisterCount);
      var flags := ZeroBytes(M.RplCount);
      var keys0 := ZeroBytes(M.KeyCount);
      v, rpl, ownKbd := regs, flags, keys0;
      board := keys;
      kbdmem := ownKbd;
      i, delay, sound, awaitingKey := 0, 0, 0, false;
      h, vres, extended := M.LoresWidth, M.LoresHeight, false;
      start, mode := M.DefaultLoadAddress, M.Chip8Mode;
      new;
      assert gfx[..] == M.Zeros(M.GfxSize);
      assert cpu.callStack[..] == M.Zeros(M.StackDepth);
    }

    /**
     * `oneCycle`: fetch and run the opcode at `pc`; `rnd` is the random byte
     * an RND opcode would draw. The exception the cycle raises, if any, is
     * returned with the state it leaves behind.
     */
    method OneCycle(rnd: M.Byte) returns (fault: Option<M.Fault>)
      requires Valid()
      modifies this, cpu, cpu.callStack, memory, gfx, v, rpl, ownKbd, board
      ensures Valid() && memory == old(memory)
      ensures M.Outcome(Abs(), fault) == M.OneCycle(old(Abs()), rnd)
    {
      if cpu.pc >= M.MemSize - 2 {
        return Some(M.EndOfProgram);
      }
      if memory == null {
        return Some(M.NoMemory);
      }
      if cpu.pc < 0 {
        return Some(M.IndexOutOfBounds);
      }
      var opcode := memory[cpu.pc] as int * 256 + memory[cpu.pc + 1];
      if cpu.pc == start && opcode == M.HiresTrap {
        h, vres := M.HiresWidth, M.HiresHeight;
        opcode := M.HiresJump;
      }
      fault := RunOpcode(opcode, rnd);
    }

    /** `runOpcode`: decode on the top nibble and execute. */
    method RunOpcode(op: int, rnd: M.Byte) returns (fault: Option<M.Fault>)
      requires Valid() && memory != null && 0 <= op < 0x10000
      modifies this, cpu, cpu.callStack, memory, gfx, v, rpl, ownKbd, board
      ensures Valid() && memory == old(memory)
      ensures M.Outcome(Abs(), fault) == M.RunOpcode(old(Abs()), op, rnd)
    {
      var top := op / 0x1000;
      if top == 0x0 {
        fault := Exec0(op);
      } else if top == 0x1 || top == 0x2 || top == 0xB {
        fault := ExecFlow(op);
      } else if top == 0x3 || top == 0x4 || top == 0x5 || top == 0x9 {
        fault := ExecSkip(op);
      } else if top == 0xD {
        fault := Draw(op);
      } else if top == 0xE {
        fault := ExecKey(op);
      } else if top == 0xF {
        fault := ExecF(op);
      } else {
        fault := ExecRegs(op, rnd);
      }
    }

    /** Group 0: clear, return, scrolls, exit and the extended-mode switches. */
    method Exec0(op: int) returns (fault: Option<M.Fault>)
      requires Valid() && 0 <= op < 0x1000
      modifies cpu`pc, cpu`sp, gfx, this`extended, this`h, this`vres
      ensures Valid()
      ensures M.Outcome(Abs(), fault) == M.Exec0(old(Abs()), op)
    {
      fault := None;
      if op == 0x0230 || op == 0x00E0 {
        ClearScreen();
      } else if op == 0x00EE {
        fault := Return();
      } else if op == 0x00FB {
        ScrollScreen(1, 4);
      } else if op == 0x00FC {
        ScrollScreen(-1, 4);
      } else if op == 0x00FD {
        fault := Some(M.ExitRequested);
      } else if op == 0x00FE {
        SetExtended(false);
      } else if op == 0x00FF {
        SetExtended(true);
      } else if (op / 16) % 16 == 0xC {
        ScrollScreen(2, op % 16);
      } else {
        cpu.pc := cpu.pc + 2;
      }
    }

    method ClearScreen()
      requires Valid()
      modifies cpu`pc, gfx
      ensures Valid()
      ensures M.Outcome(Abs(), None) == M.ClearScreen(old(Abs()))
    {
      Util.Fill(gfx, 0);
      assert gfx[..] == M.Zeros(M.GfxSize);
      cpu.pc := cpu.pc + 2;
    }

    method Return() returns (fault: Option<M.Fault>)
      requires Valid()
      modifies cpu`pc, cpu`sp
      ensures Valid()
      ensures M.Outcome(Abs(), fault) == M.Return(old(Abs()))
    {
      cpu.sp := cpu.sp - 1;
      if cpu.sp < 0 {
        return Some(M.IndexOutOfBounds);
      }
      cpu.pc := cpu.callStack[cpu.sp] + 2;
      fault := None;
    }

    method ScrollScreen(n: int, cols: int)
      requires Valid() && Util.CanShift(M.GfxSize, n, cols, h)
      modifies cpu`pc, gfx
      ensures Valid()
      ensures M.Outcome(Abs(), None) == M.Scroll(old(Abs()), n, cols)
    {
      ghost var m0 := Abs();
      Util.ShiftArray(gfx, n, cols, h);
      Util.ShiftedKeepsBits(m0.gfx, n, cols, h);
      cpu.pc := cpu.pc + 2;
    }

    method SetExtended(on: bool)
      requires Valid()
      modifies cpu`pc, this`extended, this`h, this`vres
      ensures Valid()
      ensures M.Outcome(Abs(), None) == M.SetExtended(old(Abs()), on)
    {
      if on && !extended {
        extended, h, vres := true, M.SchipWidth, M.SchipHeight;
      } else if !on && extended {
        extended, h, vres := false, M.LoresWidth, M.LoresHeight;
      }
      cpu.pc := cpu.pc + 2;
    }

    /** JP, CALL and JP V0: CALL pushes `pc` and raises when the stack index is out of range. */
    method ExecFlow(op: int) returns (fault: Option<M.Fault>)
      requires Valid() && 0 <= op < 0x10000
      modifies cpu`pc, cpu`sp, cpu.callStack
      ensures Valid()
      ensures M.Outcome(Abs(), fault) == M.ExecFlow(old(Abs()), op)
    {
      var top, nnn := op / 0x1000, op % 0x1000;
      fault := None;
      if top == 0x1 {
        cpu.pc := nnn;
      } else if top == 0x2 {
        if cpu.sp < 0 || cpu.sp >= cpu.callStack.Length {
          return Some(M.IndexOutOfBounds);
        }
        cpu.callStack[cpu.sp] := cpu.pc;
        cpu.sp := cpu.sp + 1;
        cpu.pc := nnn;
      } else {
        cpu.pc := nnn + v[0];
      }
    }

    /** SE and SNE: one extra step of 2 when the comparison holds. */
    method ExecSkip(op: int) returns (fault: Option<M.Fault>)
      requires Valid() && 0 <= op < 0x10000
      modifies cpu`pc
      ensures Valid()
      ensures M.Outcome(Abs(), fault) == M.ExecSkip(old(Abs()), op)
    {
      var top, x, y, kk := op / 0x1000, (op / 256) % 16, (op / 16) % 16, op % 256;
      if top == 0x3 {
        if v[x] == kk { cpu.pc := cpu.pc + 2; }
      } else if top == 0x4 {
        if v[x] != kk { cpu.pc := cpu.pc + 2; }
      } else if top == 0x5 {
        if v[x] == v[y] { cpu.pc := cpu.pc + 2; }
      } else {
        if v[x] != v[y] { cpu.pc := cpu.pc + 2; }
      }
      cpu.pc := cpu.pc + 2;
      fault := None;
    }

    /** LD Vx, ADD Vx, the 8xyN group, LD I and RND. */
    method ExecRegs(op: int, rnd: M.Byte) returns (fault: Option<M.Fault>)
      requires Valid() && 0 <= op < 0x10000
      modifies cpu`pc, v, this`i
      ensures Valid()
      ensures M.Outcome(Abs(), fault) == M.ExecRegs(old(Abs()), op, rnd)
    {
      if op / 0x1000 == 0xA {
        i := op % 0x1000;
      } else {
        RegisterOp(op, rnd);
      }
      cpu.pc := cpu.pc + 2;
      fault := None;
    }

    /** 6xkk, 7xkk (VF set on a carry, before Vx is written), 8xyN and Cxkk. */
    method RegisterOp(op: int, rnd: M.Byte)
      requires v.Length == M.RegisterCount && 0 <= op < 0x10000
      modifies v
      ensures v[..] == M.RegisterOp(old(v[..]), op, rnd)
    {
      var top, x, y, kk := op / 0x1000, (op / 256) % 16, (op / 16) % 16, op % 256;
      if top == 0x6 {
        v[x] := kk;
      } else if top == 0x7 {
        var r := v[x] as int + kk;
        if r > 255 {
          v[15] := 1;
        }
        v[x] := r % 256;
      } else if top == 0x8 {
        Alu(x, y, op % 16);
      } else {
        v[x] := M.And8(rnd, kk);
      }
    }

    /** 8xyN: VF is written before Vx, so with x = F the result of the operation survives. */
    method Alu(x: int, y: int, n: int)
      requires v.Length == M.RegisterCount && 0 <= x < M.RegisterCount && 0 <= y < M.RegisterCount
      modifies v
      ensures v[..] == M.Alu(old(v[..]), x, y, n)
    {
      if n == 0 {
        v[x] := v[y];
      } else if n == 1 {
        v[x] := M.Or8(v[x], v[y]);
      } else if n == 2 {
        v[x] := M.And8(v[x], v[y]);
      } else if n == 3 {
        v[x] := M.Xor8(v[x], v[y]);
      } else if n == 4 {
        var s := v[x] as int + v[y];
        if s > 255 {
          v[15] := 1;
        } else {
          v[15] := 0;
        }
        v[x] := s % 256;
      } else if n == 5 {
        var s1, s2: int := v[x], v[y];
        if s1 >= s2 {
          v[15] := 1;
          v[x] := s1 - s2;
        } else {
          v[15] := 0;
          v[x] := 0x100 + s1 - s2;
        }
      } else if n == 6 {
        v[15] := v[x] % 2;
        v[x] := v[x] / 2;
      } else if n == 7 {
        var s1, s2: int := v[y], v[x];
        if s1 >= s2 {
          v[15] := 1;
          v[x] := s1 - s2;
        } else {
          v[15] := 0;
          v[x] := 0x100 + s1 - s2;
        }
      } else if n == 14 {
        v[15] := v[x] / 128;
        v[x] := (v[x] as int * 2) % 256;
      }
    }

    /** DRW: an 8xN sprite for N > 0, a 16x16 one for N = 0 in extended mode, otherwise nothing. */
    method Draw(op: int) returns (fault: Option<M.Fault>)
      requires Valid() && memory != null && 0 <= op < 0x10000
      modifies cpu`pc, gfx, v
      ensures Valid()
      ensures M.Outcome(Abs(), fault) == M.Draw(old(Abs()), op)
    {
      var x, y, n := (op / 256) % 16, (op / 16) % 16, op % 16;
      if n > 0 {
        fault := Blit(v[x], v[y], i, i + n);
      } else if extended {
        fault := Blit(v[x], v[y], i, i + 32);
      } else {
        cpu.pc := cpu.pc + 2;
        fault := None;
      }
    }

    /**
     * `blitSprite` of the bytes `memStart` up to `memEnd`, followed by the
     * step of `pc`. A byte past the end of memory raises and leaves the rows
     * drawn so far.
     */
    method Blit(sx: M.Byte, sy: M.Byte, memStart: int, memEnd: int) returns (fault: Option<M.Fault>)
      requires Valid() && memory != null && memStart == i && memStart <= memEnd
      modifies cpu`pc, gfx, v
      ensures Valid()
      ensures M.Outcome(Abs(), fault) == M.Blit(old(Abs()), sx, sy, memEnd - memStart)
    {
      var raised := BlitPixels(sx, sy, memStart, memEnd);
      if raised {
        return Some(M.IndexOutOfBounds);
      }
      cpu.pc := cpu.pc + 2;
      fault := None;
    }

    /** The drawing of `blitSprite`: 32 bytes make a 16x16 sprite of two bytes per row. */
    method BlitPixels(sx: M.Byte, sy: M.Byte, memStart: int, memEnd: int) returns (raised: bool)
      requires Valid() && memory != null && memStart == i && memStart <= memEnd
      modifies gfx, v
      ensures Valid()
      ensures (Abs(), raised) == M.Drawing(old(Abs()), sx, sy, memEnd - memStart)
    {
      var inc := 1;
      if memEnd - memStart == 32 {
        inc := 2;
      }
      ghost var m0 := Abs();
      ghost var g := M.Sprite(sx, memEnd, inc, h, vres);
      raised := BlitLoops(sx, sy % vres, memStart, memEnd, inc, g);
      assert g == M.Sprite(sx, m0.i + (memEnd - memStart), if memEnd - memStart == 32 then 2 else 1, m0.h, m0.vres);
      ghost var d := M.Blitting(M.Canvas(m0.gfx, false), g, m0.mem.value, m0.i, sy % m0.vres, g.inc - 1, 0);
      assert M.Drawn(Screen(), raised) == d;
      M.BlittingKeepsPixels(M.Canvas(m0.gfx, false), g, m0.mem.value, m0.i, sy % m0.vres, g.inc - 1, 0);
      assert v[..] == m0.v[15 := if d.c.collided then 1 else 0];
      assert Abs() == m0.(gfx := d.c.gfx, v := m0.v[15 := if d.c.collided then 1 else 0]);
    }

    /**
     * The outer two loops of `blitSprite`, with VF cleared first: sprite rows
     * from `memStart`, screen rows from `cy0`. `raised` says that a sprite
     * byte lay past the end of memory.
     */
    method BlitLoops(sx: M.Byte, cy0: int, memStart: nat, memEnd: int, inc: int, ghost g: M.Sprite)
      returns (raised: bool)
      requires memory != null && memory != v && v.Length == M.RegisterCount && gfx.Length == M.GfxSize
      requires M.SpriteOk(g) && g == M.Sprite(sx, memEnd, inc, h, vres) && 0 <= cy0 < vres
      modifies gfx, v
      ensures M.Drawn(Screen(), raised) ==
        M.Blitting(M.Canvas(old(gfx[..]), false), g, memory[..], memStart, cy0, inc - 1, 0)
      ensures v[..15] == old(v[..15]) && (v[15] == 0 || v[15] == 1)
    {
      ghost var mem := memory[..];
      ghost var d0 := M.Blitting(M.Canvas(gfx[..], false), g, mem, memStart, cy0, inc - 1, 0);
      var cy := cy0;
      v[15] := 0;
      var j := memStart;
      while j < memEnd
        invariant memStart <= j && 0 <= cy < vres
        invariant v[..15] == old(v[..15]) && (v[15] == 0 || v[15] == 1)
        invariant M.Blitting(Screen(), g, mem, j, cy, inc - 1, 0) == d0
        decreases memEnd - j
      {
        var q := inc - 1;
        while q >= 0
          invariant -1 <= q < inc
          invariant v[..15] == old(v[..15]) && (v[15] == 0 || v[15] == 1)
          invariant M.Blitting(Screen(), g, mem, j, cy, q, 0) == d0
        {
          if j + q >= memory.Length {
            return true;
          }
          BlitByte(sx, cy, q, memory[j + q], g, mem, j);
          q := q - 1;
        }
        cy := M.NextRow(cy, vres);
        j := j + inc;
      }
      return false;
    }

    /** The innermost loop of `blitSprite`: XOR the eight bits of byte `b`, the byte at `j + q`, into screen row `cy`. */
    method BlitByte(sx: M.Byte, cy: int, q: int, b: M.Byte, ghost g: M.Sprite, ghost mem: seq<M.Byte>, ghost j: nat)
      requires v.Length == M.RegisterCount && gfx.Length == M.GfxSize && (v[15] == 0 || v[15] == 1)
      requires M.SpriteOk(g) && g.sx == sx && g.h == h && g.vres == vres && 0 <= cy < vres && 0 <= q < g.inc
      requires j < g.end && j + q < |mem| && mem[j + q] == b
      modifies gfx, v
      ensures M.Blitting(Screen(), g, mem, j, cy, q, 8) == M.Blitting(old(Screen()), g, mem, j, cy, q, 0)
      ensures v[..15] == old(v[..15]) && (v[15] == 0 || v[15] == 1)
    {
      var k := 0;
      while k < 8
        invariant 0 <= k <= 8
        invariant v[..15] == old(v[..15]) && (v[15] == 0 || v[15] == 1)
        invariant M.Blitting(Screen(), g, mem, j, cy, q, k) == M.Blitting(old(Screen()), g, mem, j, cy, q, 0)
      {
        ghost var before := Screen();
        var cell := M.Cell(sx, h, vres, cy, q, k);
        var bit := M.SpriteBit(b, k);
        var was := gfx[cell] % 2;
        var pixel := if bit == was then 0 else 1;
        if v[15] == 0 && pixel == 0 && was == 1 {
          v[15] := 1;
        }
        gfx[cell] := pixel;
        assert gfx[..] == before.gfx[cell := pixel];
        assert Screen() == M.Plot(before, cell, bit);
        k := k + 1;
      }
    }

    /** SKP and SKNP on the board's key array, indexed with Vx. */
    method ExecKey(op: int) returns (fault: Option<M.Fault>)
      requires Valid() && 0 <= op < 0x10000
      modifies cpu`pc
      ensures Valid()
      ensures M.Outcome(Abs(), fault) == M.ExecKey(old(Abs()), op)
    {
      var kk, vx := op % 256, v[(op / 256) % 16];
      if kk == 0x9E || kk == 0xA1 {
        if vx >= board.Length {
          return Some(M.IndexOutOfBounds);
        }
        if kk == 0x9E && board[vx] == 1 {
          cpu.pc := cpu.pc + 2;
        }
        if kk == 0xA1 && board[vx] == 0 {
          cpu.pc := cpu.pc + 2;
        }
      }
      cpu.pc := cpu.pc + 2;
      fault := None;
    }

    /** The Fx group. */
    method ExecF(op: int) returns (fault: Option<M.Fault>)
      requires Valid() && memory != null && 0 <= op < 0x10000
      modifies cpu`pc, memory, v, rpl, ownKbd, board,
        this`i, this`delay, this`sound, this`awaitingKey, this`kbdmem
      ensures Valid()
      ensures M.Outcome(Abs(), fault) == M.ExecF(old(Abs()), op)
    {
      var x, kk := (op / 256) % 16, op % 256;
      if kk == 0x0A {
        fault := KeyWait(x);
      } else if kk == 0x33 || kk == 0x55 || kk == 0x65 {
        fault := ExecFMem(x, kk);
      } else {
        fault := ExecFRegs(x, kk);
      }
    }

    /** `resetKbd`: clears the current key array, which is the board's once a key wait has run. */
    method ResetKbd()
      requires Valid()
      modifies ownKbd, board
      ensures Valid()
      ensures Abs() == M.ResetKbd(old(Abs()))
    {
      Util.Fill(kbdmem, 0);
      assert kbdmem[..] == M.ByteZeros(M.KeyCount);
    }

    /** Fx0A: arm the wait, or scan the key array for the first key reading 1. */
    method KeyWait(x: int) returns (fault: Option<M.Fault>)
      requires Valid() && 0 <= x < M.RegisterCount
      modifies cpu`pc, v, ownKbd, board, this`awaitingKey, this`kbdmem
      ensures Valid()
      ensures M.Outcome(Abs(), fault) == M.KeyWait(old(Abs()), x)
    {
      fault := None;
      if !awaitingKey {
        awaitingKey := true;
        kbdmem := board;
        return;
      }
      var j := FirstPressed();
      if j < kbdmem.Length {
        TakeKey(x, j);
      }
    }

    /** The scan of Fx0A: the index of the first key of the current key array reading 1, or 16. */
    method FirstPressed() returns (j: int)
      requires Valid()
      ensures j == M.FirstPressed(M.Kbd(Abs())) && j <= kbdmem.Length
    {
      j := 0;
      while j < kbdmem.Length && kbdmem[j] != 1
        invariant 0 <= j <= kbdmem.Length
        invariant forall k :: 0 <= k < j ==> kbdmem[k] != 1
      {
        j := j + 1;
      }
      assert kbdmem[..] == M.Kbd(Abs());
      M.FirstPressedUnique(kbdmem[..], j);
    }

    /** The end of a key wait: key `j` into Vx, the wait disarmed, the key array cleared. */
    method TakeKey(x: int, j: int)
      requires Valid() && 0 <= x < M.RegisterCount && 0 <= j < M.KeyCount
      modifies cpu`pc, v, ownKbd, board, this`awaitingKey
      ensures Valid()
      ensures Abs() == M.Advance(M.ResetKbd(old(Abs()).(v := old(v[..])[x := j], awaitingKey := false)), 2).m
    {
      v[x] := j;
      awaitingKey := false;
      ResetKbd();
      cpu.pc := cpu.pc + 2;
    }

    /** LD B, Vx; LD [I], Vx; LD Vx, [I]. */
    method ExecFMem(x: int, kk: int) returns (fault: Option<M.Fault>)
      requires Valid() && memory != null && 0 <= x < M.RegisterCount
      modifies cpu`pc, memory, v
      ensures Valid()
      ensures M.Outcome(Abs(), fault) == M.ExecFMem(old(Abs()), x, kk)
    {
      if kk == 0x33 {
        fault := StoreBcd(x);
      } else if kk == 0x55 {
        fault := StoreRegisters(x);
      } else {
        fault := LoadRegisters(x);
      }
    }

    /** Fx33: hundreds at I, tens at I+1, ones at I+2, the last written first. */
    method StoreBcd(x: int) returns (fault: Option<M.Fault>)
      requires Valid() && memory != null && 0 <= x < M.RegisterCount
      modifies cpu`pc, memory
      ensures Valid()
      ensures M.Outcome(Abs(), fault) == M.StoreBcd(old(Abs()), x)
    {
      if i + 2 >= memory.Length {
        return Some(M.IndexOutOfBounds);
      }
      ghost var mem0 := memory[..];
      var n: int := v[x];
      memory[i + 2] := n % 10;
      n := n / 10;
      memory[i + 1] := n % 10;
      n := n / 10;
      memory[i] := n % 10;
      assert memory[..] == M.Bcd(mem0, i, v[x]);
      cpu.pc := cpu.pc + 2;
      fault := None;
    }

    /** Fx55: V0..Vx to memory from I, raising at the first address past memory. */
    method StoreRegisters(x: int) returns (fault: Option<M.Fault>)
      requires Valid() && memory != null && 0 <= x < M.RegisterCount
      modifies cpu`pc, memory
      ensures Valid()
      ensures M.Outcome(Abs(), fault) == M.StoreRegisters(old(Abs()), x)
    {
      var raised := StoreLoop(x);
      if raised {
        return Some(M.IndexOutOfBounds);
      }
      cpu.pc := cpu.pc + 2;
      fault := None;
    }

    method StoreLoop(x: int) returns (raised: bool)
      requires memory != null && memory != v && memory.Length == M.MemSize && v.Length == M.RegisterCount
      requires 0 <= i < M.MemSize && 0 <= x < M.RegisterCount
      modifies memory
      ensures memory[..] == M.StoreRegs(old(memory[..]), v[..], i, x)
      ensures raised <==> i + x >= M.MemSize
    {
      ghost var mem0 := memory[..];
      var j := 0;
      while j <= x && i + j < memory.Length
        invariant 0 <= j <= x + 1 && i + j <= memory.Length
        invariant memory[..] == mem0[..i] + v[..j] + mem0[i + j..]
      {
        memory[i + j] := v[j];
        j := j + 1;
      }
      raised := j <= x;
    }

    /** Fx65: V0..Vx from memory from I, raising at the first address past memory. */
    method LoadRegisters(x: int) returns (fault: Option<M.Fault>)
      requires Valid() && memory != null && 0 <= x < M.RegisterCount
      modifies cpu`pc, v
      ensures Valid()
      ensures M.Outcome(Abs(), fault) == M.LoadRegisters(old(Abs()), x)
    {
      var raised := LoadLoop(x);
      if raised {
        return Some(M.IndexOutOfBounds);
      }
      cpu.pc := cpu.pc + 2;
      fault := None;
    }

    method LoadLoop(x: int) returns (raised: bool)
      requires memory != null && memory != v && memory.Length == M.MemSize && v.Length == M.RegisterCount
      requires 0 <= i < M.MemSize && 0 <= x < M.RegisterCount
      modifies v
      ensures v[..] == M.LoadRegs(old(v[..]), memory[..], i, x)
      ensures raised <==> i + x >= M.MemSize
    {
      ghost var v0 := v[..];
      var j := 0;
      while j <= x && i + j < memory.Length
        invariant 0 <= j <= x + 1 && i + j <= memory.Length
        invariant forall k :: 0 <= k < j ==> v[k] == memory[i + k]
        invariant forall k :: j <= k < M.RegisterCount ==> v[k] == v0[k]
      {
        v[j] := memory[i + j];
        j := j + 1;
      }
      raised := j <= x;
      assert v[..] == memory[i..i + j] + v0[j..];
    }

    /** The timer, index and RPL opcodes of the Fx group; an unknown kk only moves `pc` on. */
    method ExecFRegs(x: int, kk: int) returns (fault: Option<M.Fault>)
      requires Valid() && 0 <= x < M.RegisterCount
      modifies cpu`pc, v, rpl, this`i, this`delay, this`sound
      ensures Valid()
      ensures M.Outcome(Abs(), fault) == M.ExecFRegs(old(Abs()), x, kk)
    {
      fault := None;
      if kk in {0x07, 0x15, 0x18} {
        ExecFTimers(x, kk);
      } else if kk in {0x1E, 0x29, 0x30} {
        ExecFIndex(x, kk);
      } else if kk == 0x75 {
        CopyPrefix(rpl, v, x);
        cpu.pc := cpu.pc + 2;
      } else if kk == 0x85 {
        CopyPrefix(v, rpl, x);
        cpu.pc := cpu.pc + 2;
      } else {
        cpu.pc := cpu.pc + 2;
      }
    }

    /** Fx07, Fx15, Fx18: Vx from or to the delay and sound timers. */
    method ExecFTimers(x: int, kk: int)
      requires Valid() && 0 <= x < M.RegisterCount && kk in {0x07, 0x15, 0x18}
      modifies cpu`pc, v, this`delay, this`sound
      ensures Valid()
      ensures M.Outcome(Abs(), None) == M.ExecFTimers(old(Abs()), x, kk)
    {
      if kk == 0x07 {
        v[x] := delay;
      } else if kk == 0x15 {
        delay := v[x];
      } else {
        sound := v[x];
      }
      cpu.pc := cpu.pc + 2;
    }

    /** Fx1E, Fx29, Fx30: I moved by Vx, or pointed at the font glyph of digit Vx. */
    method ExecFIndex(x: int, kk: int)
      requires Valid() && 0 <= x < M.RegisterCount && kk in {0x1E, 0x29, 0x30}
      modifies cpu`pc, this`i
      ensures Valid()
      ensures M.Outcome(Abs(), None) == M.ExecFTimers(old(Abs()), x, kk)
    {
      if kk == 0x1E {
        i := (i + v[x]) % 4096;
      } else if kk == 0x29 {
        i := M.DigitSpriteStart + v[x] as int * 5;
      } else {
        i := M.Digit10SpriteStart + v[x] as int * 10;
      }
      cpu.pc := cpu.pc + 2;
    }

    /** `timerCallback`: each running timer counts down; the result says whether the buzzer sounds. */
    method TimerCallback(timerId: int) returns (buzz: bool)
      requires Valid()
      modifies this`delay, this`sound
      ensures Valid()
      ensures (Abs(), buzz) == M.TimerTick(old(Abs()))
    {
      if delay > 0 {
        delay := delay - 1;
      }
      buzz := false;
      if sound > 0 {
        sound := sound - 1;
        buzz := true;
      }
    }

    /** `reset`: stop the processor, then clear timers, stack, memory, registers, graphics and keys. */
    method Reset()
      requires Valid()
      modifies cpu`running, cpu`paused, cpu`pc, cpu`sp, cpu.callStack, memory, gfx, v, ownKbd, board,
        this`delay, this`sound, this`i, this`start
      ensures Valid() && !cpu.running && !cpu.paused
      ensures Abs() == M.Reset(old(Abs()))
    {
      ResetCore();
      ClearBuffers();
      ResetKbd();
    }

    method ResetCore()
      requires Valid()
      modifies cpu`running, cpu`paused, cpu`pc, cpu`sp, cpu.callStack, this`delay, this`sound, this`i, this`start
      ensures Valid() && !cpu.running && !cpu.paused
      ensures Abs() == M.ResetCore(old(Abs()))
    {
      cpu.Stop();
      delay, sound := 0, 0;
      Util.Fill(cpu.callStack, 0);
      assert cpu.callStack[..] == M.Zeros(M.StackDepth);
      cpu.sp := 0;
      cpu.pc, i := 0, 0;
      start := 0;
    }

    method ClearBuffers()
      requires Valid()
      modifies memory, gfx, v
      ensures Valid()
      ensures Abs() == M.ClearBuffers(old(Abs()))
    {
      if memory != null {
        Util.Fill(memory, 0);
        assert memory[..] == M.ByteZeros(M.MemSize);
      }
      Util.Fill(gfx, 0);
      Util.Fill(v, 0);
      assert gfx[..] == M.Zeros(M.GfxSize);
      assert v[..] == M.ByteZeros(M.RegisterCount);
    }

    /** `init`: a new memory holding both fonts, the mode, and the 64x32 screen outside extended mode. */
    method Init(m: M.Mode)
      requires Valid()
      modifies this`memory, this`mode, this`h, this`vres, this`extended
      ensures Valid() && memory != null && fresh(memory)
      ensures Abs() == M.Init(old(Abs()), m)
    {
      mode := m;
      memory := FontMemory();
      h, vres, extended := M.LoresWidth, M.LoresHeight, false;
    }

    /**
     * `loadProgram`: no program answers false; otherwise the memory is
     * re-initialised, the load address recorded, the program copied there and
     * `pc` pointed at it. A program that does not fit raises after the
     * re-initialisation.
     */
    method LoadProgram(prog: array?<M.Byte>, m: M.Mode, st: int) returns (ok: bool, fault: Option<M.Fault>)
      requires Valid()
      modifies this`memory, this`mode, this`h, this`vres, this`extended, this`start, cpu`pc
      ensures Valid()
      ensures (M.Outcome(Abs(), fault), ok) ==
        M.LoadProgram(old(Abs()), if prog == null then None else Some(old(prog[..])), m, st)
    {
      if prog == null {
        return false, None;
      }
      ghost var p := prog[..];
      ghost var m1 := M.Init(Abs(), m).(start := st);
      Init(m);
      start := st;
      assert Abs() == m1;
      if st < 0 || st + prog.Length > memory.Length {
        return false, Some(M.IndexOutOfBounds);
      }
      WriteAt(memory, prog[..], st);
      cpu.pc := st;
      assert Abs() == m1.(mem := Some(M.Overwrite(M.FontImage(), p, st)), pc := st);
      return true, None;
    }
  }

  /** A new byte array of `n` zeros. */
  method ZeroBytes(n: nat) returns (a: array<M.Byte>)
    ensures fresh(a) && a[..] == M.ByteZeros(n)
  {
    a := new M.Byte[n](_ => 0);
    assert a[..] == M.ByteZeros(n);
  }

  /** A new 4 KiB memory, zero but for the 4x5 font at 0x40 and the 8x10 font at 0x100. */
  method FontMemory() returns (mem: array<M.Byte>)
    ensures fresh(mem) && mem[..] == M.FontImage()
  {
    mem := ZeroBytes(M.MemSize);
    WriteAt(mem, M.DigitSprites, M.DigitSpriteStart);
    WriteAt(mem, M.Digit10Sprites, M.Digit10SpriteStart);
  }

  /** `System.arraycopy` of all of `src` into `dst` from index `at`. */
  method WriteAt(dst: array<M.Byte>, src: seq<M.Byte>, at: int)
    requires 0 <= at && at + |src| <= dst.Length
    modifies dst
    ensures dst[..] == M.Overwrite(old(dst[..]), src, at)
  {
    ghost var d0 := dst[..];
    var k := 0;
    while k < |src|
      invariant 0 <= k <= |src|
      invariant forall j :: 0 <= j < dst.Length ==> dst[j] == if at <= j < at + k then src[j - at] else d0[j]
    {
      dst[at + k] := src[k];
      k := k + 1;
    }
    assert dst[..] == M.Overwrite(d0, src, at);
  }

  /** Fx75 / Fx85: the first x + 1 entries of `src` copied over those of `dst`. */
  method CopyPrefix(dst: array<M.Byte>, src: array<M.Byte>, x: int)
    requires dst != src && dst.Length == 16 && src.Length == 16 && 0 <= x < 16
    modifies dst
    ensures dst[..] == M.CopyPrefix(old(dst[..]), src[..], x)
  {
    ghost var d0 := dst[..];
    var j := 0;
    while j <= x
      invariant 0 <= j <= x + 1
      invariant dst[..] == src[..j] + d0[j..]
    {
      dst[j] := src[j];
      j := j + 1;
    }
  }
}
