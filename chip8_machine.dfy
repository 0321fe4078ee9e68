/**
 * The CHIP-8 / S-CHIP interpreter as a state machine over values: one
 * fetch/decode/execute cycle, the sprite blitter, the 60 Hz timer tick, the
 * reset procedure and program loading. The in-place processor of module
 * Chip8 is proved to change its arrays exactly as these functions say.
 *
 * Registers and memory hold the unsigned value of each Java byte, the value
 * `b2i` yields (see Util.B2iOfCast); every use the interpreter makes of them
 * goes through `b2i`, `& 0xFF` or a comparison that does not depend on the
 * sign, except the key index of Ex9E/ExA1, where a negative byte and a byte
 * of 16 or more are both out of bounds.
 */
module Chip8Machine {
  import opened Wrappers
  import Util
  import GenericCpu
  import Bits

  type Byte = x: int | 0 <= x < 256

  const MemSize: int := 4096
  const DefaultLoadAddress: int := 0x200
  const LoresWidth: int := 64
  const LoresHeight: int := 32
  const HiresWidth: int := 64
  const HiresHeight: int := 64
  const SchipWidth: int := 128
  const SchipHeight: int := 64
  /** Length of the pixel buffer: always the S-CHIP screen size. */
  const GfxSize: int := 8192
  const RegisterCount: int := 16
  const KeyCount: int := 16
  const RplCount: int := 16
  const StackDepth: int := GenericCpu.MaxCallStackDepth
  /** The opcode at the load address that selects the 64x64 hi-res mode, and its replacement. */
  const HiresTrap: int := 0x1260
  const HiresJump: int := 0x12C0

  /** Where the 4x5 hex digit font and the 8x10 S-CHIP digit font are installed. */
  const DigitSpriteStart: int := 0x40
  const Digit10SpriteStart: int := 0x100

  const DigitSprites: seq<Byte> := [
    0xF0, 0x90, 0x90, 0x90, 0xF0,  0x20, 0x60, 0x20, 0x20, 0x70,
    0xF0, 0x10, 0xF0, 0x80, 0xF0,  0xF0, 0x10, 0xF0, 0x10, 0xF0,
    0x90, 0x90, 0xF0, 0x10, 0x10,  0xF0, 0x80, 0xF0, 0x10, 0xF0,
    0xF0, 0x80, 0xF0, 0x90, 0xF0,  0xF0, 0x10, 0x20, 0x40, 0x40,
    0xF0, 0x90, 0xF0, 0x90, 0xF0,  0xF0, 0x90, 0xF0, 0x10, 0xF0,
    0xF0, 0x90, 0xF0, 0x90, 0x90,  0xE0, 0x90, 0xE0, 0x90, 0xE0,
    0xF0, 0x80, 0x80, 0x80, 0xF0,  0xE0, 0x90, 0x90, 0x90, 0xE0,
    0xF0, 0x80, 0xF0, 0x80, 0xF0,  0xF0, 0x80, 0xF0, 0x80, 0x80]

  const Digit10Sprites: seq<Byte> := [
    0x7c, 0xc6, 0xce, 0xde, 0xd6, 0xf6, 0xe6, 0xc6, 0x7c, 0x00,
    0x10, 0x30, 0xf0, 0x30, 0x30, 0x30, 0x30, 0x30, 0xfc, 0x00,
    0x78, 0xcc, 0xcc, 0x0c, 0x18, 0x30, 0x60, 0xc4, 0xfc, 0x00,
    0x78, 0xcc, 0x0c, 0x0c, 0x38, 0x0c, 0x0c, 0xcc, 0x78, 0x00,
    0x0c, 0x1c, 0x3c, 0x6c, 0xcc, 0xfe, 0x0c, 0x0c, 0x1e, 0x00,
    0xfc, 0xc0, 0xc0, 0xc0, 0xf8, 0x0c, 0x0c, 0xcc, 0x78, 0x00,
    0x38, 0x60, 0xc0, 0xc0, 0xf8, 0xcc, 0xcc, 0xcc, 0x78, 0x00,
    0xfc, 0xcc, 0x0c, 0x0c, 0x18, 0x30, 0x30, 0x30, 0x30, 0x00,
    0x78, 0xcc, 0xcc, 0xec, 0x78, 0xdc, 0xcc, 0xcc, 0x78, 0x00,
    0x7c, 0xc6, 0xc6, 0xc6, 0x7c, 0x18, 0x18, 0x30, 0x70, 0x00,
    0x30, 0x78, 0xcc, 0xcc, 0xcc, 0xfc, 0xcc, 0xcc, 0xcc, 0x00,
    0xfc, 0x66, 0x66, 0x66, 0x7c, 0x66, 0x66, 0x66, 0xfc, 0x00,
    0x3c, 0x66, 0xc6, 0xc0, 0xc0, 0xc0, 0xc6, 0x66, 0x3c, 0x00,
    0xf8, 0x6c, 0x66, 0x66, 0x66, 0x66, 0x66, 0x6c, 0xf8, 0x00,
    0xfe, 0x62, 0x60, 0x64, 0x7c, 0x64, 0x60, 0x62, 0xfe, 0x00,
    0x7f, 0x33, 0x31, 0x32, 0x3e, 0x32, 0x30, 0x30, 0x78, 0x00]

  datatype Mode = Chip8Mode | SchipMode

  /** The exceptions a cycle can end with. */
  datatype Fault =
    | EndOfProgram      // the fetch address is past the last whole opcode
    | IndexOutOfBounds  // an array access outside memory, the stack or the key array
    | ExitRequested     // 00FD (EXIT)
    | NoMemory          // no program has been loaded, so there is no memory yet

  /**
   * The processor state. `keys` is the board's live key array; `ownKbd` is the
   * processor's own key array, used until the first key wait makes the
   * processor share the board's (`kbdAliased`).
   */
  datatype Machine = Machine(
    mem: Option<seq<Byte>>,
    v: seq<Byte>,
    i: int,
    pc: int,
    sp: int,
    stack: seq<int>,
    delay: int,
    sound: int,
    gfx: seq<int>,
    keys: seq<Byte>,
    ownKbd: seq<Byte>,
    kbdAliased: bool,
    awaitingKey: bool,
    rpl: seq<Byte>,
    h: int,
    vres: int,
    extended: bool,
    start: int,
    mode: Mode)

  /** The state after a cycle, and the exception it ended with, if any. */
  datatype Outcome = Outcome(m: Machine, fault: Option<Fault>)

  predicate ScreenOk(h: int, vres: int)
  {
    (h == LoresWidth && (vres == LoresHeight || vres == HiresHeight))
    || (h == SchipWidth && vres == SchipHeight)
  }

  predicate IsPixels(g: seq<int>)
  {
    forall c :: 0 <= c < |g| ==> g[c] == 0 || g[c] == 1
  }

  /** What every reachable state satisfies. */
  predicate Inv(m: Machine)
  {
    (m.mem.Some? ==> |m.mem.value| == MemSize)
    && |m.v| == RegisterCount
    && 0 <= m.i < MemSize
    && m.sp <= StackDepth
    && |m.stack| == StackDepth
    && 0 <= m.delay < 256 && 0 <= m.sound < 256
    && |m.gfx| == GfxSize && IsPixels(m.gfx)
    && |m.keys| == KeyCount && |m.ownKbd| == KeyCount
    && |m.rpl| == RplCount
    && ScreenOk(m.h, m.vres)
  }

  function Zeros(n: nat): (z: seq<int>)
    ensures |z| == n && forall k :: 0 <= k < n ==> z[k] == 0
  {
    seq(n, _ => 0)
  }

  function ByteZeros(n: nat): (z: seq<Byte>)
    ensures |z| == n && forall k :: 0 <= k < n ==> z[k] == 0
  {
    seq(n, _ => 0)
  }

  // ----- opcode fields -----
  function OpX(op: int): int requires 0 <= op { (op / 256) % 16 }
  function OpY(op: int): int requires 0 <= op { (op / 16) % 16 }
  function OpN(op: int): int requires 0 <= op { op % 16 }
  function OpKK(op: int): int requires 0 <= op { op % 256 }
  function OpNNN(op: int): int requires 0 <= op { op % 4096 }

  function Or8(a: Byte, b: Byte): Byte
  {
    Bits.BitOrXorBound(a, b, 8);
    Bits.BitOr(a, b)
  }

  function And8(a: Byte, b: Byte): Byte
  {
    Bits.BitAnd(a, b)
  }

  function Xor8(a: Byte, b: Byte): Byte
  {
    Bits.BitOrXorBound(a, b, 8);
    Bits.BitXor(a, b)
  }

  function Advance(m: Machine, d: int): Outcome
  {
    Outcome(m.(pc := m.pc + d), None)
  }

  /** The key array the processor reads in a key wait, shared with the board once aliased. */
  function Kbd(m: Machine): seq<Byte>
  {
    if m.kbdAliased then m.keys else m.ownKbd
  }

  /** `resetKbd`: clears the processor's current key array, which may be the board's. */
  function ResetKbd(m: Machine): Machine
  {
    if m.kbdAliased then m.(keys := ByteZeros(KeyCount)) else m.(ownKbd := ByteZeros(KeyCount))
  }

  // ----- the 8xyN arithmetic group -----

  /** 7xkk: adds without carry into Vx; VF becomes 1 on overflow, before Vx is written. */
  function AddImmediate(v: seq<Byte>, x: int, kk: Byte): seq<Byte>
    requires |v| == RegisterCount && 0 <= x < RegisterCount
  {
    var r := v[x] + kk;
    (if r > 255 then v[15 := 1] else v)[x := r % 256]
  }

  /** 8xyN: VF is always written before Vx, so with x = F the result survives. */
  function Alu(v: seq<Byte>, x: int, y: int, n: int): seq<Byte>
    requires |v| == RegisterCount && 0 <= x < RegisterCount && 0 <= y < RegisterCount
  {
    var vx: int, vy: int := v[x], v[y];
    if n == 0 then v[x := vy]
    else if n == 1 then v[x := Or8(vx, vy)]
    else if n == 2 then v[x := And8(vx, vy)]
    else if n == 3 then v[x := Xor8(vx, vy)]
    else if n == 4 then
      var s := vx + vy;
      v[15 := if s > 255 then 1 else 0][x := s % 256]
    else if n == 5 then
      if vx >= vy then v[15 := 1][x := vx - vy] else v[15 := 0][x := 256 + vx - vy]
    else if n == 6 then
      var w := v[15 := vx % 2];
      w[x := w[x] / 2]
    else if n == 7 then
      if vy >= vx then v[15 := 1][x := vy - vx] else v[15 := 0][x := 256 + vy - vx]
    else if n == 14 then
      var w := v[15 := vx / 128];
      w[x := (w[x] as int * 2) % 256]
    else v
  }

  // ----- the sprite blitter -----

  /** Bit `k` of a sprite byte, counting from the most significant (leftmost) pixel. */
  function SpriteBit(b: Byte, k: int): (r: int)
    requires 0 <= k < 8
    ensures r == 0 || r == 1
  {
    (b / Bits.Pow2(7 - k)) % 2
  }

  /** The pixel buffer while a sprite is drawn, and whether a lit pixel has been cleared. */
  datatype Canvas = Canvas(gfx: seq<int>, collided: bool)
  datatype Drawn = Drawn(c: Canvas, fault: bool)

  /** Where the sprite goes: its first column, the address past its last byte, the bytes per row, and the screen. */
  datatype Sprite = Sprite(sx: nat, end: int, inc: int, h: int, vres: int)

  /** The sprite geometry the blitter relies on: one or two bytes per row, and a screen that fits the pixel buffer. */
  predicate SpriteOk(g: Sprite)
  {
    (g.inc == 1 || g.inc == 2) && ScreenOk(g.h, g.vres)
  }

  /** XOR one sprite bit into a cell; the collision flag is raised when a lit pixel goes dark. */
  function Plot(c: Canvas, cell: int, bit: int): (r: Canvas)
    requires 0 <= cell < |c.gfx|
    ensures |r.gfx| == |c.gfx|
  {
    var was := c.gfx[cell] % 2;
    var pixel := if bit == was then 0 else 1;
    Canvas(c.gfx[cell := pixel], c.collided || (pixel == 0 && was == 1))
  }

  /**
   * The cell of pixel `k` of byte `q` on screen row `cy`: column
   * `(sx + k + 8q) % h` of row `cy`, columns wrapping at the right edge. The
   * width is 64 or 128, and the formula is written once per width so that the
   * arithmetic stays linear; `CellFormula` gives the single formula back.
   */
  function Cell(sx: nat, h: int, vres: int, cy: int, q: int, k: int): (cell: int)
    requires ScreenOk(h, vres) && 0 <= cy < vres && 0 <= q && 0 <= k
    ensures 0 <= cell < GfxSize
  {
    if h == LoresWidth then (sx + k + q * 8) % LoresWidth + cy * LoresWidth
    else (sx + k + q * 8) % SchipWidth + cy * SchipWidth
  }

  lemma CellFormula(sx: nat, h: int, vres: int, cy: int, q: int, k: int)
    requires ScreenOk(h, vres) && 0 <= cy < vres && 0 <= q && 0 <= k
    ensures Cell(sx, h, vres, cy, q, k) == (sx + k + q * 8) % h + cy * h
  {
  }

  /** The screen row below `cy`, wrapping from the bottom to the top. */
  function NextRow(cy: int, vres: int): (r: int)
    requires 0 <= cy < vres
    ensures 0 <= r < vres
  {
    if cy + 1 == vres then 0 else cy + 1
  }

  lemma NextRowFormula(cy: int, vres: int)
    requires 0 <= cy < vres
    ensures NextRow(cy, vres) == (cy + 1) % vres
  {
  }

  /**
   * The three loops of `blitSprite` as one recursion, from sprite byte row
   * address `j` (screen row `cy`), byte `q` of that row and bit `k` of that
   * byte on: rows step by `g.inc` up to `g.end`, the bytes of a row go from
   * the last to the first, and the bits of a byte from the highest. A byte
   * past the end of memory stops the drawing there.
   */
  function Blitting(c: Canvas, g: Sprite, mem: seq<Byte>, j: nat, cy: int, q: int, k: nat): (d: Drawn)
    requires SpriteOk(g) && 0 <= cy < g.vres && -1 <= q < g.inc && |c.gfx| == GfxSize
    ensures |d.c.gfx| == GfxSize
    decreases g.end - j, q + 1, 8 - k
  {
    if j >= g.end then Drawn(c, false)
    else if q < 0 then Blitting(c, g, mem, j + g.inc, NextRow(cy, g.vres), g.inc - 1, 0)
    else if j + q >= |mem| then Drawn(c, true)
    else if k >= 8 then Blitting(c, g, mem, j, cy, q - 1, 0)
    else Blitting(Plot(c, Cell(g.sx, g.h, g.vres, cy, q, k), SpriteBit(mem[j + q], k)), g, mem, j, cy, q, k + 1)
  }

  /** Drawing only ever stores 0 or 1 into the pixel buffer. */
  lemma {:induction false} BlittingKeepsPixels(c: Canvas, g: Sprite, mem: seq<Byte>, j: nat, cy: int, q: int, k: nat)
    requires SpriteOk(g) && 0 <= cy < g.vres && -1 <= q < g.inc && |c.gfx| == GfxSize && IsPixels(c.gfx)
    ensures IsPixels(Blitting(c, g, mem, j, cy, q, k).c.gfx)
    decreases g.end - j, q + 1, 8 - k
  {
    if j >= g.end {
    } else if q < 0 {
      BlittingKeepsPixels(c, g, mem, j + g.inc, NextRow(cy, g.vres), g.inc - 1, 0);
    } else if j + q >= |mem| {
    } else if k >= 8 {
      BlittingKeepsPixels(c, g, mem, j, cy, q - 1, 0);
    } else {
      var c' := Plot(c, Cell(g.sx, g.h, g.vres, cy, q, k), SpriteBit(mem[j + q], k));
      assert IsPixels(c'.gfx);
      BlittingKeepsPixels(c', g, mem, j, cy, q, k + 1);
    }
  }

  /**
   * The drawing part of `blitSprite` for the `n` bytes from I: 32 bytes make a
   * 16x16 sprite of two bytes per row, any other count one byte per row. VF
   * is cleared, the sprite is XORed in, and VF ends as 1 iff a lit pixel was
   * cleared. The flag says that a sprite byte lay beyond memory, which stops
   * the drawing there.
   */
  function Drawing(m: Machine, sx: Byte, sy: Byte, n: nat): (r: (Machine, bool))
    requires Inv(m) && m.mem.Some?
    ensures Inv(r.0) && r.0 == m.(gfx := r.0.gfx, v := m.v[15 := r.0.v[15]]) && r.0.v[15] in {0, 1}
  {
    var g := Sprite(sx, m.i + n, if n == 32 then 2 else 1, m.h, m.vres);
    var d := Blitting(Canvas(m.gfx, false), g, m.mem.value, m.i, sy % m.vres, g.inc - 1, 0);
    BlittingKeepsPixels(Canvas(m.gfx, false), g, m.mem.value, m.i, sy % m.vres, g.inc - 1, 0);
    (m.(gfx := d.c.gfx, v := m.v[15 := if d.c.collided then 1 else 0]), d.fault)
  }

  /** `blitSprite` followed by the step of `pc`, or the exception of a byte beyond memory. */
  function Blit(m: Machine, sx: Byte, sy: Byte, n: nat): (o: Outcome)
    requires Inv(m) && m.mem.Some?
    ensures Inv(o.m) && o.m.v[15] in {0, 1} && o.m.v == m.v[15 := o.m.v[15]]
  {
    var r := Drawing(m, sx, sy, n);
    if r.1 then Outcome(r.0, Some(IndexOutOfBounds)) else Advance(r.0, 2)
  }

  /** Dxyn: an 8xN sprite for N > 0; for N = 0 a 16x16 sprite in extended mode, else nothing. */
  function Draw(m: Machine, op: int): (o: Outcome)
    requires Inv(m) && m.mem.Some? && 0 <= op
    ensures Inv(o.m)
  {
    var sx, sy := m.v[OpX(op)], m.v[OpY(op)];
    if OpN(op) > 0 then Blit(m, sx, sy, OpN(op))
    else if m.extended then Blit(m, sx, sy, 32)
    else Advance(m, 2)
  }

  // ----- groups 0, E and F -----

  /** 00E0 (and 0230 of the hires programs): every pixel off. */
  function ClearScreen(m: Machine): (o: Outcome)
    requires Inv(m)
    ensures Inv(o.m)
  {
    Advance(m.(gfx := Zeros(GfxSize)), 2)
  }

  /** 00EE: pop the call stack, continuing after the CALL; popping an empty stack raises with `sp` at -1. */
  function Return(m: Machine): (o: Outcome)
    requires Inv(m)
    ensures Inv(o.m)
  {
    var sp := m.sp - 1;
    if 0 <= sp then Outcome(m.(sp := sp, pc := m.stack[sp] + 2), None)
    else Outcome(m.(sp := sp), Some(IndexOutOfBounds))
  }

  /** 00Cn, 00FB, 00FC: the pixel buffer scrolled through `Util.shiftArray`, rows being `h` cells. */
  function Scroll(m: Machine, n: int, cols: int): (o: Outcome)
    requires Inv(m) && Util.CanShift(GfxSize, n, cols, m.h)
    ensures Inv(o.m)
  {
    Util.ShiftedKeepsBits(m.gfx, n, cols, m.h);
    Advance(m.(gfx := Util.Shifted(m.gfx, n, cols, m.h)), 2)
  }

  /** 00FE / 00FF: leave or enter extended mode; the screen size follows, and a repeat changes nothing. */
  function SetExtended(m: Machine, on: bool): (o: Outcome)
    requires Inv(m)
    ensures Inv(o.m)
  {
    if on && !m.extended then Advance(m.(extended := true, h := SchipWidth, vres := SchipHeight), 2)
    else if !on && m.extended then Advance(m.(extended := false, h := LoresWidth, vres := LoresHeight), 2)
    else Advance(m, 2)
  }

  function Exec0(m: Machine, op: int): (o: Outcome)
    requires Inv(m) && 0 <= op < 0x1000
    ensures Inv(o.m)
  {
    if op == 0x0230 || op == 0x00E0 then ClearScreen(m)
    else if op == 0x00EE then Return(m)
    else if op == 0x00FB then Scroll(m, 1, 4)
    else if op == 0x00FC then Scroll(m, -1, 4)
    else if op == 0x00FD then Outcome(m, Some(ExitRequested))
    else if op == 0x00FE then SetExtended(m, false)
    else if op == 0x00FF then SetExtended(m, true)
    else if OpY(op) == 0xC then Scroll(m, 2, OpN(op))
    else Advance(m, 2)
  }

  /** Ex9E / ExA1: the board's key array is indexed with Vx, which must be below 16. */
  function ExecKey(m: Machine, op: int): (o: Outcome)
    requires Inv(m) && 0 <= op
    ensures Inv(o.m)
  {
    var kk, vx := OpKK(op), m.v[OpX(op)];
    if kk == 0x9E || kk == 0xA1 then
      if vx >= KeyCount then Outcome(m, Some(IndexOutOfBounds))
      else Advance(m, if (kk == 0x9E && m.keys[vx] == 1) || (kk == 0xA1 && m.keys[vx] == 0) then 4 else 2)
    else Advance(m, 2)
  }

  /** The lowest index whose key reads 1, or the length of the array when none does. */
  function FirstPressed(kb: seq<Byte>): (j: nat)
    ensures j <= |kb|
    ensures forall k :: 0 <= k < j ==> kb[k] != 1
    ensures j < |kb| ==> kb[j] == 1
  {
    if kb == [] then 0
    else if kb[0] == 1 then 0
    else 1 + FirstPressed(kb[1..])
  }

  /** A scan that stops at the first key reading 1, or at the end, finds `FirstPressed`. */
  lemma {:induction false} FirstPressedUnique(kb: seq<Byte>, j: nat)
    requires j <= |kb| && (forall k :: 0 <= k < j ==> kb[k] != 1) && (j < |kb| ==> kb[j] == 1)
    ensures FirstPressed(kb) == j
    decreases |kb|
  {
    if kb != [] && kb[0] != 1 {
      assert j > 0;
      FirstPressedUnique(kb[1..], j - 1);
    }
  }

  /** Fx0A: the first execution arms the wait; later ones wait for a key, store it and disarm. */
  function KeyWait(m: Machine, x: int): (o: Outcome)
    requires Inv(m) && 0 <= x < RegisterCount
    ensures Inv(o.m)
  {
    if !m.awaitingKey then Outcome(m.(awaitingKey := true, kbdAliased := true), None)
    else
      var j := FirstPressed(Kbd(m));
      if j >= KeyCount then Outcome(m, None)
      else Advance(ResetKbd(m.(v := m.v[x := j], awaitingKey := false)), 2)
  }

  /** How many of the x + 1 transfers of Fx55 / Fx65 stay inside memory. */
  function Transfers(i: int, x: int): (n: int)
    requires 0 <= i < MemSize && 0 <= x < RegisterCount
    ensures 1 <= n <= x + 1 && i + n <= MemSize
    ensures n == x + 1 <==> i + x < MemSize
  {
    if i + x < MemSize then x + 1 else MemSize - i
  }

  /** Fx55: V0..Vx go to memory from I on, up to the end of memory. */
  function StoreRegs(mem: seq<Byte>, v: seq<Byte>, i: int, x: int): (r: seq<Byte>)
    requires |mem| == MemSize && |v| == RegisterCount && 0 <= i < MemSize && 0 <= x < RegisterCount
    ensures |r| == MemSize
  {
    var n := Transfers(i, x);
    mem[..i] + v[..n] + mem[i + n..]
  }

  /** Fx65: V0..Vx are read from memory from I on, as far as memory goes. */
  function LoadRegs(v: seq<Byte>, mem: seq<Byte>, i: int, x: int): (r: seq<Byte>)
    requires |mem| == MemSize && |v| == RegisterCount && 0 <= i < MemSize && 0 <= x < RegisterCount
    ensures |r| == RegisterCount
  {
    var n := Transfers(i, x);
    mem[i..i + n] + v[n..]
  }

  /** Fx75 / Fx85: the first x + 1 entries of `src` overwrite those of `dst`. */
  function CopyPrefix(dst: seq<Byte>, src: seq<Byte>, x: int): (r: seq<Byte>)
    requires |dst| == 16 && |src| == 16 && 0 <= x < 16
    ensures |r| == 16
  {
    src[..x + 1] + dst[x + 1..]
  }

  /** Fx33: hundreds, tens and ones of `n` at I, I+1 and I+2. */
  function Bcd(mem: seq<Byte>, i: int, n: Byte): (r: seq<Byte>)
    requires |mem| == MemSize && 0 <= i && i + 2 < MemSize
    ensures |r| == MemSize
  {
    mem[i + 2 := n % 10][i + 1 := (n / 10) % 10][i := (n / 100) % 10]
  }

  /** Fx33: the decimal digits of Vx at I..I+2; raises, writing nothing, when I+2 is past memory. */
  function StoreBcd(m: Machine, x: int): (o: Outcome)
    requires Inv(m) && m.mem.Some? && 0 <= x < RegisterCount
    ensures Inv(o.m)
  {
    if m.i + 2 < MemSize then Advance(m.(mem := Some(Bcd(m.mem.value, m.i, m.v[x]))), 2)
    else Outcome(m, Some(IndexOutOfBounds))
  }

  /** Fx55: V0..Vx to memory from I; raises at the first address past memory, the earlier ones written. */
  function StoreRegisters(m: Machine, x: int): (o: Outcome)
    requires Inv(m) && m.mem.Some? && 0 <= x < RegisterCount
    ensures Inv(o.m)
  {
    var m' := m.(mem := Some(StoreRegs(m.mem.value, m.v, m.i, x)));
    if m.i + x < MemSize then Advance(m', 2) else Outcome(m', Some(IndexOutOfBounds))
  }

  /** Fx65: V0..Vx from memory from I; raises at the first address past memory, the earlier ones read. */
  function LoadRegisters(m: Machine, x: int): (o: Outcome)
    requires Inv(m) && m.mem.Some? && 0 <= x < RegisterCount
    ensures Inv(o.m)
  {
    var m' := m.(v := LoadRegs(m.v, m.mem.value, m.i, x));
    if m.i + x < MemSize then Advance(m', 2) else Outcome(m', Some(IndexOutOfBounds))
  }

  /** Fx33, Fx55, Fx65: the memory transfers. */
  function ExecFMem(m: Machine, x: int, kk: int): (o: Outcome)
    requires Inv(m) && m.mem.Some? && 0 <= x < RegisterCount
    ensures Inv(o.m)
  {
    if kk == 0x33 then StoreBcd(m, x)
    else if kk == 0x55 then StoreRegisters(m, x)
    else LoadRegisters(m, x)
  }

  /** Fx07, Fx15, Fx18, Fx1E, Fx29, Fx30: the timers and I. The sum of Fx1E wraps at 4096. */
  function ExecFTimers(m: Machine, x: int, kk: int): (o: Outcome)
    requires Inv(m) && 0 <= x < RegisterCount
    ensures Inv(o.m)
  {
    var vx: int := m.v[x];
    if kk == 0x07 then Advance(m.(v := m.v[x := m.delay]), 2)
    else if kk == 0x15 then Advance(m.(delay := vx), 2)
    else if kk == 0x18 then Advance(m.(sound := vx), 2)
    else if kk == 0x1E then Advance(m.(i := (m.i + vx) % 4096), 2)
    else if kk == 0x29 then Advance(m.(i := DigitSpriteStart + vx * 5), 2)
    else Advance(m.(i := Digit10SpriteStart + vx * 10), 2)
  }

  /** The other Fx opcodes: timers, I and the RPL flags (Fx75 saves V0..Vx, Fx85 restores them); an unknown kk only moves on. */
  function ExecFRegs(m: Machine, x: int, kk: int): (o: Outcome)
    requires Inv(m) && 0 <= x < RegisterCount
    ensures Inv(o.m)
  {
    if kk in {0x07, 0x15, 0x18, 0x1E, 0x29, 0x30} then ExecFTimers(m, x, kk)
    else if kk == 0x75 then Advance(m.(rpl := CopyPrefix(m.rpl, m.v, x)), 2)
    else if kk == 0x85 then Advance(m.(v := CopyPrefix(m.v, m.rpl, x)), 2)
    else Advance(m, 2)
  }

  function ExecF(m: Machine, op: int): (o: Outcome)
    requires Inv(m) && m.mem.Some? && 0 <= op
    ensures Inv(o.m)
  {
    var x, kk := OpX(op), OpKK(op);
    if kk == 0x0A then KeyWait(m, x)
    else if kk == 0x33 || kk == 0x55 || kk == 0x65 then ExecFMem(m, x, kk)
    else ExecFRegs(m, x, kk)
  }

  /** 1nnn, 2nnn, Bnnn: jumps and calls; a call with all 32 stack entries in use raises. */
  function ExecFlow(m: Machine, op: int): (o: Outcome)
    requires Inv(m) && 0 <= op < 0x10000
    ensures Inv(o.m)
  {
    var top, nnn := op / 0x1000, OpNNN(op);
    if top == 0x1 then Outcome(m.(pc := nnn), None)
    else if top == 0x2 then
      if 0 <= m.sp < StackDepth then
        Outcome(m.(stack := m.stack[m.sp := m.pc], sp := m.sp + 1, pc := nnn), None)
      else Outcome(m, Some(IndexOutOfBounds))
    else Outcome(m.(pc := nnn + m.v[0]), None)
  }

  /** 3xkk, 4xkk, 5xy0, 9xy0: skip the next opcode when the comparison holds. */
  function ExecSkip(m: Machine, op: int): (o: Outcome)
    requires Inv(m) && 0 <= op < 0x10000
    ensures Inv(o.m)
  {
    var top, x, y, kk := op / 0x1000, OpX(op), OpY(op), OpKK(op);
    var skip :=
      if top == 0x3 then m.v[x] == kk
      else if top == 0x4 then m.v[x] != kk
      else if top == 0x5 then m.v[x] == m.v[y]
      else m.v[x] != m.v[y];
    Advance(m, if skip then 4 else 2)
  }

  /** 6xkk, 7xkk, 8xyN, Annn, Cxkk: register loads and arithmetic. */
  function ExecRegs(m: Machine, op: int, rnd: Byte): (o: Outcome)
    requires Inv(m) && 0 <= op < 0x10000
    ensures Inv(o.m)
  {
    if op / 0x1000 == 0xA then Advance(m.(i := OpNNN(op)), 2)
    else Advance(m.(v := RegisterOp(m.v, op, rnd)), 2)
  }

  /** The registers after 6xkk, 7xkk, 8xyN or Cxkk (any top nibble other than 6, 7 and 8 acts as C). */
  function RegisterOp(v: seq<Byte>, op: int, rnd: Byte): (r: seq<Byte>)
    requires |v| == RegisterCount && 0 <= op < 0x10000
    ensures |r| == RegisterCount
  {
    var top, x, y, kk := op / 0x1000, OpX(op), OpY(op), OpKK(op);
    if top == 0x6 then v[x := kk]
    else if top == 0x7 then AddImmediate(v, x, kk)
    else if top == 0x8 then Alu(v, x, y, OpN(op))
    else v[x := And8(rnd, kk)]
  }

  /** `runOpcode`: decode on the top nibble and execute. */
  function RunOpcode(m: Machine, op: int, rnd: Byte): (o: Outcome)
    requires Inv(m) && m.mem.Some? && 0 <= op < 0x10000
    ensures Inv(o.m)
  {
    var top := op / 0x1000;
    if top == 0x0 then Exec0(m, op)
    else if top == 0x1 || top == 0x2 || top == 0xB then ExecFlow(m, op)
    else if top == 0x3 || top == 0x4 || top == 0x5 || top == 0x9 then ExecSkip(m, op)
    else if top == 0xD then Draw(m, op)
    else if top == 0xE then ExecKey(m, op)
    else if top == 0xF then ExecF(m, op)
    else ExecRegs(m, op, rnd)
  }

  /** The opcode at `pc`: big endian, high byte first. */
  function Fetch(mem: seq<Byte>, pc: int): int
    requires 0 <= pc && pc + 1 < |mem|
  {
    mem[pc] as int * 256 + mem[pc + 1]
  }

  /**
   * `oneCycle`: fetches and runs the opcode at `pc` when a whole opcode lies
   * below the top of memory; the hi-res shim turns a `JP #260` at the load
   * address into 64x64 mode and `JP #2C0`. `rnd` is the random byte RND uses.
   */
  function OneCycle(m: Machine, rnd: Byte): (o: Outcome)
    requires Inv(m)
    ensures Inv(o.m)
  {
    if m.pc >= MemSize - 2 then Outcome(m, Some(EndOfProgram))
    else if m.mem.None? then Outcome(m, Some(NoMemory))
    else if m.pc < 0 then Outcome(m, Some(IndexOutOfBounds))
    else
      var op := Fetch(m.mem.value, m.pc);
      if m.pc == m.start && op == HiresTrap then
        RunOpcode(m.(h := HiresWidth, vres := HiresHeight), HiresJump, rnd)
      else RunOpcode(m, op, rnd)
  }

  /** `timerCallback`: each running timer counts down by one; the buzzer sounds while the sound timer runs. */
  function TimerTick(m: Machine): (Machine, bool)
  {
    (m.(delay := if m.delay > 0 then m.delay - 1 else m.delay,
        sound := if m.sound > 0 then m.sound - 1 else m.sound),
     m.sound > 0)
  }

  /**
   * `reset` without the thread stop: timers, stack, registers, memory (when
   * there is one), graphics and the current key array are cleared.
   */
  function Reset(m: Machine): Machine
  {
    ResetKbd(ClearBuffers(ResetCore(m)))
  }

  /** The first part of `reset`: timers, call stack, `sp`, `pc`, I and the load address to zero. */
  function ResetCore(m: Machine): Machine
  {
    m.(delay := 0, sound := 0, stack := Zeros(StackDepth), sp := 0, pc := 0, i := 0, start := 0)
  }

  /** The second part of `reset`: memory (when there is one), the pixel buffer and V0..VF to zero. */
  function ClearBuffers(m: Machine): Machine
  {
    m.(mem := if m.mem.Some? then Some(ByteZeros(MemSize)) else None,
       gfx := Zeros(GfxSize), v := ByteZeros(RegisterCount))
  }

  /** `System.arraycopy` on values: `src` written over `s` from index `at`, the rest of `s` kept. */
  function Overwrite(s: seq<Byte>, src: seq<Byte>, at: int): (r: seq<Byte>)
    requires 0 <= at && at + |src| <= |s|
    ensures |r| == |s|
    ensures forall k :: 0 <= k < |s| ==> r[k] == if at <= k < at + |src| then src[k - at] else s[k]
  {
    s[..at] + src + s[at + |src|..]
  }

  /** A fresh memory with both fonts copied in, as `init` builds it. */
  function FontImage(): (f: seq<Byte>)
    ensures |f| == MemSize
  {
    Overwrite(Overwrite(ByteZeros(MemSize), DigitSprites, DigitSpriteStart), Digit10Sprites, Digit10SpriteStart)
  }

  /** `init`: new memory holding the fonts, and the 64x32 screen. */
  function Init(m: Machine, mode: Mode): Machine
  {
    m.(mode := mode, mem := Some(FontImage()), h := LoresWidth, vres := LoresHeight, extended := false)
  }

  /**
   * `loadProgram`: no program gives false and changes nothing; otherwise the
   * machine is initialised, the program is copied to `start` and `pc` set to it.
   * A program that does not fit raises after the initialisation.
   */
  function LoadProgram(m: Machine, prog: Option<seq<Byte>>, mode: Mode, start: int): (Outcome, bool)
  {
    if prog.None? then (Outcome(m, None), false)
    else
      var m1 := Init(m, mode).(start := start);
      var p := prog.value;
      if 0 <= start && start + |p| <= MemSize then
        var mem := Overwrite(FontImage(), p, start);
        (Outcome(m1.(mem := Some(mem), pc := start), None), true)
      else (Outcome(m1, Some(IndexOutOfBounds)), false)
  }
}
