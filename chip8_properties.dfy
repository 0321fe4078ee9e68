/**
 * Properties of the interpreter state machine: the invariant every cycle
 * keeps, subroutine calls, the flag conventions of the arithmetic opcodes,
 * skips, drawing, BCD and block transfers, the key wait, the timers, reset
 * and loading.
 */
module Chip8Properties {
  import opened Wrappers
  import Util
  import Bits
  import opened Chip8Machine

  // ----- drawing -----

  /**
   * A draw leaves VF at 0 or 1 and no other register changed; N = 0 outside
   * extended mode draws nothing and leaves VF alone.
   */
  lemma DrawFacts(m: Machine, op: int)
    requires Inv(m) && m.mem.Some? && 0xD000 <= op < 0xE000
    ensures OpN(op) > 0 || m.extended ==> Draw(m, op).m.v[15] in {0, 1}
    ensures OpN(op) > 0 || m.extended ==> Draw(m, op).m.v == m.v[15 := Draw(m, op).m.v[15]]
    ensures OpN(op) == 0 && !m.extended ==> Draw(m, op) == Outcome(m.(pc := m.pc + 2), None)
  {
  }

  // ----- drawing: which pixels a sprite flips -----

  /** The sprite rows a draw of `n` bytes covers: 16 rows of two bytes for 32 bytes, else one row per byte. */
  function SpriteRows(n: nat): nat
  {
    if n == 32 then 16 else n
  }

  /** The offset of sprite row `r` from I, at `inc` bytes per row. */
  function RowStart(inc: int, r: nat): int
  {
    if inc == 1 then r else 2 * r
  }

  /** The screen cell that bit `k` of byte `q` of sprite row `r` lands on, the first row being screen row `cy0`. */
  function DotCell(g: Sprite, cy0: int, r: nat, q: nat, k: nat): int
    requires SpriteOk(g) && 0 <= cy0 < g.vres
  {
    Cell(g.sx, g.h, g.vres, (cy0 + r) % g.vres, q, k)
  }

  /** The sprite bit drawn there: bit `k` of byte `q` of row `r` of the sprite at `i`. */
  function DotBit(mem: seq<Byte>, i: int, inc: int, r: nat, q: nat, k: nat): int
    requires 0 <= i + RowStart(inc, r) + q < |mem| && k < 8
  {
    SpriteBit(mem[i + RowStart(inc, r) + q], k)
  }

  /** The exclusive or of two bits. */
  function Flip(pixel: int, bit: int): int
  {
    if bit == 1 then 1 - pixel else pixel
  }

  /**
   * Bit `k` of byte `q` of sprite row `r` is still to be drawn when the blitter
   * is at bit `k0` of byte `q0` of row `r0`: rows go down, the bytes of a row
   * from the last to the first, and the bits of a byte from the highest.
   */
  predicate Pending(rows: nat, inc: int, r0: nat, q0: int, k0: nat, r: nat, q: nat, k: nat)
  {
    r < rows && q < inc && k < 8 && (r > r0 || (r == r0 && (q < q0 || (q == q0 && k >= k0))))
  }

  /** Offsets below the modulus that agree modulo it are equal. */
  lemma ModOffsetsEqual(a: nat, d1: nat, d2: nat, w: int)
    requires 0 < w && d1 < w && d2 < w && (a + d1) % w == (a + d2) % w
    ensures d1 == d2
  {
    var qa, ra := a / w, a % w;
    if ra + d1 < w {
      Util.DivModUnique(a + d1, w, qa, ra + d1);
    } else {
      Util.DivModUnique(a + d1, w, qa + 1, ra + d1 - w);
    }
    if ra + d2 < w {
      Util.DivModUnique(a + d2, w, qa, ra + d2);
    } else {
      Util.DivModUnique(a + d2, w, qa + 1, ra + d2 - w);
    }
  }

  /** No two bits of a sprite of at most 16 rows of at most 16 pixels land on the same cell. */
  lemma DotCellInjective(g: Sprite, cy0: int, r1: nat, q1: nat, k1: nat, r2: nat, q2: nat, k2: nat)
    requires SpriteOk(g) && 0 <= cy0 < g.vres
    requires r1 < 16 && r2 < 16 && q1 < g.inc && q2 < g.inc && k1 < 8 && k2 < 8
    requires DotCell(g, cy0, r1, q1, k1) == DotCell(g, cy0, r2, q2, k2)
    ensures r1 == r2 && q1 == q2 && k1 == k2
  {
    var y1, y2 := (cy0 + r1) % g.vres, (cy0 + r2) % g.vres;
    var x1, x2 := (g.sx + (k1 + q1 * 8)) % g.h, (g.sx + (k2 + q2 * 8)) % g.h;
    CellFormula(g.sx, g.h, g.vres, y1, q1, k1);
    CellFormula(g.sx, g.h, g.vres, y2, q2, k2);
    Util.DivModUnique(x1 + y1 * g.h, g.h, y1, x1);
    Util.DivModUnique(x2 + y2 * g.h, g.h, y2, x2);
    ModOffsetsEqual(cy0, r1, r2, g.vres);
    ModOffsetsEqual(g.sx, k1 + q1 * 8, k2 + q2 * 8, g.h);
  }

  /** What a blit does from a point on: each pending bit flips its cell, no other cell changes, and the flag rises iff one of them clears a lit pixel. */
  ghost predicate Blitted(c: Canvas, d: Drawn, g: Sprite, mem: seq<Byte>, i: int, rows: nat, cy0: int, r0: nat, q0: int, k0: nat)
    requires SpriteOk(g) && 0 <= cy0 < g.vres && |c.gfx| == GfxSize
    requires 0 <= i && i + RowStart(g.inc, rows) <= |mem|
  {
    !d.fault && |d.c.gfx| == GfxSize &&
    (forall r: nat, q: nat, k: nat :: Pending(rows, g.inc, r0, q0, k0, r, q, k) ==>
      d.c.gfx[DotCell(g, cy0, r, q, k)] == Flip(c.gfx[DotCell(g, cy0, r, q, k)], DotBit(mem, i, g.inc, r, q, k))) &&
    (forall x :: 0 <= x < GfxSize && (forall r: nat, q: nat, k: nat :: Pending(rows, g.inc, r0, q0, k0, r, q, k) ==> DotCell(g, cy0, r, q, k) != x) ==>
      d.c.gfx[x] == c.gfx[x]) &&
    (d.c.collided <==> (c.collided ||
      exists r: nat, q: nat, k: nat :: Pending(rows, g.inc, r0, q0, k0, r, q, k) &&
        DotBit(mem, i, g.inc, r, q, k) == 1 && c.gfx[DotCell(g, cy0, r, q, k)] == 1))
  }

  /** The position the blitter is at: sprite row `r0` is screen row `cy`, read from `j`. */
  predicate At(g: Sprite, mem: seq<Byte>, i: int, rows: nat, cy0: int, r0: nat, j: int, cy: int, q0: int, k0: nat)
  {
    SpriteOk(g) && 0 <= cy0 < g.vres && rows <= 16 && 0 <= i && g.end == i + RowStart(g.inc, rows) && g.end <= |mem| &&
    r0 <= rows && j == i + RowStart(g.inc, r0) && cy == (cy0 + r0) % g.vres && -1 <= q0 < g.inc && k0 <= 8
  }

  /** One plotted bit: the pending bits after it, with the bit itself, are the pending bits before it. */
  lemma PlotStep(c: Canvas, d: Drawn, g: Sprite, mem: seq<Byte>, i: int, rows: nat, cy0: int, r0: nat, q0: nat, k0: nat)
    requires SpriteOk(g) && At(g, mem, i, rows, cy0, r0, i + RowStart(g.inc, r0), (cy0 + r0) % g.vres, q0, k0)
    requires r0 < rows && q0 < g.inc && k0 < 8 && |c.gfx| == GfxSize && IsPixels(c.gfx)
    requires var c' := Plot(c, DotCell(g, cy0, r0, q0, k0), DotBit(mem, i, g.inc, r0, q0, k0));
      |c'.gfx| == GfxSize && Blitted(c', d, g, mem, i, rows, cy0, r0, q0, k0 + 1)
    ensures Blitted(c, d, g, mem, i, rows, cy0, r0, q0, k0)
  {
    var cell0, bit0 := DotCell(g, cy0, r0, q0, k0), DotBit(mem, i, g.inc, r0, q0, k0);
    var c' := Plot(c, cell0, bit0);
    assert c'.gfx[cell0] == Flip(c.gfx[cell0], bit0);
    forall r: nat, q: nat, k: nat | Pending(rows, g.inc, r0, q0, k0 + 1, r, q, k)
      ensures DotCell(g, cy0, r, q, k) != cell0
    {
      if DotCell(g, cy0, r, q, k) == cell0 {
        DotCellInjective(g, cy0, r, q, k, r0, q0, k0);
      }
    }
    forall r: nat, q: nat, k: nat | Pending(rows, g.inc, r0, q0, k0, r, q, k)
      ensures d.c.gfx[DotCell(g, cy0, r, q, k)] == Flip(c.gfx[DotCell(g, cy0, r, q, k)], DotBit(mem, i, g.inc, r, q, k))
    {
      if !Pending(rows, g.inc, r0, q0, k0 + 1, r, q, k) {
        assert r == r0 && q == q0 && k == k0;
      }
    }
    assert d.c.collided <==> (c.collided ||
      exists r: nat, q: nat, k: nat :: Pending(rows, g.inc, r0, q0, k0, r, q, k) &&
        DotBit(mem, i, g.inc, r, q, k) == 1 && c.gfx[DotCell(g, cy0, r, q, k)] == 1) by {
      if bit0 == 1 && c.gfx[cell0] == 1 {
        assert Pending(rows, g.inc, r0, q0, k0, r0, q0, k0);
      }
    }
  }

  /** At the end of a row, the bits pending are those from the start of the next row. */
  lemma NextRowPending(rows: nat, inc: int, r0: nat, k0: nat)
    ensures forall r: nat, q: nat, k: nat :: Pending(rows, inc, r0, -1, k0, r, q, k) == Pending(rows, inc, r0 + 1, inc - 1, 0, r, q, k)
  {
  }

  /** At the end of a byte, the bits pending are those from the start of the byte before it. */
  lemma NextBytePending(rows: nat, inc: int, r0: nat, q0: int)
    ensures forall r: nat, q: nat, k: nat :: Pending(rows, inc, r0, q0, 8, r, q, k) == Pending(rows, inc, r0, q0 - 1, 0, r, q, k)
  {
  }

  /** Moving on to the next row or the next byte leaves the same bits pending. */
  lemma SamePending(c: Canvas, d: Drawn, g: Sprite, mem: seq<Byte>, i: int, rows: nat, cy0: int, r0: nat, q0: int, k0: nat, r1: nat, q1: int, k1: nat)
    requires SpriteOk(g) && 0 <= cy0 < g.vres && |c.gfx| == GfxSize && 0 <= i && i + RowStart(g.inc, rows) <= |mem|
    requires forall r: nat, q: nat, k: nat :: Pending(rows, g.inc, r0, q0, k0, r, q, k) == Pending(rows, g.inc, r1, q1, k1, r, q, k)
    requires Blitted(c, d, g, mem, i, rows, cy0, r1, q1, k1)
    ensures Blitted(c, d, g, mem, i, rows, cy0, r0, q0, k0)
  {
  }

  /** The blitter from a point on does what `Blitted` says. */
  lemma {:induction false} BlittingXor(c: Canvas, g: Sprite, mem: seq<Byte>, i: int, rows: nat, cy0: int, r0: nat, j: nat, cy: int, q0: int, k0: nat)
    requires At(g, mem, i, rows, cy0, r0, j, cy, q0, k0) && |c.gfx| == GfxSize && IsPixels(c.gfx)
    ensures 0 <= cy < g.vres
    ensures Blitted(c, Blitting(c, g, mem, j, cy, q0, k0), g, mem, i, rows, cy0, r0, q0, k0)
    decreases g.end - j, q0 + 1, 8 - k0, 1
  {
    if j >= g.end {
      assert r0 == rows;
    } else if q0 < 0 {
      RowDone(c, g, mem, i, rows, cy0, r0, j, cy, k0);
    } else if k0 >= 8 {
      ByteDone(c, g, mem, i, rows, cy0, r0, j, cy, q0);
    } else {
      BitStep(c, g, mem, i, rows, cy0, r0, j, cy, q0, k0);
    }
  }

  /** A finished row: the blitter goes on at the next screen row. */
  lemma {:induction false} RowDone(c: Canvas, g: Sprite, mem: seq<Byte>, i: int, rows: nat, cy0: int, r0: nat, j: nat, cy: int, k0: nat)
    requires At(g, mem, i, rows, cy0, r0, j, cy, -1, k0) && |c.gfx| == GfxSize && IsPixels(c.gfx) && j < g.end
    ensures 0 <= cy < g.vres
    ensures Blitted(c, Blitting(c, g, mem, j, cy, -1, k0), g, mem, i, rows, cy0, r0, -1, k0)
    decreases g.end - j, 0, 8 - k0, 0
  {
    Util.ModSucc(cy0 + r0, g.vres);
    var d := Blitting(c, g, mem, j + g.inc, NextRow(cy, g.vres), g.inc - 1, 0);
    BlittingXor(c, g, mem, i, rows, cy0, r0 + 1, j + g.inc, NextRow(cy, g.vres), g.inc - 1, 0);
    NextRowPending(rows, g.inc, r0, k0);
    SamePending(c, d, g, mem, i, rows, cy0, r0, -1, k0, r0 + 1, g.inc - 1, 0);
    assert Blitting(c, g, mem, j, cy, -1, k0) == d;
  }

  /** A finished byte: the blitter goes on with the byte before it in the row. */
  lemma {:induction false} ByteDone(c: Canvas, g: Sprite, mem: seq<Byte>, i: int, rows: nat, cy0: int, r0: nat, j: nat, cy: int, q0: nat)
    requires At(g, mem, i, rows, cy0, r0, j, cy, q0, 8) && |c.gfx| == GfxSize && IsPixels(c.gfx) && j < g.end
    ensures 0 <= cy < g.vres
    ensures Blitted(c, Blitting(c, g, mem, j, cy, q0, 8), g, mem, i, rows, cy0, r0, q0, 8)
    decreases g.end - j, q0 + 1, 0, 0
  {
    var d := Blitting(c, g, mem, j, cy, q0 - 1, 0);
    BlittingXor(c, g, mem, i, rows, cy0, r0, j, cy, q0 - 1, 0);
    NextBytePending(rows, g.inc, r0, q0);
    SamePending(c, d, g, mem, i, rows, cy0, r0, q0, 8, r0, q0 - 1, 0);
    RowInMemory(g, mem, i, rows, cy0, r0, j, cy, q0, 8);
    assert Blitting(c, g, mem, j, cy, q0, 8) == d;
  }

  /** A row the blitter is in lies wholly in memory. */
  lemma RowInMemory(g: Sprite, mem: seq<Byte>, i: int, rows: nat, cy0: int, r0: nat, j: nat, cy: int, q0: int, k0: nat)
    requires At(g, mem, i, rows, cy0, r0, j, cy, q0, k0) && j < g.end
    ensures r0 < rows && j + g.inc <= g.end <= |mem|
  {
  }

  /** One bit: it is plotted and the blitter goes on with the next bit. */
  lemma {:induction false} BitStep(c: Canvas, g: Sprite, mem: seq<Byte>, i: int, rows: nat, cy0: int, r0: nat, j: nat, cy: int, q0: nat, k0: nat)
    requires At(g, mem, i, rows, cy0, r0, j, cy, q0, k0) && |c.gfx| == GfxSize && IsPixels(c.gfx) && j < g.end && k0 < 8
    ensures 0 <= cy < g.vres
    ensures Blitted(c, Blitting(c, g, mem, j, cy, q0, k0), g, mem, i, rows, cy0, r0, q0, k0)
    decreases g.end - j, q0 + 1, 8 - k0, 0
  {
    var c' := Plot(c, Cell(g.sx, g.h, g.vres, cy, q0, k0), SpriteBit(mem[j + q0], k0));
    assert IsPixels(c'.gfx);
    BlittingXor(c', g, mem, i, rows, cy0, r0, j, cy, q0, k0 + 1);
    PlotStep(c, Blitting(c, g, mem, j, cy, q0, k0), g, mem, i, rows, cy0, r0, q0, k0);
  }

  /** A sprite whose last byte lies past memory stops with the exception, on its last row at the latest. */
  lemma {:induction false} BlittingFaults(c: Canvas, g: Sprite, mem: seq<Byte>, i: int, rows: nat, r0: nat, j: nat, cy: int, q0: int, k0: nat)
    requires SpriteOk(g) && 0 <= cy < g.vres && 0 <= i && 0 < rows && g.end == i + RowStart(g.inc, rows) && g.end > |mem|
    requires j == i + RowStart(g.inc, r0) && -1 <= q0 < g.inc && |c.gfx| == GfxSize
    requires r0 + 1 < rows || (r0 + 1 == rows && q0 == g.inc - 1)
    ensures Blitting(c, g, mem, j, cy, q0, k0).fault
    decreases g.end - j, q0 + 1, 8 - k0
  {
    if q0 < 0 {
      BlittingFaults(c, g, mem, i, rows, r0 + 1, j + g.inc, NextRow(cy, g.vres), g.inc - 1, 0);
    } else if j + q0 >= |mem| {
    } else if k0 >= 8 {
      BlittingFaults(c, g, mem, i, rows, r0, j, cy, q0 - 1, 0);
    } else {
      var c' := Plot(c, Cell(g.sx, g.h, g.vres, cy, q0, k0), SpriteBit(mem[j + q0], k0));
      BlittingFaults(c', g, mem, i, rows, r0, j, cy, q0, k0 + 1);
    }
  }

  /** Bit `k` of byte `q` of row `r` belongs to a sprite of `rows` rows of `inc` bytes. */
  predicate InSprite(rows: nat, inc: int, r: nat, q: nat, k: nat)
  {
    r < rows && q < inc && k < 8
  }

  /**
   * A sprite of `rows` rows of `inc` bytes from `i` drawn at column `g.sx` of
   * screen row `cy0`: bit k of byte q of row r flips the cell `DotCell` gives,
   * no other cell changes, and the flag is 1 exactly when a flipped cell was
   * lit and went dark.
   */
  ghost predicate SpriteDrawn(before: seq<int>, after: seq<int>, flag: int, g: Sprite, cy0: int, rows: nat, mem: seq<Byte>, i: int)
    requires SpriteOk(g) && 0 <= cy0 < g.vres && |before| == |after| == GfxSize && 0 <= i && i + RowStart(g.inc, rows) <= |mem|
  {
    (forall r: nat, q: nat, k: nat :: InSprite(rows, g.inc, r, q, k) ==>
      after[DotCell(g, cy0, r, q, k)] == Flip(before[DotCell(g, cy0, r, q, k)], DotBit(mem, i, g.inc, r, q, k))) &&
    (forall x :: 0 <= x < GfxSize && (forall r: nat, q: nat, k: nat :: InSprite(rows, g.inc, r, q, k) ==> DotCell(g, cy0, r, q, k) != x) ==>
      after[x] == before[x]) &&
    (flag == 1 <==> exists r: nat, q: nat, k: nat ::
      InSprite(rows, g.inc, r, q, k) && DotBit(mem, i, g.inc, r, q, k) == 1 && before[DotCell(g, cy0, r, q, k)] == 1)
  }

  /** The drawing part of `blitSprite` for a sprite inside memory draws it by exclusive or. */
  lemma DrawingXor(m: Machine, sx: Byte, sy: Byte, n: nat)
    requires Inv(m) && m.mem.Some? && (0 < n < 16 || n == 32) && m.i + n <= MemSize
    ensures var r := Drawing(m, sx, sy, n);
      !r.1 && SpriteDrawn(m.gfx, r.0.gfx, r.0.v[15], Sprite(sx, m.i + n, if n == 32 then 2 else 1, m.h, m.vres),
        sy % m.vres, SpriteRows(n), m.mem.value, m.i)
  {
    var g := Sprite(sx, m.i + n, if n == 32 then 2 else 1, m.h, m.vres);
    var cy0 := sy % m.vres;
    var rows := SpriteRows(n);
    BlittingXor(Canvas(m.gfx, false), g, m.mem.value, m.i, rows, cy0, 0, m.i, cy0, g.inc - 1, 0);
    assert forall r: nat, q: nat, k: nat :: Pending(rows, g.inc, 0, g.inc - 1, 0, r, q, k) == InSprite(rows, g.inc, r, q, k);
  }

  /** The drawing part of `blitSprite` for a sprite past memory raises. */
  lemma DrawingFaults(m: Machine, sx: Byte, sy: Byte, n: nat)
    requires Inv(m) && m.mem.Some? && (0 < n < 16 || n == 32) && m.i + n > MemSize
    ensures Drawing(m, sx, sy, n).1
  {
    var g := Sprite(sx, m.i + n, if n == 32 then 2 else 1, m.h, m.vres);
    BlittingFaults(Canvas(m.gfx, false), g, m.mem.value, m.i, SpriteRows(n), 0, m.i, sy % m.vres, g.inc - 1, 0);
  }

  /**
   * `blitSprite` and the step of `pc`: for a sprite of n bytes inside memory
   * the sprite is drawn by exclusive or and `pc` steps; past memory it raises.
   */
  lemma BlitXor(m: Machine, sx: Byte, sy: Byte, n: nat)
    requires Inv(m) && m.mem.Some? && (0 < n < 16 || n == 32)
    ensures var o := Blit(m, sx, sy, n);
      (o.fault.Some? <==> m.i + n > MemSize) &&
      (m.i + n <= MemSize ==>
        o.m.pc == m.pc + 2 &&
        SpriteDrawn(m.gfx, o.m.gfx, o.m.v[15], Sprite(sx, m.i + n, if n == 32 then 2 else 1, m.h, m.vres),
          sy % m.vres, SpriteRows(n), m.mem.value, m.i))
  {
    if m.i + n > MemSize {
      DrawingFaults(m, sx, sy, n);
    } else {
      DrawingXor(m, sx, sy, n);
    }
  }

  /**
   * DRW draws by exclusive or. With the N bytes from I (for N = 0 in extended
   * mode, 32 bytes making 16 rows of two), bit k of byte q of sprite row r
   * flips the cell at column (Vx + 8q + k) mod H of screen row (Vy + r) mod V,
   * no other cell changes, VF ends 1 exactly when one of the flipped cells
   * was lit and went dark, and `pc` steps. A sprite running past memory raises instead.
   */
  lemma DrawXor(m: Machine, op: int)
    requires Inv(m) && m.mem.Some? && 0xD000 <= op < 0xE000 && (OpN(op) > 0 || m.extended)
    ensures var n := if OpN(op) > 0 then OpN(op) else 32;
      var o := Draw(m, op);
      (o.fault.Some? <==> m.i + n > MemSize) &&
      (m.i + n <= MemSize ==>
        o.m.pc == m.pc + 2 &&
        SpriteDrawn(m.gfx, o.m.gfx, o.m.v[15], Sprite(m.v[OpX(op)], m.i + n, if n == 32 then 2 else 1, m.h, m.vres),
          m.v[OpY(op)] % m.vres, SpriteRows(n), m.mem.value, m.i))
  {
    BlitXor(m, m.v[OpX(op)], m.v[OpY(op)], if OpN(op) > 0 then OpN(op) else 32);
  }

  // ----- fetch -----

  /**
   * No opcode is fetched from the last two bytes: the cycle fails with
   * "Reached the end of program" and changes nothing. Below that, the
   * opcode is the big-endian word at `pc`.
   */
  lemma FetchBounds(m: Machine, rnd: Byte)
    requires Inv(m)
    ensures m.pc >= MemSize - 2 ==> OneCycle(m, rnd) == Outcome(m, Some(EndOfProgram))
    ensures 0 <= m.pc < MemSize - 2 && m.mem.Some? && (m.pc != m.start || Fetch(m.mem.value, m.pc) != HiresTrap) ==>
      OneCycle(m, rnd) == RunOpcode(m, m.mem.value[m.pc] as int * 256 + m.mem.value[m.pc + 1], rnd)
  {
  }

  /** The hi-res shim: `JP #260` at the load address selects 64x64 and jumps to #2C0. */
  lemma HiresShim(m: Machine, rnd: Byte)
    requires Inv(m) && m.mem.Some? && 0 <= m.pc < MemSize - 2 && m.pc == m.start
    requires m.mem.value[m.pc] == 0x12 && m.mem.value[m.pc + 1] == 0x60
    ensures OneCycle(m, rnd) == Outcome(m.(h := 64, vres := 64, pc := 0x2C0), None)
  {
  }

  // ----- subroutines -----

  /** CALL pushes `pc` and jumps; RET then pops it and resumes after the call. */
  lemma CallThenReturn(m: Machine, nnn: int, rnd: Byte)
    requires Inv(m) && m.mem.Some? && 0 <= m.sp < StackDepth && 0 <= nnn < 0x1000
    ensures RunOpcode(m, 0x2000 + nnn, rnd) ==
      Outcome(m.(stack := m.stack[m.sp := m.pc], sp := m.sp + 1, pc := nnn), None)
    ensures RunOpcode(RunOpcode(m, 0x2000 + nnn, rnd).m, 0x00EE, rnd) ==
      Outcome(m.(stack := m.stack[m.sp := m.pc], pc := m.pc + 2), None)
  {
  }

  /** A 33rd nested CALL and a RET on an empty stack are errors. */
  lemma StackLimits(m: Machine, nnn: int, rnd: Byte)
    requires Inv(m) && m.mem.Some? && 0 <= nnn < 0x1000
    ensures m.sp == StackDepth ==> RunOpcode(m, 0x2000 + nnn, rnd) == Outcome(m, Some(IndexOutOfBounds))
    ensures m.sp == 0 ==> RunOpcode(m, 0x00EE, rnd) == Outcome(m.(sp := -1), Some(IndexOutOfBounds))
  {
  }

  // ----- arithmetic and flags -----

  /** Only Vx and VF change in the arithmetic group. */
  predicate OnlyXF(v: seq<Byte>, w: seq<Byte>, x: int)
    requires |v| == RegisterCount && |w| == RegisterCount
  {
    forall j :: 0 <= j < RegisterCount && j != x && j != 15 ==> w[j] == v[j]
  }

  /**
   * 8xy4 sets VF to the carry and Vx to the sum mod 256; 8xy5 and 8xy7 set VF
   * to 1 exactly when there is no borrow and Vx to the difference mod 256;
   * 8xy6 and 8xyE put the bit shifted out in VF. With x = F the value of Vx
   * wins, since it is written last.
   */
  lemma AluFlags(v: seq<Byte>, x: int, y: int, n: int)
    requires |v| == RegisterCount && 0 <= x < RegisterCount && 0 <= y < RegisterCount
    ensures OnlyXF(v, Alu(v, x, y, n), x)
    ensures n == 4 ==> Alu(v, x, y, n)[x] == (v[x] as int + v[y]) % 256
    ensures n == 4 && x != 15 ==> Alu(v, x, y, n)[15] == (v[x] as int + v[y]) / 256
    ensures n == 5 ==> Alu(v, x, y, n)[x] == (v[x] as int - v[y]) % 256
    ensures n == 5 && x != 15 ==> Alu(v, x, y, n)[15] == if v[x] >= v[y] then 1 else 0
    ensures n == 7 ==> Alu(v, x, y, n)[x] == (v[y] as int - v[x]) % 256
    ensures n == 7 && x != 15 ==> Alu(v, x, y, n)[15] == if v[y] >= v[x] then 1 else 0
    ensures n == 6 && x != 15 ==> Alu(v, x, y, n)[x] == v[x] / 2 && Alu(v, x, y, n)[15] == v[x] % 2
    ensures n == 14 && x != 15 ==> Alu(v, x, y, n)[x] == (2 * v[x] as int) % 256 && Alu(v, x, y, n)[15] == v[x] / 128
    ensures n in {0, 1, 2, 3} && x != 15 ==> Alu(v, x, y, n)[15] == v[15]
    ensures n !in {0, 1, 2, 3, 4, 5, 6, 7, 14} ==> Alu(v, x, y, n) == v
  {
  }

  /** 7xkk wraps mod 256 and sets VF only on overflow, leaving it alone otherwise. */
  lemma AddImmediateFlag(v: seq<Byte>, x: int, kk: Byte)
    requires |v| == RegisterCount && 0 <= x < 15
    ensures AddImmediate(v, x, kk)[x] == (v[x] as int + kk) % 256
    ensures AddImmediate(v, x, kk)[15] == if v[x] as int + kk > 255 then 1 else v[15]
    ensures OnlyXF(v, AddImmediate(v, x, kk), x)
  {
  }

  /** RND keeps no bit of the random byte outside the mask kk. */
  lemma RandomMasked(m: Machine, op: int, rnd: Byte)
    requires Inv(m) && m.mem.Some? && 0xC000 <= op < 0xD000
    ensures And8(RunOpcode(m, op, rnd).m.v[OpX(op)], OpKK(op)) == RunOpcode(m, op, rnd).m.v[OpX(op)]
  {
    assert RunOpcode(m, op, rnd) == Outcome(m.(v := m.v[OpX(op) := And8(rnd, OpKK(op))], pc := m.pc + 2), None);
    Bits.BitAndIdempotent(rnd, OpKK(op));
  }

  // ----- skips -----

  /** The skip opcodes move `pc` on by 4 when their condition holds and by 2 otherwise. */
  lemma Skips(m: Machine, op: int, rnd: Byte)
    requires Inv(m) && m.mem.Some? && 0 <= op < 0x10000
    ensures op / 0x1000 == 3 ==> (RunOpcode(m, op, rnd) ==
      Outcome(m.(pc := m.pc + if m.v[OpX(op)] == OpKK(op) then 4 else 2), None))
    ensures op / 0x1000 == 4 ==> (RunOpcode(m, op, rnd) ==
      Outcome(m.(pc := m.pc + if m.v[OpX(op)] != OpKK(op) then 4 else 2), None))
    ensures op / 0x1000 == 5 ==> (RunOpcode(m, op, rnd) ==
      Outcome(m.(pc := m.pc + if m.v[OpX(op)] == m.v[OpY(op)] then 4 else 2), None))
    ensures op / 0x1000 == 9 ==> (RunOpcode(m, op, rnd) ==
      Outcome(m.(pc := m.pc + if m.v[OpX(op)] != m.v[OpY(op)] then 4 else 2), None))
    ensures op / 0x1000 == 0xE && OpKK(op) == 0x9E && m.v[OpX(op)] < KeyCount ==> (RunOpcode(m, op, rnd) ==
      Outcome(m.(pc := m.pc + if m.keys[m.v[OpX(op)]] == 1 then 4 else 2), None))
    ensures op / 0x1000 == 0xE && OpKK(op) == 0xA1 && m.v[OpX(op)] < KeyCount ==> (RunOpcode(m, op, rnd) ==
      Outcome(m.(pc := m.pc + if m.keys[m.v[OpX(op)]] == 0 then 4 else 2), None))
    ensures op / 0x1000 == 0xE && OpKK(op) in {0x9E, 0xA1} && m.v[OpX(op)] >= KeyCount ==>
      RunOpcode(m, op, rnd) == Outcome(m, Some(IndexOutOfBounds))
  {
  }

  // ----- memory -----

  /** Fx33 writes the three decimal digits of Vx, most significant first. */
  lemma BcdDigits(mem: seq<Byte>, i: int, n: Byte)
    requires |mem| == MemSize && 0 <= i && i + 2 < MemSize
    ensures var b := Bcd(mem, i, n);
      b[i] < 10 && b[i + 1] < 10 && b[i + 2] < 10
      && 100 * b[i] + 10 * b[i + 1] + b[i + 2] == n
      && forall a :: 0 <= a < MemSize && !(i <= a <= i + 2) ==> b[a] == mem[a]
  {
    var b := Bcd(mem, i, n);
    assert b[i] == n / 100;
    assert n == 100 * (n / 100) + 10 * ((n / 10) % 10) + n % 10;
  }

  /** Fx55 then Fx65 with the same x leaves the registers, I and the rest of the state as they were. */
  lemma StoreThenLoad(m: Machine, x: int, rnd: Byte)
    requires Inv(m) && m.mem.Some? && 0 <= x < RegisterCount && m.i + x < MemSize
    ensures RunOpcode(m, 0xF055 + x * 0x100, rnd) ==
      Outcome(m.(mem := Some(StoreRegs(m.mem.value, m.v, m.i, x)), pc := m.pc + 2), None)
    ensures RunOpcode(m.(mem := Some(StoreRegs(m.mem.value, m.v, m.i, x)), pc := m.pc + 2), 0xF065 + x * 0x100, rnd) ==
      Outcome(m.(mem := Some(StoreRegs(m.mem.value, m.v, m.i, x)), pc := m.pc + 4), None)
  {
    var op1, op2 := 0xF055 + x * 0x100, 0xF065 + x * 0x100;
    assert OpX(op1) == x && OpKK(op1) == 0x55;
    assert OpX(op2) == x && OpKK(op2) == 0x65;
    var mem' := StoreRegs(m.mem.value, m.v, m.i, x);
    var m1 := m.(mem := Some(mem'), pc := m.pc + 2);
    RunsFx(m, op1, rnd);
    assert ExecF(m, op1) == StoreRegisters(m, x);
    RunsFx(m1, op2, rnd);
    assert ExecF(m1, op2) == LoadRegisters(m1, x);
    assert mem'[m.i..m.i + x + 1] == m.v[..x + 1];
    assert m.v[..x + 1] + m.v[x + 1..] == m.v;
    assert LoadRegs(m1.v, mem', m.i, x) == m.v;
  }

  /** An opcode with top nibble F runs as the Fx group. */
  lemma RunsFx(m: Machine, op: int, rnd: Byte)
    requires Inv(m) && m.mem.Some? && 0xF000 <= op < 0x10000
    ensures RunOpcode(m, op, rnd) == ExecF(m, op)
  {
  }

  /** Fx1E keeps I to 12 bits; Fx29 points I at the 5-byte font sprite of the digit in Vx. */
  lemma IndexArithmetic(m: Machine, x: int, rnd: Byte)
    requires Inv(m) && m.mem.Some? && 0 <= x < RegisterCount
    ensures RunOpcode(m, 0xF01E + x * 0x100, rnd).m.i == (m.i + m.v[x]) % 4096 < 4096
    ensures RunOpcode(m, 0xF029 + x * 0x100, rnd).m.i == DigitSpriteStart + 5 * m.v[x] as int
  {
    assert OpX(0xF01E + x * 0x100) == x && OpKK(0xF01E + x * 0x100) == 0x1E;
    assert OpX(0xF029 + x * 0x100) == x && OpKK(0xF029 + x * 0x100) == 0x29;
  }

  // ----- key wait -----

  /**
   * Fx0A: the first execution arms the wait and leaves `pc` where it is, so
   * the opcode runs again; while no key reads 1 it changes nothing.
   */
  lemma KeyWaitArmsAndWaits(m: Machine, x: int, rnd: Byte)
    requires Inv(m) && m.mem.Some? && 0 <= x < RegisterCount
    ensures RunOpcode(m, 0xF00A + x * 0x100, rnd) == KeyWait(m, x)
    ensures !m.awaitingKey ==> KeyWait(m, x) == Outcome(m.(awaitingKey := true, kbdAliased := true), None)
    ensures m.awaitingKey && (forall j :: 0 <= j < KeyCount ==> Kbd(m)[j] != 1) ==>
      KeyWait(m, x) == Outcome(m, None)
  {
    assert OpX(0xF00A + x * 0x100) == x && OpKK(0xF00A + x * 0x100) == 0x0A;
  }

  /**
   * Once a key reads 1 during an armed wait, the lowest such key goes to Vx,
   * the wait is disarmed, the key array is cleared and `pc` moves on.
   */
  lemma KeyWaitFound(m: Machine, x: int, k: int)
    requires Inv(m) && 0 <= x < RegisterCount && m.awaitingKey
    requires 0 <= k < KeyCount && Kbd(m)[k] == 1
    ensures var o := KeyWait(m, x);
      o.fault.None? && o.m.pc == m.pc + 2 && !o.m.awaitingKey
      && o.m.v[x] <= k && Kbd(m)[o.m.v[x]] == 1 && (forall j :: 0 <= j < o.m.v[x] ==> Kbd(m)[j] != 1)
      && Kbd(o.m) == ByteZeros(KeyCount)
      && o.m.v == m.v[x := o.m.v[x]]
  {
  }

  // ----- timers -----

  /** Each running timer counts down by exactly one and never below zero; the buzzer sounds iff the sound timer ran. */
  lemma TimerTickFacts(m: Machine)
    requires Inv(m)
    ensures var (m', buzz) := TimerTick(m);
      Inv(m') && buzz == (m.sound > 0)
      && m'.delay == (if m.delay > 0 then m.delay - 1 else 0)
      && m'.sound == (if m.sound > 0 then m.sound - 1 else 0)
      && m' == m.(delay := m'.delay, sound := m'.sound)
  {
  }

  // ----- reset and loading -----

  /** `reset` clears memory, registers, I, pc, sp, the stack, graphics, timers and keys, and is idempotent. */
  lemma ResetFacts(m: Machine)
    requires Inv(m)
    ensures var r := Reset(m);
      Inv(r) && r.pc == 0 && r.i == 0 && r.sp == 0 && r.start == 0
      && r.delay == 0 && r.sound == 0
      && r.v == ByteZeros(RegisterCount) && r.stack == Zeros(StackDepth) && r.gfx == Zeros(GfxSize)
      && (r.mem.Some? ==> r.mem.value == ByteZeros(MemSize)) && Kbd(r) == ByteZeros(KeyCount)
      && Reset(r) == r
  {
  }

  /** The initial memory holds the 4x5 font at 0x40, the 8x10 font at 0x100 and zeros elsewhere. */
  lemma FontImageLayout()
    ensures FontImage()[DigitSpriteStart..DigitSpriteStart + |DigitSprites|] == DigitSprites
    ensures FontImage()[Digit10SpriteStart..Digit10SpriteStart + |Digit10Sprites|] == Digit10Sprites
    ensures forall a :: 0 <= a < DigitSpriteStart ==> FontImage()[a] == 0
    ensures forall a :: DigitSpriteStart + |DigitSprites| <= a < Digit10SpriteStart ==> FontImage()[a] == 0
    ensures forall a :: Digit10SpriteStart + |Digit10Sprites| <= a < MemSize ==> FontImage()[a] == 0
  {
    var f := FontImage();
    var low := Overwrite(ByteZeros(MemSize), DigitSprites, DigitSpriteStart);
    assert f == Overwrite(low, Digit10Sprites, Digit10SpriteStart);
    assert f[DigitSpriteStart..DigitSpriteStart + |DigitSprites|] == DigitSprites by {
      forall k | 0 <= k < |DigitSprites|
        ensures f[DigitSpriteStart + k] == DigitSprites[k]
      {
        assert low[DigitSpriteStart + k] == DigitSprites[k];
      }
    }
    assert f[Digit10SpriteStart..Digit10SpriteStart + |Digit10Sprites|] == Digit10Sprites by {
      forall k | 0 <= k < |Digit10Sprites|
        ensures f[Digit10SpriteStart + k] == Digit10Sprites[k]
      {
      }
    }
  }

  /** Copying over a range that misses [lo, hi) leaves that slice as it was. */
  lemma OverwriteOutside(s: seq<Byte>, src: seq<Byte>, at: int, lo: int, hi: int)
    requires 0 <= at && at + |src| <= |s| && 0 <= lo <= hi <= |s|
    ensures at + |src| <= lo || hi <= at ==> Overwrite(s, src, at)[lo..hi] == s[lo..hi]
  {
  }

  /** No program: `loadProgram` answers false and changes nothing. */
  lemma LoadNothing(m: Machine, mode: Mode, start: int)
    ensures LoadProgram(m, None, mode, start) == (Outcome(m, None), false)
  {
  }

  /**
   * A program that fits is copied to `start`, `pc` points at it, the screen is
   * 64x32 outside extended mode, and each font is intact unless the program
   * overlaps it.
   */
  lemma LoadFits(m: Machine, prog: seq<Byte>, mode: Mode, start: int)
    requires 0 <= start && start + |prog| <= MemSize
    ensures var (o, ok) := LoadProgram(m, Some(prog), mode, start);
      ok && o.fault.None? && o.m.pc == start && o.m.start == start && o.m.mode == mode
      && o.m.h == LoresWidth && o.m.vres == LoresHeight && !o.m.extended
      && o.m.mem.Some? && |o.m.mem.value| == MemSize
      && o.m.mem.value[start..start + |prog|] == prog
      && (start + |prog| <= DigitSpriteStart || DigitSpriteStart + |DigitSprites| <= start ==>
            o.m.mem.value[DigitSpriteStart..DigitSpriteStart + |DigitSprites|] == DigitSprites)
      && (start + |prog| <= Digit10SpriteStart || Digit10SpriteStart + |Digit10Sprites| <= start ==>
            o.m.mem.value[Digit10SpriteStart..Digit10SpriteStart + |Digit10Sprites|] == Digit10Sprites)
  {
    var f := FontImage();
    var mem := Overwrite(f, prog, start);
    assert mem[start..start + |prog|] == prog by {
      forall k | 0 <= k < |prog|
        ensures mem[start + k] == prog[k]
      {
      }
    }
    FontImageLayout();
    OverwriteOutside(f, prog, start, DigitSpriteStart, DigitSpriteStart + |DigitSprites|);
    OverwriteOutside(f, prog, start, Digit10SpriteStart, Digit10SpriteStart + |Digit10Sprites|);
  }

  /** A program that does not fit raises after the memory has been re-initialised. */
  lemma LoadTooBig(m: Machine, prog: seq<Byte>, mode: Mode, start: int)
    requires !(0 <= start && start + |prog| <= MemSize)
    ensures LoadProgram(m, Some(prog), mode, start) ==
      (Outcome(Init(m, mode).(start := start), Some(IndexOutOfBounds)), false)
  {
  }
}
