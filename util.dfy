/**
 * The platform utility class: byte promotion, array filling and the in-place
 * scrolling of the pixel buffer used by the S-CHIP scroll opcodes.
 */
module Util {

  /** Java's `(byte)` cast: the two's complement value of the low eight bits. */
  function ToByte(x: int): (b: int)
    ensures -128 <= b < 128
    ensures (x - b) % 256 == 0
  {
    (x + 128) % 256 - 128
  }

  /** `b2i`: promotes a signed Java byte to the unsigned value 0..255 it encodes. */
  function B2i(b: int): (r: int)
    requires -128 <= b < 128
    ensures 0 <= r < 256
    ensures (r - b) % 256 == 0
    ensures b >= 0 ==> r == b
  {
    if b >= 0 then b else 256 + b
  }

  /**
   * Casting to a byte and promoting back keeps exactly the low eight bits, so a
   * byte array read through `b2i` can be modelled by its unsigned values.
   */
  lemma B2iOfCast(x: int)
    ensures B2i(ToByte(x)) == x % 256
  {
  }

  /** `fill`: every element of the buffer becomes `val`. */
  method Fill<T>(buffer: array<T>, val: T)
    modifies buffer
    ensures forall i :: 0 <= i < buffer.Length ==> buffer[i] == val
  {
    var i := 0;
    while i < buffer.Length
      invariant 0 <= i <= buffer.Length
      invariant forall k :: 0 <= k < i ==> buffer[k] == val
    {
      buffer[i] := val;
      i := i + 1;
    }
  }

  // ---------------------------------------------------------------------
  // Scrolling. Direction -1 is left, 1 right, -2 up and 2 down; the buffer
  // is read as rows of `width` cells.
  // ---------------------------------------------------------------------

  /** What the Java code needs of its arguments to scroll without an exception. */
  predicate CanShift(len: int, n: int, cols: int, width: int)
  {
    cols > 0 ==> width > 0 && (n == -1 ==> len % width == 0)
  }

  /** In a buffer of whole rows, a cell whose right neighbour is in the same row is not the last cell. */
  lemma RowInterior(i: int, len: int, width: int)
    requires width > 0 && len % width == 0 && 0 <= i < len && (i + 1) % width > 0
    ensures i + 1 < len
  {
    assert (i + 1) % width != len % width;
  }

  /** One pass of the inner loop of `shiftArray`: a scroll by one cell or row. */
  function ShiftOnce(s: seq<int>, n: int, width: int): (r: seq<int>)
    requires width > 0
    requires n == -1 ==> |s| % width == 0
    ensures |r| == |s|
  {
    if n == -1 then
      seq(|s|, i requires 0 <= i < |s| =>
        if (i + 1) % width > 0 then RowInterior(i, |s|, width); s[i + 1] else 0)
    else if n == 1 then
      seq(|s|, i requires 0 <= i < |s| =>
        if i % width > 0 then s[i - 1] else 0)
    else if n == -2 then
      seq(|s|, i requires 0 <= i < |s| =>
        if i < |s| - width then s[i + width] else 0)
    else if n == 2 then
      seq(|s|, i requires 0 <= i < |s| =>
        if i >= width then s[i - width] else 0)
    else s
  }

  /** `k` passes of the inner loop, as the outer loop of `shiftArray` runs them. */
  function Shifts(s: seq<int>, n: int, width: int, k: nat): (r: seq<int>)
    requires width > 0
    requires n == -1 ==> |s| % width == 0
    ensures |r| == |s|
  {
    if k == 0 then s else ShiftOnce(Shifts(s, n, width, k - 1), n, width)
  }

  /** The effect of `shiftArray(m, n, cols, width)` on the contents of `m`. */
  function Shifted(s: seq<int>, n: int, cols: int, width: int): (r: seq<int>)
    requires CanShift(|s|, n, cols, width)
    ensures |r| == |s|
  {
    if cols > 0 then Shifts(s, n, width, cols % width) else s
  }

  /**
   * The scroll by `c` cells or rows written directly: a left scroll moves every
   * row left by `c` and blanks its last `c` columns, and so on.
   */
  function ShiftedBy(s: seq<int>, n: int, width: int, c: nat): seq<int>
    requires width > 0
  {
    if n == -1 then
      seq(|s|, i requires 0 <= i < |s| =>
        if i % width + c < width && i + c < |s| then s[i + c] else 0)
    else if n == 1 then
      seq(|s|, i requires 0 <= i < |s| =>
        if i % width >= c then s[i - c] else 0)
    else if n == -2 then
      seq(|s|, i requires 0 <= i < |s| =>
        if i + c * width < |s| then s[i + c * width] else 0)
    else if n == 2 then
      seq(|s|, i requires 0 <= i < |s| =>
        if i >= c * width then s[i - c * width] else 0)
    else s
  }

  lemma MulMono(a: int, b: int, w: int)
    requires a <= b && w > 0
    ensures a * w <= b * w
  {
    assert b * w - a * w == (b - a) * w;
  }

  /** Euclidean division is unique: a quotient and remainder in range are the ones `/` and `%` give. */
  lemma DivModUnique(a: int, w: int, q: int, r: int)
    requires w > 0 && 0 <= r < w && a == q * w + r
    ensures a / w == q && a % w == r
  {
    var q', r' := a / w, a % w;
    var d := q - q';
    assert d * w == q * w - q' * w;
    if d > 0 {
      MulMono(1, d, w);
    } else if d < 0 {
      MulMono(d, -1, w);
    }
  }

  lemma ModSucc(i: nat, width: int)
    requires width > 0
    ensures (i + 1) % width == if i % width + 1 < width then i % width + 1 else 0
  {
    var q, r := i / width, i % width;
    if r + 1 < width {
      DivModUnique(i + 1, width, q, r + 1);
    } else {
      assert (q + 1) * width == q * width + width;
      DivModUnique(i + 1, width, q + 1, 0);
    }
  }

  lemma ModPred(i: nat, width: int)
    requires width > 0 && i % width > 0
    ensures (i - 1) % width == i % width - 1
  {
    DivModUnique(i - 1, width, i / width, i % width - 1);
  }

  /** A left scroll never reads past the end when the length is whole rows. */
  lemma LeftInRange(i: nat, len: nat, width: int, c: nat)
    requires width > 0 && len % width == 0 && i < len && i % width + c < width
    ensures i + c < len
  {
    var q, r, rows := i / width, i % width, len / width;
    assert i == q * width + r;
    assert len == rows * width;
    assert q < rows by {
      if q >= rows {
        MulMono(rows, q, width);
      }
    }
    MulMono(q + 1, rows, width);
    assert (q + 1) * width == q * width + width;
  }

  lemma {:induction false} ShiftLeftOnceBy(s: seq<int>, width: int, c: nat)
    requires width > 0 && |s| % width == 0
    ensures ShiftOnce(ShiftedBy(s, -1, width, c), -1, width) == ShiftedBy(s, -1, width, c + 1)
  {
    var a, b := ShiftOnce(ShiftedBy(s, -1, width, c), -1, width), ShiftedBy(s, -1, width, c + 1);
    forall i | 0 <= i < |s| ensures a[i] == b[i] {
      ModSucc(i, width);
      if i % width + c + 1 < width {
        LeftInRange(i, |s|, width, c + 1);
      }
    }
  }

  lemma {:induction false} ShiftRightOnceBy(s: seq<int>, width: int, c: nat)
    requires width > 0
    ensures ShiftOnce(ShiftedBy(s, 1, width, c), 1, width) == ShiftedBy(s, 1, width, c + 1)
  {
    var a, b := ShiftOnce(ShiftedBy(s, 1, width, c), 1, width), ShiftedBy(s, 1, width, c + 1);
    forall i | 0 <= i < |s| ensures a[i] == b[i] {
      if i % width > 0 {
        ModPred(i, width);
      }
    }
  }

  lemma {:induction false} ShiftUpOnceBy(s: seq<int>, width: int, c: nat)
    requires width > 0
    ensures ShiftOnce(ShiftedBy(s, -2, width, c), -2, width) == ShiftedBy(s, -2, width, c + 1)
  {
    var a, b := ShiftOnce(ShiftedBy(s, -2, width, c), -2, width), ShiftedBy(s, -2, width, c + 1);
    assert (c + 1) * width == c * width + width;
    forall i | 0 <= i < |s| ensures a[i] == b[i] {
    }
  }

  lemma {:induction false} ShiftDownOnceBy(s: seq<int>, width: int, c: nat)
    requires width > 0
    ensures ShiftOnce(ShiftedBy(s, 2, width, c), 2, width) == ShiftedBy(s, 2, width, c + 1)
  {
    var a, b := ShiftOnce(ShiftedBy(s, 2, width, c), 2, width), ShiftedBy(s, 2, width, c + 1);
    assert (c + 1) * width == c * width + width;
    forall i | 0 <= i < |s| ensures a[i] == b[i] {
    }
  }

  /** One more pass of the loop is a scroll by one more cell or row. */
  lemma ShiftOnceBy(s: seq<int>, n: int, width: int, c: nat)
    requires width > 0
    requires n == -1 ==> |s| % width == 0
    ensures ShiftOnce(ShiftedBy(s, n, width, c), n, width) == ShiftedBy(s, n, width, c + 1)
  {
    if n == -1 {
      ShiftLeftOnceBy(s, width, c);
    } else if n == 1 {
      ShiftRightOnceBy(s, width, c);
    } else if n == -2 {
      ShiftUpOnceBy(s, width, c);
    } else if n == 2 {
      ShiftDownOnceBy(s, width, c);
    }
  }

  lemma ShiftedByZero(s: seq<int>, n: int, width: int)
    requires width > 0
    ensures ShiftedBy(s, n, width, 0) == s
  {
    var z := ShiftedBy(s, n, width, 0);
    assert |z| == |s|;
    forall i | 0 <= i < |s| ensures z[i] == s[i] {
      assert 0 * width == 0;
    }
  }

  /** The passes of `shiftArray` compose into one scroll by their number. */
  lemma {:induction false} ShiftsAreShiftedBy(s: seq<int>, n: int, width: int, k: nat)
    requires width > 0
    requires n == -1 ==> |s| % width == 0
    ensures Shifts(s, n, width, k) == ShiftedBy(s, n, width, k)
  {
    if k == 0 {
      ShiftedByZero(s, n, width);
    } else {
      ShiftsAreShiftedBy(s, n, width, k - 1);
      ShiftOnceBy(s, n, width, k - 1);
    }
  }

  /**
   * What `shiftArray` does: each row moves left/right by `cols % width` cells,
   * or the rows move up/down by `cols % width`, and the vacated cells become 0;
   * `cols <= 0` or an unknown direction changes nothing.
   */
  lemma {:induction false} ShiftedIsScroll(s: seq<int>, n: int, cols: int, width: int)
    requires CanShift(|s|, n, cols, width)
    ensures cols <= 0 || n !in {-1, 1, -2, 2} ==> Shifted(s, n, cols, width) == s
    ensures cols > 0 ==> Shifted(s, n, cols, width) == ShiftedBy(s, n, width, cols % width)
  {
    if cols > 0 {
      ShiftsAreShiftedBy(s, n, width, cols % width);
    }
  }

  lemma ShiftedByCells(s: seq<int>, n: int, width: int, c: nat)
    requires width > 0
    ensures |ShiftedBy(s, n, width, c)| == |s|
    ensures forall i :: 0 <= i < |s| ==>
      ShiftedBy(s, n, width, c)[i] == 0 || ShiftedBy(s, n, width, c)[i] in s
  {
    if n == -1 || n == 1 {
      ShiftedByCellsInRows(s, n, width, c);
    } else if n == -2 || n == 2 {
      ShiftedByCellsByRows(s, n, width, c);
    }
  }

  lemma ShiftedByCellsInRows(s: seq<int>, n: int, width: int, c: nat)
    requires width > 0 && (n == -1 || n == 1)
    ensures forall i :: 0 <= i < |s| ==>
      ShiftedBy(s, n, width, c)[i] == 0 || ShiftedBy(s, n, width, c)[i] in s
  {
    var b := ShiftedBy(s, n, width, c);
    forall i | 0 <= i < |s| ensures b[i] == 0 || b[i] in s {
      if n == -1 && i % width + c < width && i + c < |s| {
        assert b[i] == s[i + c];
      } else if n == 1 && i % width >= c {
        assert b[i] == s[i - c];
      }
    }
  }

  lemma ShiftedByCellsByRows(s: seq<int>, n: int, width: int, c: nat)
    requires width > 0 && (n == -2 || n == 2)
    ensures forall i :: 0 <= i < |s| ==>
      ShiftedBy(s, n, width, c)[i] == 0 || ShiftedBy(s, n, width, c)[i] in s
  {
    var b := ShiftedBy(s, n, width, c);
    var d := c * width;
    forall i | 0 <= i < |s| ensures b[i] == 0 || b[i] in s {
      if n == -2 && i + d < |s| {
        assert b[i] == s[i + d];
      } else if n == 2 && i >= d {
        assert b[i] == s[i - d];
      }
    }
  }

  /**
   * Scrolling keeps the length and every cell is either a cell of the input or 0,
   * so a buffer of 0/1 pixels stays a buffer of 0/1 pixels.
   */
  lemma ShiftedCells(s: seq<int>, n: int, cols: int, width: int)
    requires CanShift(|s|, n, cols, width)
    ensures forall i :: 0 <= i < |s| ==>
      Shifted(s, n, cols, width)[i] == 0 || Shifted(s, n, cols, width)[i] in s
  {
    ShiftedIsScroll(s, n, cols, width);
    if cols > 0 {
      ShiftedByCells(s, n, width, cols % width);
    }
  }

  /** The pixel-buffer instance of `ShiftedCells`. */
  lemma ShiftedKeepsBits(s: seq<int>, n: int, cols: int, width: int)
    requires CanShift(|s|, n, cols, width)
    requires forall i :: 0 <= i < |s| ==> s[i] == 0 || s[i] == 1
    ensures forall i :: 0 <= i < |s| ==>
      Shifted(s, n, cols, width)[i] == 0 || Shifted(s, n, cols, width)[i] == 1
  {
    ShiftedCells(s, n, cols, width);
  }

  /** Left pass, ascending: each cell takes its right neighbour before it is overwritten. */
  method ShiftLeftOnce(m: array<int>, width: int)
    requires width > 0 && m.Length % width == 0
    modifies m
    ensures m[..] == ShiftOnce(old(m[..]), -1, width)
  {
    ghost var s := m[..];
    var i := 0;
    while i < m.Length
      invariant 0 <= i <= m.Length
      invariant forall k :: 0 <= k < i ==> m[k] == ShiftOnce(s, -1, width)[k]
      invariant forall k :: i <= k < m.Length ==> m[k] == s[k]
    {
      if (i + 1) % width > 0 {
        m[i] := m[i + 1];
      } else {
        m[i] := 0;
      }
      i := i + 1;
    }
  }

  /** Right pass, descending: each cell takes its left neighbour before it is overwritten. */
  method ShiftRightOnce(m: array<int>, width: int)
    requires width > 0
    modifies m
    ensures m[..] == ShiftOnce(old(m[..]), 1, width)
  {
    ghost var s := m[..];
    var i := m.Length - 1;
    while i >= 0
      invariant -1 <= i < m.Length
      invariant forall k :: i < k < m.Length ==> m[k] == ShiftOnce(s, 1, width)[k]
      invariant forall k :: 0 <= k <= i ==> m[k] == s[k]
    {
      if i % width > 0 {
        m[i] := m[i - 1];
      } else {
        m[i] := 0;
      }
      i := i - 1;
    }
  }

  /** Up pass, ascending: each row takes the row below it; the last row is cleared. */
  method ShiftUpOnce(m: array<int>, width: int)
    requires width > 0
    modifies m
    ensures m[..] == ShiftOnce(old(m[..]), -2, width)
  {
    ghost var s := m[..];
    var i := 0;
    while i < m.Length
      invariant 0 <= i <= m.Length
      invariant forall k :: 0 <= k < i ==> m[k] == ShiftOnce(s, -2, width)[k]
      invariant forall k :: i <= k < m.Length ==> m[k] == s[k]
    {
      if i < m.Length - width {
        m[i] := m[i + width];
      } else {
        m[i] := 0;
      }
      i := i + 1;
    }
  }

  /** Down pass, descending: each row takes the row above it; the first row is cleared. */
  method ShiftDownOnce(m: array<int>, width: int)
    requires width > 0
    modifies m
    ensures m[..] == ShiftOnce(old(m[..]), 2, width)
  {
    ghost var s := m[..];
    var i := m.Length - 1;
    while i >= 0
      invariant -1 <= i < m.Length
      invariant forall k :: i < k < m.Length ==> m[k] == ShiftOnce(s, 2, width)[k]
      invariant forall k :: 0 <= k <= i ==> m[k] == s[k]
    {
      if i >= width {
        m[i] := m[i - width];
      } else {
        m[i] := 0;
      }
      i := i - 1;
    }
  }

  /** `shiftArray`: scrolls `m` in place; a null array is left alone. */
  method ShiftArray(m: array?<int>, n: int, cols: int, width: int)
    requires m != null ==> CanShift(m.Length, n, cols, width)
    modifies m
    ensures m != null ==> m[..] == Shifted(old(m[..]), n, cols, width)
  {
    if m != null && cols > 0 {
      var ac := cols % width;
      var j := 0;
      while j < ac
        invariant 0 <= j <= ac
        invariant m[..] == Shifts(old(m[..]), n, width, j)
      {
        if n == -1 {
          ShiftLeftOnce(m, width);
        } else if n == 1 {
          ShiftRightOnce(m, width);
        } else if n == -2 {
          ShiftUpOnce(m, width);
        } else if n == 2 {
          ShiftDownOnce(m, width);
        }
        j := j + 1;
      }
    }
  }
}
