/**
 * `DoubleBuffered5x5Display`: two 25-cell brightness buffers.  Entities draw
 * into the front buffer `pixels`; `Update` sends to the hardware only the
 * cells that differ from the frame committed last time and then swaps the
 * buffers.  The hardware is modelled by the sequence of `(x, y, v)` writes
 * that `Update` returns.
 */
module Display {
  import opened Geometry

  const Width: nat := 5
  const Cells: nat := 25

  /** The element type of Python's `array.array("b", ...)`: a signed byte. */
  type PixelValue = v: int | -128 <= v <= 127

  /** One `set_pixel(x, y, v)` request, before rounding. */
  datatype Stroke = Stroke(x: real, y: real, v: PixelValue)

  /** One hardware `microbit.display.set_pixel(x, y, v)` call. */
  datatype PixelWrite = PixelWrite(x: int, y: int, v: PixelValue)

  /** Row-major index of pixel `(x, y)` in a buffer. */
  function CellIndex(x: int, y: int): int { y * Width + x }

  function WriteIndex(w: PixelWrite): int { CellIndex(w.x, w.y) }

  predicate IsFrame(f: seq<PixelValue>) { |f| == Cells }

  /** The all-dark frame that `clear` leaves behind. */
  function Blank(): (f: seq<PixelValue>)
    ensures IsFrame(f)
    ensures forall i :: 0 <= i < |f| ==> f[i] == 0
  {
    seq(Cells, i => 0)
  }

  /** The frame `array.array("b", range(0, 25))` the buffers start with. */
  function Ramp(): (f: seq<PixelValue>)
    ensures IsFrame(f)
    ensures forall i :: 0 <= i < |f| ==> f[i] == i
  {
    seq(Cells, i requires 0 <= i < Cells => i)
  }

  lemma {:induction false} CellCoordinates(x: int, y: int)
    requires OnGrid(x, y)
    ensures 0 <= CellIndex(x, y) < Cells
    ensures CellIndex(x, y) % Width == x && CellIndex(x, y) / Width == y
  {
  }

  lemma {:induction false} CellIndexInjective(w1: PixelWrite, w2: PixelWrite)
    requires OnGrid(w1.x, w1.y) && OnGrid(w2.x, w2.y)
    requires WriteIndex(w1) == WriteIndex(w2)
    ensures w1.x == w2.x && w1.y == w2.y
  {
    CellCoordinates(w1.x, w1.y);
    CellCoordinates(w2.x, w2.y);
  }

  /**
   * `set_pixel`: the stroke's coordinates are rounded; when both land in
   * 0..4 exactly the cell `y * 5 + x` takes the new value, and otherwise
   * the frame is left as it was.
   */
  function Plot(frame: seq<PixelValue>, s: Stroke): (r: seq<PixelValue>)
    requires IsFrame(frame)
    ensures IsFrame(r)
    ensures OnGrid(ToPixel(s.x), ToPixel(s.y)) ==>
              r[CellIndex(ToPixel(s.x), ToPixel(s.y))] == s.v
    ensures forall i :: 0 <= i < Cells && r[i] != frame[i] ==>
              OnGrid(ToPixel(s.x), ToPixel(s.y)) && i == CellIndex(ToPixel(s.x), ToPixel(s.y))
  {
    var px, py := ToPixel(s.x), ToPixel(s.y);
    if OnGrid(px, py) then frame[CellIndex(px, py) := s.v] else frame
  }

  /** The frame after a sequence of `set_pixel` calls, in order. */
  function Paint(frame: seq<PixelValue>, strokes: seq<Stroke>): (r: seq<PixelValue>)
    requires IsFrame(frame)
    ensures IsFrame(r)
    decreases |strokes|
  {
    if strokes == [] then frame else Paint(Plot(frame, strokes[0]), strokes[1..])
  }

  /** Painting two batches of strokes one after the other is painting their concatenation. */
  lemma {:induction false} PaintAppend(frame: seq<PixelValue>, a: seq<Stroke>, b: seq<Stroke>)
    requires IsFrame(frame)
    ensures Paint(frame, a + b) == Paint(Paint(frame, a), b)
    decreases |a|
  {
    if a == [] {
      assert a + b == b;
    } else {
      assert (a + b)[1..] == a[1..] + b;
      PaintAppend(Plot(frame, a[0]), a[1..], b);
    }
  }

  /** One more stroke at the end is one more `Plot`. */
  lemma PaintSnoc(frame: seq<PixelValue>, strokes: seq<Stroke>, s: Stroke)
    requires IsFrame(frame)
    ensures Paint(frame, strokes + [s]) == Plot(Paint(frame, strokes), s)
  {
    PaintAppend(frame, strokes, [s]);
    assert [s][1..] == [];
  }

  predicate ValuesWithin(f: seq<PixelValue>, lo: int, hi: int)
  {
    forall i :: 0 <= i < |f| ==> lo <= f[i] <= hi
  }

  predicate StrokesWithin(strokes: seq<Stroke>, lo: int, hi: int)
  {
    forall k :: 0 <= k < |strokes| ==> lo <= strokes[k].v <= hi
  }

  /** Painting never produces a brightness outside the range of the frame and the strokes. */
  lemma {:induction false} PaintWithin(frame: seq<PixelValue>, strokes: seq<Stroke>, lo: int, hi: int)
    requires IsFrame(frame)
    requires ValuesWithin(frame, lo, hi) && StrokesWithin(strokes, lo, hi)
    ensures ValuesWithin(Paint(frame, strokes), lo, hi)
    decreases |strokes|
  {
    if strokes != [] {
      var next := Plot(frame, strokes[0]);
      assert ValuesWithin(next, lo, hi) by {
        forall i | 0 <= i < Cells ensures lo <= next[i] <= hi {
          if next[i] != frame[i] {
            assert next[i] == strokes[0].v;
          }
        }
      }
      PaintWithin(next, strokes[1..], lo, hi);
    }
  }

  /** The hardware write for cell `i` of `frame`. */
  function WriteAt(frame: seq<PixelValue>, i: int): (w: PixelWrite)
    requires IsFrame(frame) && 0 <= i < Cells
    ensures OnGrid(w.x, w.y) && WriteIndex(w) == i && w.v == frame[i]
  {
    var w := PixelWrite(i % Width, i / Width, frame[i]);
    assert WriteIndex(w) == i;
    w
  }

  /**
   * The writes the row-major scan of `update` emits for the first `n`
   * cells: every write is on the grid, targets a cell below `n` whose
   * value changed, and carries the new value.
   */
  function Diff(prev: seq<PixelValue>, next: seq<PixelValue>, n: nat): (ws: seq<PixelWrite>)
    requires IsFrame(prev) && IsFrame(next) && n <= Cells
    ensures forall k :: 0 <= k < |ws| ==>
              OnGrid(ws[k].x, ws[k].y) && 0 <= WriteIndex(ws[k]) < n &&
              prev[WriteIndex(ws[k])] != next[WriteIndex(ws[k])] &&
              ws[k].v == next[WriteIndex(ws[k])]
  {
    if n == 0 then []
    else Diff(prev, next, n - 1) + (if prev[n - 1] != next[n - 1] then [WriteAt(next, n - 1)] else [])
  }

  /** The writes `update` sends for a whole frame. */
  function DiffWrites(prev: seq<PixelValue>, next: seq<PixelValue>): seq<PixelWrite>
    requires IsFrame(prev) && IsFrame(next)
  {
    Diff(prev, next, Cells)
  }

  /** Every value `update` writes is a value of the new frame, so it lies in the frame's range. */
  lemma DiffWritesWithin(prev: seq<PixelValue>, next: seq<PixelValue>, lo: int, hi: int)
    requires IsFrame(prev) && IsFrame(next) && ValuesWithin(next, lo, hi)
    ensures forall k :: 0 <= k < |DiffWrites(prev, next)| ==> lo <= DiffWrites(prev, next)[k].v <= hi
  {
  }

  /** Writes in strictly increasing row-major order: no cell is written twice. */
  predicate Ascending(ws: seq<PixelWrite>)
  {
    forall j, k :: 0 <= j < k < |ws| ==> WriteIndex(ws[j]) < WriteIndex(ws[k])
  }

  /** A write to a later cell than all before it keeps the writes ascending. */
  lemma AscendingSnoc(ws: seq<PixelWrite>, w: PixelWrite)
    requires Ascending(ws)
    requires forall k :: 0 <= k < |ws| ==> WriteIndex(ws[k]) < WriteIndex(w)
    ensures Ascending(ws + [w])
  {
    var r := ws + [w];
    forall j, k | 0 <= j < k < |r| ensures WriteIndex(r[j]) < WriteIndex(r[k]) {
      assert r[j] == ws[j];
      if k < |ws| {
        assert r[k] == ws[k];
      }
    }
  }

  /** The writes come in strictly increasing row-major order, so no cell is written twice. */
  lemma {:induction false} DiffOrdered(prev: seq<PixelValue>, next: seq<PixelValue>, n: nat)
    requires IsFrame(prev) && IsFrame(next) && n <= Cells
    ensures Ascending(Diff(prev, next, n))
  {
    if n > 0 {
      DiffOrdered(prev, next, n - 1);
      if prev[n - 1] != next[n - 1] {
        AscendingSnoc(Diff(prev, next, n - 1), WriteAt(next, n - 1));
      }
    }
  }

  /** Every changed cell among the first `n` is written, with its new value. */
  lemma {:induction false} DiffComplete(prev: seq<PixelValue>, next: seq<PixelValue>, n: nat)
    requires IsFrame(prev) && IsFrame(next) && n <= Cells
    ensures forall i :: 0 <= i < n && prev[i] != next[i] ==> WriteAt(next, i) in Diff(prev, next, n)
  {
    if n > 0 {
      DiffComplete(prev, next, n - 1);
      var prefix := Diff(prev, next, n - 1);
      var ws := Diff(prev, next, n);
      assert forall w :: w in prefix ==> w in ws;
    }
  }

  /** Replaying hardware writes, in order, on a frame. */
  function Apply(frame: seq<PixelValue>, ws: seq<PixelWrite>): (r: seq<PixelValue>)
    requires IsFrame(frame)
    requires forall k :: 0 <= k < |ws| ==> OnGrid(ws[k].x, ws[k].y)
    ensures IsFrame(r)
    decreases |ws|
  {
    if ws == [] then frame
    else
      var last := ws[|ws| - 1];
      CellCoordinates(last.x, last.y);
      Apply(frame, ws[..|ws| - 1])[WriteIndex(last) := last.v]
  }

  lemma ApplyLast(frame: seq<PixelValue>, ws: seq<PixelWrite>, w: PixelWrite)
    requires IsFrame(frame) && OnGrid(w.x, w.y)
    requires forall k :: 0 <= k < |ws| ==> OnGrid(ws[k].x, ws[k].y)
    ensures 0 <= WriteIndex(w) < Cells
    ensures Apply(frame, ws + [w]) == Apply(frame, ws)[WriteIndex(w) := w.v]
  {
    CellCoordinates(w.x, w.y);
    assert (ws + [w])[..|ws|] == ws;
  }

  lemma {:induction false} ApplyDiffPrefix(prev: seq<PixelValue>, next: seq<PixelValue>, n: nat)
    requires IsFrame(prev) && IsFrame(next) && n <= Cells
    ensures forall i :: 0 <= i < Cells ==>
              Apply(prev, Diff(prev, next, n))[i] == if i < n then next[i] else prev[i]
  {
    if n > 0 {
      ApplyDiffPrefix(prev, next, n - 1);
      var prefix := Diff(prev, next, n - 1);
      if prev[n - 1] != next[n - 1] {
        var w := WriteAt(next, n - 1);
        assert Diff(prev, next, n) == prefix + [w];
        ApplyLast(prev, prefix, w);
      } else {
        assert Diff(prev, next, n) == prefix;
      }
    }
  }

  /**
   * The point of the differential renderer: a display that shows the
   * previous frame shows exactly the new frame once the writes are applied.
   */
  lemma ApplyDiffWrites(prev: seq<PixelValue>, next: seq<PixelValue>)
    requires IsFrame(prev) && IsFrame(next)
    ensures Apply(prev, DiffWrites(prev, next)) == next
  {
    ApplyDiffPrefix(prev, next, Cells);
  }

  lemma AscendingPair(ws: seq<PixelWrite>, j: nat, k: nat)
    requires Ascending(ws) && j < k < |ws|
    ensures WriteIndex(ws[j]) < WriteIndex(ws[k])
  {
  }

  /** Two frames that differ in cell `i` only produce exactly one write, to that cell. */
  lemma {:induction false} SingleChangeSingleWrite(prev: seq<PixelValue>, next: seq<PixelValue>, i: nat)
    requires IsFrame(prev) && IsFrame(next) && i < Cells
    requires forall j :: 0 <= j < Cells && j != i ==> prev[j] == next[j]
    requires prev[i] != next[i]
    ensures DiffWrites(prev, next) == [WriteAt(next, i)]
  {
    DiffOrdered(prev, next, Cells);
    DiffComplete(prev, next, Cells);
    var ws := DiffWrites(prev, next);
    assert WriteAt(next, i) in ws;
    forall k | 0 <= k < |ws| ensures ws[k] == WriteAt(next, i) {
      CellIndexInjective(ws[k], WriteAt(next, i));
    }
    assert Ascending(ws);
    if |ws| > 1 {
      AscendingPair(ws, 0, 1);
      assert false;
    }
  }

  class DoubleBuffered5x5Display {
    var pixels: array<PixelValue>
    var oldPixels: array<PixelValue>

    ghost predicate Valid()
      reads this
    {
      pixels.Length == Cells && oldPixels.Length == Cells && pixels != oldPixels
    }

    constructor ()
      ensures Valid() && fresh(pixels) && fresh(oldPixels)
      ensures pixels[..] == Ramp() && oldPixels[..] == Ramp()
    {
      pixels := new PixelValue[Cells](i requires 0 <= i < Cells => i);
      oldPixels := new PixelValue[Cells](i requires 0 <= i < Cells => i);
    }

    /** `set_pixel`: a bounds-checked write of the rounded position into the front buffer. */
    method SetPixel(x: real, y: real, v: PixelValue)
      requires Valid()
      modifies pixels
      ensures pixels[..] == Plot(old(pixels[..]), Stroke(x, y, v))
    {
      var px := ToPixel(x);
      var py := ToPixel(y);
      if px >= 0 && px <= 4 && py >= 0 && py <= 4 {
        pixels[py * 5 + px] := v;
      }
    }

    /** `clear`: zeroes every cell of the front buffer. */
    method Clear()
      requires Valid()
      modifies pixels
      ensures pixels[..] == Blank()
    {
      var p := 0;
      while p < pixels.Length
        invariant 0 <= p <= pixels.Length
        invariant forall i :: 0 <= i < p ==> pixels[i] == 0
      {
        pixels[p] := 0;
        p := p + 1;
      }
    }

    /**
     * `update`: one hardware write per cell whose value differs from the
     * committed frame, in row-major order, then the buffers swap so that
     * `oldPixels` holds the frame just committed.
     */
    method Update() returns (writes: seq<PixelWrite>)
      requires Valid()
      modifies this
      ensures Valid()
      ensures oldPixels == old(pixels) && pixels == old(oldPixels)
      ensures writes == DiffWrites(old(oldPixels[..]), old(pixels[..]))
    {
      writes := [];
      var y := 0;
      while y < 5
        invariant 0 <= y <= 5
        invariant pixels == old(pixels) && oldPixels == old(oldPixels)
        invariant writes == Diff(oldPixels[..], pixels[..], y * 5)
      {
        var x := 0;
        while x < 5
          invariant 0 <= x <= 5
          invariant pixels == old(pixels) && oldPixels == old(oldPixels)
          invariant writes == Diff(oldPixels[..], pixels[..], y * 5 + x)
        {
          var oldPx := oldPixels[y * 5 + x];
          var newPx := pixels[y * 5 + x];
          CellCoordinates(x, y);
          if oldPx != newPx {
            writes := writes + [PixelWrite(x, y, newPx)];
          }
          x := x + 1;
        }
        y := y + 1;
      }
      oldPixels, pixels := pixels, oldPixels;
    }
  }
}
