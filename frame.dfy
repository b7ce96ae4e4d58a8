/** The RGB frame buffer the renderers paint into (code/ch8/src/render/frame.rs): 512 by 240
    pixels, three bytes per pixel, row after row. */
module Frame {
  import opened Wrappers

  /** Two screens side by side, so that a scrolled picture can be assembled. */
  const Width: nat := 256 * 2
  const Height: nat := 240
  /** The length of the buffer. */
  const Size: nat := Width * Height * 3

  datatype Rgb = Rgb(r: bv8, g: bv8, b: bv8)

  /** The pixel number of (x, y) in row-major order; an `x` past the right edge runs into the
      next row, exactly as the byte offset of `set_pixel` does. */
  function Index(x: nat, y: nat): nat {
    y * Width + x
  }

  /** The byte offset `set_pixel` computes for (x, y). */
  function Base(x: nat, y: nat): (b: nat)
    ensures b == 3 * Index(x, y)
  {
    y * 3 * Width + x * 3
  }

  /** The pixels that fit in the buffer are exactly those of the 512 by 240 screen. */
  lemma OnScreen(x: nat, y: nat)
    ensures Base(x, y) + 2 < Size <==> Index(x, y) < Width * Height
    ensures x < Width && y < Height ==> Base(x, y) + 2 < Size
  {
  }

  /** The colour stored for pixel `p`. */
  function Pixel(data: seq<bv8>, p: nat): Rgb
    requires 3 * p + 2 < |data|
  {
    Rgb(data[3 * p], data[3 * p + 1], data[3 * p + 2])
  }

  /** The buffer after `set_pixel(x, y, c)`: the three bytes of the pixel take the colour when
      they lie inside the buffer, and nothing changes otherwise. */
  function Painted(data: seq<bv8>, x: nat, y: nat, c: Rgb): (r: seq<bv8>)
    ensures |r| == |data|
    ensures Base(x, y) + 2 < |data| ==> Pixel(r, Index(x, y)) == c
    ensures forall i | 0 <= i < |data| && !(Base(x, y) <= i <= Base(x, y) + 2) :: r[i] == data[i]
    ensures Base(x, y) + 2 >= |data| ==> r == data
  {
    var b := Base(x, y);
    if b + 2 < |data| then data[b := c.r][b + 1 := c.g][b + 2 := c.b] else data
  }

  /** One call of `set_pixel` a renderer makes, or a pixel it decides not to draw. */
  datatype Draw = Skip | Put(x: nat, y: nat, colour: Rgb)

  function Apply(data: seq<bv8>, d: Draw): seq<bv8> {
    match d
    case Skip => data
    case Put(x, y, c) => Painted(data, x, y, c)
  }

  /** The buffer after the draws of `ds`, first to last. */
  function PaintAll(data: seq<bv8>, ds: seq<Draw>): (r: seq<bv8>)
    ensures |r| == |data|
  {
    if |ds| == 0 then data else Apply(PaintAll(data, ds[..|ds| - 1]), ds[|ds| - 1])
  }

  lemma PaintAllAppend(data: seq<bv8>, ds: seq<Draw>, d: Draw)
    ensures PaintAll(data, ds + [d]) == Apply(PaintAll(data, ds), d)
  {
    assert (ds + [d])[..|ds|] == ds;
  }

  lemma PaintAllConcat(data: seq<bv8>, ds: seq<Draw>, es: seq<Draw>)
    ensures PaintAll(data, ds + es) == PaintAll(PaintAll(data, ds), es)
    decreases |es|
  {
    if |es| == 0 {
      assert ds + es == ds;
    } else {
      var init := es[..|es| - 1];
      assert ds + es == (ds + init) + [es[|es| - 1]];
      assert es == init + [es[|es| - 1]];
      PaintAllAppend(data, ds + init, es[|es| - 1]);
      PaintAllAppend(PaintAll(data, ds), init, es[|es| - 1]);
      PaintAllConcat(data, ds, init);
    }
  }

  /** The colour of the last draw in `ds` that lands on pixel `p`, if any. */
  function LastDraw(ds: seq<Draw>, p: nat): Option<Rgb> {
    if |ds| == 0 then None
    else match ds[|ds| - 1]
      case Put(x, y, c) => if Index(x, y) == p then Some(c) else LastDraw(ds[..|ds| - 1], p)
      case Skip => LastDraw(ds[..|ds| - 1], p)
  }

  /** Painting is last-writer-wins, pixel by pixel: after a sequence of draws each pixel shows the
      colour of the last draw that hit it, and keeps its old colour if none did. This is what
      lets sprites drawn after the background cover it. */
  lemma {:induction false} PaintAllPixel(data: seq<bv8>, ds: seq<Draw>, p: nat)
    requires 3 * p + 2 < |data|
    ensures Pixel(PaintAll(data, ds), p) == match LastDraw(ds, p)
      case Some(c) => c
      case None => Pixel(data, p)
  {
    if |ds| > 0 {
      PaintAllPixel(data, ds[..|ds| - 1], p);
    }
  }

  /** Draw `k` of a concatenation of draws where `k` falls in the first part. */
  lemma PrefixAt(ds: seq<Draw>, es: seq<Draw>, k: nat)
    requires k < |ds|
    ensures |ds + es| == |ds| + |es| && (ds + es)[k] == ds[k]
  {
  }

  /** Draw `n` of the second part of a concatenation of draws. */
  lemma AppendAt(ds: seq<Draw>, es: seq<Draw>, n: nat)
    requires n < |es|
    ensures |ds + es| == |ds| + |es| && (ds + es)[|ds| + n] == es[n]
  {
  }

  /** Where the last hit on pixel `p` among `ds + es` comes from: `es` if any of its draws hits
      `p`, `ds` otherwise. */
  lemma {:induction false} LastDrawConcat(ds: seq<Draw>, es: seq<Draw>, p: nat)
    ensures LastDraw(ds + es, p) == if LastDraw(es, p).Some? then LastDraw(es, p) else LastDraw(ds, p)
    decreases |es|
  {
    if |es| == 0 {
      assert ds + es == ds;
    } else {
      var init := es[..|es| - 1];
      assert (ds + es)[..|ds + es| - 1] == ds + init;
      assert (ds + es)[|ds + es| - 1] == es[|es| - 1];
      LastDrawConcat(ds, init, p);
    }
  }

  /** Layers `n` to `top - 1` painted from the top one down, so that layer `n` is painted last. */
  function Layered(f: nat -> seq<Draw>, n: nat, top: nat): seq<Draw>
    decreases top - n
  {
    if n >= top then [] else Layered(f, n + 1, top) + f(n)
  }

  /** Where layer `n` hits pixel `p` and no layer painted after it does, `p` ends with layer
      `n`'s colour. */
  lemma {:induction false} LayeredOnTop(f: nat -> seq<Draw>, m: nat, n: nat, top: nat, p: nat, c: Rgb)
    requires m <= n < top
    requires LastDraw(f(n), p) == Some(c)
    requires forall i | m <= i < n :: LastDraw(f(i), p) == None
    ensures LastDraw(Layered(f, m, top), p) == Some(c)
    decreases n - m
  {
    LastDrawConcat(Layered(f, m + 1, top), f(m), p);
    if m < n {
      LayeredOnTop(f, m + 1, n, top, p, c);
    }
  }

  /** A draw that, if it paints, paints inside the box `[x1, x2) x [y1, y2)`. */
  predicate InBox(d: Draw, x1: int, y1: int, x2: int, y2: int) {
    d.Put? ==> x1 <= d.x < x2 && y1 <= d.y < y2
  }

  predicate AllInBox(ds: seq<Draw>, x1: int, y1: int, x2: int, y2: int) {
    forall n | 0 <= n < |ds| :: InBox(ds[n], x1, y1, x2, y2)
  }

  lemma AllInBoxConcat(ds: seq<Draw>, es: seq<Draw>, x1: int, y1: int, x2: int, y2: int)
    requires AllInBox(ds, x1, y1, x2, y2) && AllInBox(es, x1, y1, x2, y2)
    ensures AllInBox(ds + es, x1, y1, x2, y2)
  {
    forall n | 0 <= n < |ds + es|
      ensures InBox((ds + es)[n], x1, y1, x2, y2)
    {
      if n >= |ds| {
        assert (ds + es)[n] == es[n - |ds|];
      }
    }
  }

  /** Two points of the 512-pixel-wide screen share a pixel number only if they are the same. */
  lemma IndexInjective(x: nat, y: nat, x': nat, y': nat)
    requires x < Width && x' < Width && Index(x, y) == Index(x', y')
    ensures x == x' && y == y'
  {
    assert y * Width <= Index(x, y) < (y + 1) * Width;
    assert y' * Width <= Index(x', y') < (y' + 1) * Width;
  }

  /** Draws that stay inside a box of the screen leave every pixel outside it untouched. */
  lemma {:induction false} LastDrawMiss(ds: seq<Draw>, x1: int, y1: int, x2: int, y2: int, x: nat, y: nat)
    requires x2 <= Width && x < Width && AllInBox(ds, x1, y1, x2, y2)
    requires !(x1 <= x < x2 && y1 <= y < y2)
    ensures LastDraw(ds, Index(x, y)) == None
    decreases |ds|
  {
    if |ds| > 0 {
      var init := ds[..|ds| - 1];
      assert InBox(ds[|ds| - 1], x1, y1, x2, y2);
      assert AllInBox(init, x1, y1, x2, y2) by {
        forall n | 0 <= n < |init|
          ensures InBox(init[n], x1, y1, x2, y2)
        {
          assert init[n] == ds[n];
        }
      }
      LastDrawMiss(init, x1, y1, x2, y2, x, y);
      if ds[|ds| - 1].Put? && Index(ds[|ds| - 1].x, ds[|ds| - 1].y) == Index(x, y) {
        IndexInjective(ds[|ds| - 1].x, ds[|ds| - 1].y, x, y);
      }
    }
  }

  /** The frame a renderer fills, with its buffer updated in place. */
  class Frame {
    var data: array<bv8>

    ghost predicate Valid()
      reads this
    {
      data.Length == Size
    }

    /** `Frame::new`: an all-black buffer of 512 * 240 * 3 bytes. */
    constructor ()
      ensures Valid() && fresh(data)
      ensures data[..] == seq(Size, _ => 0)
    {
      data := new bv8[Size](_ => 0);
    }

    /** `set_pixel`: write the three bytes of (x, y) when they lie inside the buffer. */
    method SetPixel(x: nat, y: nat, c: Rgb)
      modifies data
      ensures data[..] == Painted(old(data[..]), x, y, c)
    {
      var base := y * 3 * Width + x * 3;
      if base + 2 < data.Length {
        data[base] := c.r;
        data[base + 1] := c.g;
        data[base + 2] := c.b;
      }
    }
  }
}
