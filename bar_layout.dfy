/** The bar geometry of one synthetic visualiser frame
    (components/VisualiserCanvas.tsx, the body of `draw`). Coordinates are CSS
    pixels; the canvas calls are recorded as the rectangles they fill. */
module BarLayout {
  import opened Numeric

  /** Bars per frame (`barCount`). */
  const BarCount: nat := 64
  const PaddingX: int := 18
  const PaddingY: int := 18
  /** Horizontal space between neighbouring bars. */
  const Gap: int := 3

  /** `Math.max(0, Math.min(1, x))`. */
  function Clamp01(x: real): (r: real)
    ensures 0.0 <= r <= 1.0
    ensures 0.0 <= x <= 1.0 ==> r == x
    ensures x < 0.0 ==> r == 0.0
    ensures x > 1.0 ==> r == 1.0
  {
    MaxReal(0.0, MinReal(1.0, x))
  }

  /** Usable area inside the padding and the width of every bar. */
  datatype Layout = Layout(usableW: int, usableH: int, barW: int)

  predicate ValidLayout(L: Layout) {
    L.usableW >= 1 && L.usableH >= 1 && L.barW >= 2
  }

  /** The layout for a container of `w` by `h` CSS pixels. */
  function ComputeLayout(w: nat, h: nat): (L: Layout)
    ensures ValidLayout(L)
    ensures w > 2 * PaddingX ==> L.usableW == w - 2 * PaddingX
    ensures h > 2 * PaddingY ==> L.usableH == h - 2 * PaddingY
    ensures w <= 2 * PaddingX ==> L.usableW == 1
    ensures h <= 2 * PaddingY ==> L.usableH == 1
  {
    var usableW := Max(1, w - PaddingX * 2);
    var usableH := Max(1, h - PaddingY * 2);
    Layout(usableW, usableH, Max(2, (usableW - Gap * (BarCount - 1)) / BarCount))
  }

  /** Left edge of bar `i`: the first bar starts at the padding, and no bar
      starts left of it. */
  function BarX(L: Layout, i: int): (x: int)
    ensures i == 0 ==> x == PaddingX
    ensures i >= 0 && L.barW >= 0 ==> x >= PaddingX
  {
    PaddingX + i * (L.barW + Gap)
  }

  /** The bar width is the widest that lets all bars and gaps fit in the usable
      width, except that it never drops below 2. */
  lemma BarWidthIsWidestFit(w: nat, h: nat)
    ensures var L := ComputeLayout(w, h);
      (L.barW > 2 ==> BarCount * L.barW + Gap * (BarCount - 1) <= L.usableW
                       < BarCount * (L.barW + 1) + Gap * (BarCount - 1))
      && (L.barW == 2 ==> L.usableW < BarCount * 3 + Gap * (BarCount - 1))
  {
    var L := ComputeLayout(w, h);
    var q := (L.usableW - Gap * (BarCount - 1)) / BarCount;
    assert BarCount * q <= L.usableW - Gap * (BarCount - 1) < BarCount * (q + 1);
  }

  /** Any two bars are apart: bar `j` starts at least one gap after bar `i`
      ends, and exactly one gap after it when they are neighbours. */
  lemma {:induction false} BarsApart(L: Layout, i: int, j: int)
    requires ValidLayout(L) && 0 <= i < j
    ensures BarX(L, i) + L.barW + Gap <= BarX(L, j)
    ensures j == i + 1 ==> BarX(L, j) - (BarX(L, i) + L.barW) == Gap
    decreases j - i
  {
    if j > i + 1 {
      BarsApart(L, i, j - 1);
      assert BarX(L, j) == BarX(L, j - 1) + L.barW + Gap;
    }
  }

  /** The last bar ends inside the usable width exactly when the computed width
      `(usableW - 3 * 63) / 64` is at least 2, that is when the minimum width
      did not have to be imposed. */
  lemma LastBarFits(w: nat, h: nat)
    ensures var L := ComputeLayout(w, h);
      BarX(L, BarCount - 1) + L.barW <= PaddingX + L.usableW
      <==> (L.usableW - Gap * (BarCount - 1)) / BarCount >= 2
  {
    var L := ComputeLayout(w, h);
    var q := (L.usableW - Gap * (BarCount - 1)) / BarCount;
    assert BarCount * q <= L.usableW - Gap * (BarCount - 1) < BarCount * (q + 1);
    assert BarX(L, BarCount - 1) + L.barW == PaddingX + BarCount * L.barW + Gap * (BarCount - 1);
  }

  /** `height01`: DNA entry times a moving wave, a jitter and the energy
      influence, clamped to [0, 1]. `sin` stands for `Math.sin`. */
  function Height01(base: real, time: real, i: nat, sin: real -> real, energy: real): (r: real)
    ensures 0.0 <= r <= 1.0
  {
    var wave := 0.55 + 0.45 * sin(time * 2.0 + i as real * 0.22);
    var jitter := 0.88 + 0.12 * sin(time * 8.0 + i as real * 1.7);
    Clamp01(base * wave * jitter * (0.35 + energy * 1.4))
  }

  /** `Math.floor(height01 * usableH)`. */
  function BarHeight(h01: real, usableH: int): (barH: int)
    requires 0.0 <= h01 <= 1.0 && usableH >= 1
    ensures 0 <= barH <= usableH
    ensures barH as real <= h01 * usableH as real < barH as real + 1.0
  {
    assert h01 * usableH as real <= usableH as real by {
      assert (1.0 - h01) * usableH as real >= 0.0;
    }
    (h01 * usableH as real).Floor
  }

  /** The heights of all bars in one frame. */
  function Heights(L: Layout, base: seq<real>, time: real, sin: real -> real, energy: real): (hs: seq<int>)
    requires ValidLayout(L)
    ensures |hs| == |base|
    ensures forall i :: 0 <= i < |hs| ==> 0 <= hs[i] <= L.usableH
  {
    seq(|base|, i requires 0 <= i < |base| =>
      BarHeight(Height01(base[i], time, i, sin, energy), L.usableH))
  }

  /** What a recorded `fillRect` painted with. */
  datatype Fill = Fade | Glow | Core | Strip | Sheen

  /** One recorded `ctx.fillRect(x, y, w, h)` with its fill. */
  datatype Rect = Rect(fill: Fill, x: int, y: int, w: int, h: int)

  /** The exact bar, standing on the bottom of the usable area. */
  function CoreRect(L: Layout, i: int, barH: int): (r: Rect)
    ensures r.fill == Core && r.x == BarX(L, i) && r.w == L.barW && r.h == barH
    ensures r.y + r.h == PaddingY + L.usableH
  {
    Rect(Core, BarX(L, i), PaddingY + (L.usableH - barH), L.barW, barH)
  }

  /** The glow pass: the bar grown by one pixel on every side. */
  function GlowRect(L: Layout, i: int, barH: int): (r: Rect)
    ensures var c := CoreRect(L, i, barH);
      r.fill == Glow && r.x == c.x - 1 && r.y == c.y - 1
      && r.x + r.w == c.x + c.w + 1 && r.y + r.h == c.y + c.h + 1
  {
    Rect(Glow, BarX(L, i) - 1, PaddingY + (L.usableH - barH) - 1, L.barW + 2, barH + 2)
  }

  /** The highlight strip at the top of the bar, `Math.max(2, Math.floor(barH * 0.25))`
      high: a quarter of the bar, but never under 2 pixels. */
  function StripRect(L: Layout, i: int, barH: int): (r: Rect)
    ensures var c := CoreRect(L, i, barH);
      r.fill == Strip && r.x == c.x && r.y == c.y && r.w == c.w
    ensures r.h >= 2
    ensures barH >= 8 ==> 4 * r.h <= barH < 4 * (r.h + 1)
    ensures barH < 8 ==> r.h == 2
  {
    Rect(Strip, BarX(L, i), PaddingY + (L.usableH - barH), L.barW, Max(2, barH / 4))
  }

  /** The rectangles pass `pass` fills for bar `i`. */
  function BarRects(L: Layout, pass: nat, i: int, barH: int): seq<Rect> {
    if pass == 0 then [GlowRect(L, i, barH)]
    else [CoreRect(L, i, barH), StripRect(L, i, barH)]
  }

  /** The rectangles pass `pass` fills for bars `0 .. n - 1`. */
  function PassRects(L: Layout, hs: seq<int>, pass: nat, n: nat): seq<Rect>
    requires n <= |hs|
  {
    if n == 0 then [] else PassRects(L, hs, pass, n - 1) + BarRects(L, pass, n - 1, hs[n - 1])
  }

  /** The rectangles of passes `0 .. p - 1` over all bars. */
  function AllPasses(L: Layout, hs: seq<int>, p: nat): seq<Rect> {
    if p == 0 then [] else AllPasses(L, hs, p - 1) + PassRects(L, hs, p - 1, |hs|)
  }

  /** The glow pass fills one rectangle per bar, the core pass two. */
  lemma {:induction false} PassRectsLength(L: Layout, hs: seq<int>, pass: nat, n: nat)
    requires n <= |hs|
    ensures |PassRects(L, hs, pass, n)| == if pass == 0 then n else 2 * n
    decreases n
  {
    if n > 0 {
      PassRectsLength(L, hs, pass, n - 1);
    }
  }

  /** A frame's two passes fill three rectangles per bar. */
  lemma AllPassesLength(L: Layout, hs: seq<int>)
    ensures |AllPasses(L, hs, 2)| == 3 * |hs|
  {
    PassRectsLength(L, hs, 0, |hs|);
    PassRectsLength(L, hs, 1, |hs|);
    assert AllPasses(L, hs, 1) == [] + PassRects(L, hs, 0, |hs|);
  }

  /** The glow pass holds one rectangle per bar, the core pass two, in bar order. */
  lemma {:induction false} PassRectsAt(L: Layout, hs: seq<int>, n: nat, i: nat)
    requires n <= |hs| && i < n
    ensures |PassRects(L, hs, 0, n)| == n && |PassRects(L, hs, 1, n)| == 2 * n
    ensures PassRects(L, hs, 0, n)[i] == GlowRect(L, i, hs[i])
    ensures PassRects(L, hs, 1, n)[2 * i] == CoreRect(L, i, hs[i])
    ensures PassRects(L, hs, 1, n)[2 * i + 1] == StripRect(L, i, hs[i])
    decreases n
  {
    if i < n - 1 {
      PassRectsAt(L, hs, n - 1, i);
    } else if n > 1 {
      PassRectsAt(L, hs, n - 1, 0);
    }
  }

  /** Both passes of one frame: a glow rectangle for every bar, then the core
      rectangle and its strip for every bar; every core rectangle stands on the
      bottom edge of the usable area and lies within it, and its strip starts at
      its top. */
  lemma FrameBarsAt(L: Layout, hs: seq<int>, i: nat)
    requires ValidLayout(L) && i < |hs|
    requires forall k :: 0 <= k < |hs| ==> 0 <= hs[k] <= L.usableH
    ensures |AllPasses(L, hs, 2)| == 3 * |hs|
    ensures AllPasses(L, hs, 2)[i] == GlowRect(L, i, hs[i])
    ensures AllPasses(L, hs, 2)[|hs| + 2 * i] == CoreRect(L, i, hs[i])
    ensures AllPasses(L, hs, 2)[|hs| + 2 * i + 1] == StripRect(L, i, hs[i])
    ensures var r := CoreRect(L, i, hs[i]);
      PaddingY <= r.y <= PaddingY + L.usableH && r.y + r.h == PaddingY + L.usableH
  {
    PassRectsAt(L, hs, |hs|, i);
    assert AllPasses(L, hs, 1) == [] + PassRects(L, hs, 0, |hs|);
    assert AllPasses(L, hs, 2) == PassRects(L, hs, 0, |hs|) + PassRects(L, hs, 1, |hs|);
  }

  /** The fills of bar `i`, `barH` pixels tall, in one pass: the glow behind
      it, or its core and the highlight strip on top. */
  method PaintBar(L: Layout, pass: nat, i: nat, barH: int) returns (rects: seq<Rect>)
    ensures rects == BarRects(L, pass, i, barH)
  {
    var x := PaddingX + i * (L.barW + Gap);
    var y := PaddingY + (L.usableH - barH);
    if pass == 0 {
      rects := [Rect(Glow, x - 1, y - 1, L.barW + 2, barH + 2)];
    } else {
      rects := [Rect(Core, x, y, L.barW, barH), Rect(Strip, x, y, L.barW, Max(2, barH / 4))];
    }
  }

  /** One pass over the bars (the inner `i` loop of `draw`): the glow pass
      appends one rectangle per bar, the core pass two. */
  method PaintPass(L: Layout, base: seq<real>, time: real, sin: real -> real, energy: real, pass: nat)
    returns (rects: seq<Rect>)
    requires ValidLayout(L)
    ensures rects == PassRects(L, Heights(L, base, time, sin, energy), pass, |base|)
  {
    ghost var hs := Heights(L, base, time, sin, energy);
    rects := [];
    for i := 0 to |base|
      invariant rects == PassRects(L, hs, pass, i)
    {
      var height01 := Height01(base[i], time, i, sin, energy);
      var barH := BarHeight(height01, L.usableH);
      assert barH == hs[i];
      var barRects := PaintBar(L, pass, i, barH);
      rects := rects + barRects;
    }
  }

  /** The two passes over the bars (the outer `pass` loop of `draw`). */
  method PaintBars(L: Layout, base: seq<real>, time: real, sin: real -> real, energy: real)
    returns (rects: seq<Rect>)
    requires ValidLayout(L)
    ensures rects == AllPasses(L, Heights(L, base, time, sin, energy), 2)
    ensures |rects| == 3 * |base|
  {
    ghost var hs := Heights(L, base, time, sin, energy);
    rects := [];
    for pass := 0 to 2
      invariant rects == AllPasses(L, hs, pass)
    {
      var passRects := PaintPass(L, base, time, sin, energy, pass);
      rects := rects + passRects;
    }
    AllPassesLength(L, hs);
  }
}
