/** The synthetic visualiser's session state and per-frame step
    (components/VisualiserCanvas.tsx): the backing-buffer sizing of `resize`, the
    effect that seeds `t0`, `smoothEnergy` and the bar DNA, and `draw`, which
    advances the frame clock, smooths the energy and paints the bars.

    `Math.sin`, `Math.pow(0.001, dt)` and `window.devicePixelRatio` are
    parameters; `requestAnimationFrame` is reduced to the `running` flag. */
module VisualiserCanvas {
  import opened Optional
  import opened Xorshift
  import opened BarLayout
  import opened Numeric

  /** A size reported by `getBoundingClientRect`, never negative. */
  type Css = r: real | r >= 0.0

  /** `Math.max(1, Math.min(2, window.devicePixelRatio || 1))`. */
  function PixelRatio(devicePixelRatio: real): (dpr: real)
    ensures 1.0 <= dpr <= 2.0
    ensures 1.0 <= devicePixelRatio <= 2.0 ==> dpr == devicePixelRatio
    ensures devicePixelRatio <= 1.0 ==> dpr == 1.0
    ensures devicePixelRatio >= 2.0 ==> dpr == 2.0
  {
    var d := if devicePixelRatio == 0.0 then 1.0 else devicePixelRatio;
    if d < 1.0 then 1.0 else if d > 2.0 then 2.0 else d
  }

  /** `Math.floor(css * dpr)`: at least the CSS size and at most twice it. */
  function BackingSize(css: Css, dpr: real): (n: int)
    requires 1.0 <= dpr <= 2.0
    ensures css.Floor <= n <= (2.0 * css).Floor
    ensures n as real <= css * dpr < n as real + 1.0
  {
    var scaled := css * dpr;
    ScaleBetween(css, dpr);
    FloorMonotone(css, scaled);
    FloorMonotone(scaled, 2.0 * css);
    scaled.Floor
  }

  /** A length scaled by a ratio in [1, 2] lies between it and twice it. */
  lemma ScaleBetween(css: Css, dpr: real)
    requires 1.0 <= dpr <= 2.0
    ensures css <= css * dpr <= 2.0 * css
  {
    MulNonneg(css, dpr - 1.0);
    MulNonneg(css, 2.0 - dpr);
  }

  /** `Math.floor` keeps order. */
  lemma FloorMonotone(a: real, b: real)
    requires a <= b
    ensures a.Floor <= b.Floor
  {
  }

  /** `Math.min(50, now - t0)`: capped at 50 ms, with no lower bound. */
  function FrameDelta(now: real, t0: real): (dt: real)
    ensures dt <= 50.0
    ensures now - t0 <= 50.0 ==> dt == now - t0
    ensures now - t0 >= 50.0 ==> dt == 50.0
  {
    if now - t0 < 50.0 then now - t0 else 50.0
  }

  /** The sum of three sinusoids that stands in for audio energy; with `sin`
      in [-1, 1] it lies in [0.35 - 0.51, 0.35 + 0.51]. */
  function SyntheticEnergy(time: real, sin: real -> real): (r: real)
    ensures (forall x :: -1.0 <= sin(x) <= 1.0) ==> -0.16 <= r <= 0.86
  {
    0.35 + 0.25 * sin(time * 2.2) + 0.18 * sin(time * 5.1) + 0.08 * sin(time * 11.0)
  }

  /** `targetEnergy`: the `energy` prop when it is a number, otherwise the
      synthetic signal clamped to [0, 1]. */
  function TargetEnergy(energy: Option<real>, time: real, sin: real -> real): (r: real)
    ensures energy.Some? ==> r == energy.value
    ensures energy.None? ==> 0.0 <= r <= 1.0 && r == Clamp01(SyntheticEnergy(time, sin))
  {
    match energy
    case Some(e) => e
    case None => Clamp01(SyntheticEnergy(time, sin))
  }

  /** With `sin` in [-1, 1] the synthetic signal never reaches the top clamp:
      it stays at or below 0.35 + 0.25 + 0.18 + 0.08 = 0.86. */
  lemma SyntheticTargetBelow(time: real, sin: real -> real)
    requires forall x :: -1.0 <= sin(x) <= 1.0
    ensures 0.0 <= TargetEnergy(None, time, sin) <= 0.86
  {
    assert sin(time * 2.2) <= 1.0 && sin(time * 5.1) <= 1.0 && sin(time * 11.0) <= 1.0;
  }

  /** One smoothing step `prev + (target - prev) * (1 - decay)`, where `decay`
      is `Math.pow(0.001, dt)`. */
  function SmoothStep(prev: real, target: real, decay: real): (r: real)
    ensures decay == 1.0 ==> r == prev
    ensures decay == 0.0 ==> r == target
    ensures r - target == (prev - target) * decay
  {
    prev + (target - prev) * (1.0 - decay)
  }

  lemma MulNonneg(a: real, b: real)
    requires a >= 0.0 && b >= 0.0
    ensures a * b >= 0.0
  {
  }

  lemma MulPos(a: real, b: real)
    requires a > 0.0 && b > 0.0
    ensures a * b > 0.0
  {
  }

  /** For `dt` in [0, 50] the decay lies in [0, 1] and a step lands between the
      previous value and the target, so it never overshoots. */
  lemma SmoothStepBetween(prev: real, target: real, decay: real)
    requires 0.0 <= decay <= 1.0
    ensures prev <= target ==> prev <= SmoothStep(prev, target, decay) <= target
    ensures target <= prev ==> target <= SmoothStep(prev, target, decay) <= prev
  {
    var r := SmoothStep(prev, target, decay);
    assert (target - prev) * (1.0 - decay) == r - prev;
    assert r - target == (prev - target) * decay;
    if prev <= target {
      MulNonneg(target - prev, 1.0 - decay);
      MulNonneg(target - prev, decay);
    } else {
      MulNonneg(prev - target, 1.0 - decay);
      MulNonneg(prev - target, decay);
    }
  }

  /** Smoothing keeps the energy in [0, 1] when it and the target start there. */
  lemma SmoothStepInUnit(prev: real, target: real, decay: real)
    requires 0.0 <= prev <= 1.0 && 0.0 <= target <= 1.0 && 0.0 <= decay <= 1.0
    ensures 0.0 <= SmoothStep(prev, target, decay) <= 1.0
  {
    SmoothStepBetween(prev, target, decay);
  }

  /** A negative `dt` (a frame timestamp before `t0`) makes the decay exceed 1,
      and the step then moves the energy away from its target. */
  lemma SmoothStepBackwards(prev: real, target: real, decay: real)
    requires decay > 1.0 && prev != target
    ensures prev > target ==> SmoothStep(prev, target, decay) > prev
    ensures prev < target ==> SmoothStep(prev, target, decay) < prev
  {
    var r := SmoothStep(prev, target, decay);
    assert r - prev == (prev - target) * (decay - 1.0);
    if prev > target {
      MulPos(prev - target, decay - 1.0);
    } else {
      var d, e := target - prev, decay - 1.0;
      MulPos(d, e);
      assert r - prev == -(d * e);
    }
  }

  /** The translucent black fill over the whole surface. */
  function FadeRect(w: nat, h: nat): (r: Rect)
    ensures r.fill == Fade && r.x == 0 && r.y == 0 && r.w == w && r.h == h
  {
    Rect(Fade, 0, 0, w, h)
  }

  /** The glass highlight across the top, `Math.max(40, Math.floor(h * 0.12))`
      high: 40 pixels up to a height of 341, the floor of 12% above. */
  function SheenRect(w: nat, h: nat): (r: Rect)
    ensures r.fill == Sheen && r.x == 0 && r.y == 0 && r.w == w
    ensures h <= 341 ==> r.h == 40
    ensures h >= 342 ==> 100 * r.h <= 12 * h < 100 * (r.h + 1)
  {
    Rect(Sheen, 0, 0, w, Max(40, h * 12 / 100))
  }

  /** Everything one running frame paints, in order. */
  function FrameRects(w: nat, h: nat, base: seq<real>, time: real, sin: real -> real, energy: real): (rs: seq<Rect>)
    ensures |rs| == 3 * |base| + 2
    ensures rs[0] == FadeRect(w, h) && rs[|rs| - 1] == SheenRect(w, h)
  {
    var L := ComputeLayout(w, h);
    var hs := Heights(L, base, time, sin, energy);
    AllPassesLength(L, hs);
    [FadeRect(w, h)] + AllPasses(L, hs, 2) + [SheenRect(w, h)]
  }

  /** The fills of one running frame: the fade, both bar passes, the sheen. */
  method PaintFrame(w: nat, h: nat, base: seq<real>, time: real, sin: real -> real, energy: real)
    returns (painted: seq<Rect>)
    ensures painted == FrameRects(w, h, base, time, sin, energy)
  {
    var L := ComputeLayout(w, h);
    var bars := PaintBars(L, base, time, sin, energy);
    painted := [FadeRect(w, h)] + bars + [SheenRect(w, h)];
  }

  /** The `seed` prop's default. */
  const DefaultSeed: int := 1

  /** One mounted visualiser: the canvas backing store, the frame clock, the
      smoothed energy and the bar DNA, the `energy` prop the running effect
      captured, plus the memoised generator. */
  class Canvas {
    /** The generator `useMemo` keeps for the seed. */
    const rand: Rand
    /** `canvas.width` and `canvas.height`, in device pixels. */
    var width: int
    var height: int
    /** `canvas.style.width` and `canvas.style.height`, in CSS pixels. */
    var styleWidth: real
    var styleHeight: real
    /** The scale of `ctx.setTransform(dpr, 0, 0, dpr, 0, 0)`. */
    var scale: real
    /** Cleared by the effect's cleanup; a frame that sees it cleared paints nothing. */
    var running: bool
    var t0: real
    var smoothEnergy: real
    var base: seq<real>
    /** The `energy` prop as the effect saw it; `None` when it is not a number. */
    var energy: Option<real>

    predicate Valid()
      reads this
    {
      running ==> |base| == BarCount
    }

    /** A component with an optional `seed` prop, which defaults to 1. */
    constructor (seed: Option<int>)
      ensures fresh(rand) && rand.s == InitialState(seed.GetOr(DefaultSeed))
      ensures !running && base == [] && energy == None && Valid()
    {
      rand := new Rand(seed.GetOr(DefaultSeed));
      width, height := 0, 0;
      styleWidth, styleHeight := 0.0, 0.0;
      scale := 1.0;
      running := false;
      t0, smoothEnergy := 0.0, 0.0;
      base := [];
      energy := None;
    }

    /** The resize handler: backing size from the container's CSS size and the
        capped pixel ratio. The new size depends on the arguments alone, so a
        second call with the same arguments changes nothing. */
    method Resize(rectW: Css, rectH: Css, devicePixelRatio: real)
      modifies this
      ensures scale == PixelRatio(devicePixelRatio) && 1.0 <= scale <= 2.0
      ensures width == BackingSize(rectW, scale) && height == BackingSize(rectH, scale)
      ensures styleWidth == rectW && styleHeight == rectH
      ensures running == old(running) && t0 == old(t0) && energy == old(energy)
      ensures smoothEnergy == old(smoothEnergy) && base == old(base)
    {
      var dpr := PixelRatio(devicePixelRatio);
      width := (rectW * dpr).Floor;
      height := (rectH * dpr).Floor;
      styleWidth := rectW;
      styleHeight := rectH;
      scale := dpr;
    }

    /** The effect body, run with the current `energy` prop: size the canvas,
        start the clock at `now`, reset the smoothed energy to 0.2, and build
        the DNA from the memoised generator as it stands, which on a re-run has
        already been advanced. */
    method Mount(now: real, energyProp: Option<real>, rectW: Css, rectH: Css, devicePixelRatio: real)
      modifies this, rand
      ensures Valid() && running && energy == energyProp
      ensures scale == PixelRatio(devicePixelRatio)
      ensures width == BackingSize(rectW, scale) && height == BackingSize(rectH, scale)
      ensures styleWidth == rectW && styleHeight == rectH
      ensures t0 == now && smoothEnergy == 0.2
      ensures base == Dna(old(rand.s), BarCount)
      ensures rand.s == Advance(old(rand.s), BarCount)
    {
      energy := energyProp;
      Resize(rectW, rectH, devicePixelRatio);
      t0 := now;
      smoothEnergy := 0.2;
      base := BuildBase(rand, BarCount);
      running := true;
    }

    /** The effect cleanup: only the loop stops. */
    method Unmount()
      modifies this
      ensures !running && Valid()
      ensures t0 == old(t0) && smoothEnergy == old(smoothEnergy) && base == old(base)
      ensures energy == old(energy)
      ensures width == old(width) && height == old(height) && scale == old(scale)
      ensures styleWidth == old(styleWidth) && styleHeight == old(styleHeight)
    {
      running := false;
    }

    /** The frame clock: `dt = Math.min(50, now - t0); t0 = now`. */
    method Tick(now: real) returns (dt: real)
      modifies this
      ensures dt == FrameDelta(now, old(t0)) && dt <= 50.0
      ensures t0 == now
      ensures running == old(running) && smoothEnergy == old(smoothEnergy) && base == old(base)
      ensures energy == old(energy)
      ensures width == old(width) && height == old(height) && scale == old(scale)
      ensures styleWidth == old(styleWidth) && styleHeight == old(styleHeight)
    {
      dt := FrameDelta(now, t0);
      t0 := now;
    }

    /** `draw(now)` for a container of `w` by `h` CSS pixels; `pow(dt)` stands
        for `Math.pow(0.001, dt)`. The target energy comes from the prop the
        effect captured. A frame after the cleanup paints nothing. */
    method Frame(now: real, w: nat, h: nat, sin: real -> real, pow: real -> real)
      returns (painted: seq<Rect>)
      requires Valid()
      modifies this
      ensures Valid() && running == old(running) && base == old(base) && energy == old(energy)
      ensures width == old(width) && height == old(height) && scale == old(scale)
      ensures styleWidth == old(styleWidth) && styleHeight == old(styleHeight)
      ensures !old(running) ==> painted == [] && t0 == old(t0) && smoothEnergy == old(smoothEnergy)
      ensures old(running) ==> t0 == now
      ensures old(running) ==> smoothEnergy == SmoothStep(old(smoothEnergy),
        TargetEnergy(energy, now * 0.001, sin), pow(FrameDelta(now, old(t0))))
      ensures old(running) ==> painted == FrameRects(w, h, base, now * 0.001, sin, smoothEnergy)
    {
      if !running {
        return [];
      }
      painted := RunningFrame(now, w, h, sin, pow);
    }

    /** The body of `draw` past the `running` check. */
    method RunningFrame(now: real, w: nat, h: nat, sin: real -> real, pow: real -> real)
      returns (painted: seq<Rect>)
      requires running && |base| == BarCount
      modifies this
      ensures running && base == old(base) && energy == old(energy)
      ensures width == old(width) && height == old(height) && scale == old(scale)
      ensures styleWidth == old(styleWidth) && styleHeight == old(styleHeight)
      ensures t0 == now
      ensures smoothEnergy == SmoothStep(old(smoothEnergy),
        TargetEnergy(energy, now * 0.001, sin), pow(FrameDelta(now, old(t0))))
      ensures painted == FrameRects(w, h, base, now * 0.001, sin, smoothEnergy)
    {
      var dt := Tick(now);
      var time := now * 0.001;
      var target := TargetEnergy(energy, time, sin);
      var e := SmoothStep(smoothEnergy, target, pow(dt));
      smoothEnergy := e;
      painted := PaintFrame(w, h, base, time, sin, e);
    }
  }

  /** Mounting twice with one generator (the effect re-running after `energy`
      changes) gives a second DNA that continues the stream of the first
      instead of repeating it. */
  method RemountContinuesStream(seed: int, now: real, first: Option<real>, second: Option<real>,
                                rectW: Css, rectH: Css, devicePixelRatio: real)
    returns (dna1: seq<real>, dna2: seq<real>)
    ensures dna1 == Dna(InitialState(seed), BarCount)
    ensures dna2 == Dna(Advance(InitialState(seed), BarCount), BarCount)
    ensures dna1 + dna2 == Dna(InitialState(seed), 2 * BarCount)
  {
    var c := new Canvas(Some(seed));
    ghost var s0 := c.rand.s;
    c.Mount(now, first, rectW, rectH, devicePixelRatio);
    dna1 := c.base;
    ghost var s1 := c.rand.s;
    c.Unmount();
    c.Mount(now, second, rectW, rectH, devicePixelRatio);
    dna2 := c.base;
    assert s0 == InitialState(seed) && s1 == Advance(s0, BarCount);
    DnaSplit(s0, BarCount, BarCount);
  }

  /** The component as the microphone view mounts it, with neither `seed` nor
      `energy`: the DNA comes from state 1 and the frames follow the synthetic
      signal. */
  method MountWithoutProps(now: real, rectW: Css, rectH: Css, devicePixelRatio: real, sin: real -> real)
    returns (dna: seq<real>, target: real)
    ensures dna == Dna(1, BarCount)
    ensures target == Clamp01(SyntheticEnergy(now * 0.001, sin))
    ensures (forall x :: -1.0 <= sin(x) <= 1.0) ==> 0.0 <= target <= 0.86
  {
    var c := new Canvas(None);
    c.Mount(now, None, rectW, rectH, devicePixelRatio);
    dna := c.base;
    target := TargetEnergy(c.energy, now * 0.001, sin);
  }
}
