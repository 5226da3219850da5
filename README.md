# winamped-player: a verified model of the visualiser and player chrome

This project models the interactive core of a media-player skin with an
audio-reactive bar visualiser. Three components are modelled:

- **The synthetic bar visualiser** (`components/VisualiserCanvas.tsx`). It has
  a seeded xorshift32 generator whose draws build a per-bar "DNA" profile. It
  sizes the canvas backing store, and its frame step clamps the frame delta,
  smooths the energy towards a target and paints a fade, two bar passes and a
  sheen.
- **The microphone session** (`components/MicVisualiser.tsx`). This is the
  `idle | starting | running | denied | error` status machine of `startMic` and
  `stopMic`. It also has the two analyser read-outs, which reuse their byte
  buffers, and the overlay and stop button shown for each status.
- **The player shell** (`components/WmpShell.tsx`). This is the volume
  slider's pointer handlers and drag flag, `aria-valuenow`, and the transport
  buttons' single highlighted control.

Modules and files:

| file | module | contents |
|---|---|---|
| `numeric.dfy` | `Numeric` | `Math.min` and `Math.max` on integers and reals |
| `optional.dfy` | `Optional` | `Option`, for `null` refs and the optional `energy` prop |
| `xorshift.dfy` | `Int32`, `Xorshift` | JavaScript's ToInt32; the generator as a `bv32` state and the class `Rand`; the function `Dna` and the `BuildBase` loop that builds it |
| `bar_layout.dfy` | `BarLayout` | padding, bar width and bar positions; bar heights; the rectangles of the two passes and the loop that paints them |
| `visualiser_canvas.dfy` | `VisualiserCanvas` | pixel ratio, backing size, frame delta, target and smoothed energy; the class `Canvas` with `Resize`, `Mount`, `Frame` and `Unmount` |
| `mic_visualiser.dfy` | `MicVisualiser` | the class `Mic` (status, message, refs, byte buffers) and the overlay mapping |
| `wmp_shell.dfy` | `WmpShell` | the volume mapping, `aria-valuenow`, and the class `Shell` with its pointer and click handlers |

Modelling conventions:

- **Generator state.** JavaScript applies `<<`, `>>` and `^` to the 32-bit
  two's-complement pattern, so the state is a `bv32`. The middle step of the
  source uses the sign-propagating `>>`, not the logical `>>>` of the textbook
  xorshift32. `Xorshift.Sar17` models that shift.
- **A quirk of that shift.** The step is not injective: `0xFC001FFF` and `0`
  both step to `0`. No seed reaches `0xFC001FFF`, though, so the state is never
  zero (`Xorshift.AdvanceLive`).
- **Canvas calls.** Each `fillRect` is recorded as a `Rect` carrying the fill
  it was painted with. A frame returns the sequence of rectangles it paints.
- **Asynchronous handlers.** Each `await` splits a handler in two:
  - `Mic.BeginStart` and `Mic.CompleteStart` make up `startMic`;
  - `Mic.BeginStop` and `Mic.FinishStop` make up `stopMic`.

  A caller can therefore interleave other calls at the points where the source
  yields.
- **Browser outcomes.** The browser's answers are parameters: the stage and
  error name of a failed acquisition, and whether `close()` resolves. So are
  the bytes the analyser writes.

Facts about the code that a reader might not expect:

- **Frame delta.** `dt` is `Math.min(50, now - t0)`, with no lower bound.
  `VisualiserCanvas.FrameDelta` and `VisualiserCanvas.Canvas.Tick` follow this.
  `VisualiserCanvas.SmoothStepBackwards` shows what a negative `dt` does: it
  pushes the energy away from its target.
- **First frame.** The first frame's `dt` is `now - t0`, where `t0` is read
  when the effect runs. It is not 0.
- **Captured props.** `draw` reads the `energy` prop that its effect captured.
  Any change of `energy` re-runs the effect, which resets the clock and the
  smoothed energy and draws 64 more DNA values. `Canvas.Mount` stores the prop
  and `Canvas.Frame` reads it from there.
- **Default seed.** `seed` defaults to 1. The microphone view passes neither
  `seed` nor `energy`, so its DNA always comes from state 1
  (`VisualiserCanvas.MountWithoutProps`).
- **Fixed layout.** There is one layout: 64 bars, padding 18 on both axes and
  a gap of 3. There are no peak caps, no frequency-bin mapping and no
  waveform trace.

## Model

| member | source | states |
|---|---|---|
| Int32.ToInt32 | components/VisualiserCanvas.tsx:18 | the seed's ToInt32 conversion: the result is a signed 32-bit value congruent to the seed modulo 2^32, and is the seed itself when the seed is already in that range |
| Xorshift.InitialState | components/VisualiserCanvas.tsx:18 | the initial state is the seed's ToInt32 conversion raised to at least 1, lies in [1, 2^31), equals the seed for seeds in that range, and is live |
| Xorshift.Sar17 | components/VisualiserCanvas.tsx:22 | `x >> 17` keeps the top 15 bits of `x` as its low bits and fills the 17 vacated top bits with copies of the sign bit |
| Xorshift.XorSar17 | components/VisualiserCanvas.tsx:22 | after `s ^= s >> 17` the sign bit is always clear |
| Xorshift.XorShl13 | components/VisualiserCanvas.tsx:21 | `s ^= s << 13` leaves the low 13 bits of the state as they were |
| Xorshift.XorShl5 | components/VisualiserCanvas.tsx:23 | `s ^= s << 5` leaves the low 5 bits of the state as they were |
| Xorshift.Step | components/VisualiserCanvas.tsx:21-23 | one call applies the three xor-assignments in order; zero is a fixed point |
| Xorshift.Advance | components/VisualiserCanvas.tsx:19-25 | the state after `n` calls: zero calls leave it, one call is one `Step` |
| Xorshift.Draw | components/VisualiserCanvas.tsx:24 | the draw `(s >>> 0) % 1000` is below 1000 |
| Xorshift.Value | components/VisualiserCanvas.tsx:24 | `rand()` returns a value in [0, 1) that is exactly the draw divided by 1000 |
| Xorshift.Draws | components/VisualiserCanvas.tsx:19-25 | `n` calls give `n` draws, each below 1000 |
| Xorshift.Gene | components/VisualiserCanvas.tsx:61 | each DNA entry `0.25 + rand() * 0.75` lies in [0.25, 1) |
| Xorshift.Dna | components/VisualiserCanvas.tsx:61 | a DNA of length `n`, every entry in [0.25, 1) |
| Xorshift.StepKeepsLive | components/VisualiserCanvas.tsx:21-23 | a step keeps a live state live (neither 0 nor 0xFC001FFF) |
| Xorshift.StepNotInjective | components/VisualiserCanvas.tsx:21-23 | with the sign-propagating shift, 0xFC001FFF and 0 both step to 0 |
| Xorshift.AdvanceLive | components/VisualiserCanvas.tsx:18-23 | from a live state, no number of calls ever brings the state to 0 |
| Xorshift.AdvanceAdd | components/VisualiserCanvas.tsx:19-25 | `m` calls followed by `n` calls are `m + n` calls |
| Xorshift.DnaOfDraws | components/VisualiserCanvas.tsx:61 | DNA entry `i` is the `i`-th draw mapped through `0.25 + k / 1000 * 0.75` |
| Xorshift.DnaSplit | components/VisualiserCanvas.tsx:61 | building `m + n` entries equals building `m` and then `n` more from where the generator stopped |
| Xorshift.Rand.constructor | components/VisualiserCanvas.tsx:17-18 | the memoised closure starts at the initial state of its seed |
| Xorshift.Rand.Next | components/VisualiserCanvas.tsx:19-25 | one call applies the three xor-assignments to the state and returns the draw of the new state |
| Xorshift.DrawMany | components/VisualiserCanvas.tsx:19-25 | `n` calls return exactly `Draws` of the starting state and leave the state advanced by `n` steps |
| Xorshift.BuildBase | components/VisualiserCanvas.tsx:61 | `Array.from` over 64 calls builds exactly `Dna` of the generator's state and advances it by 64 steps |
| Xorshift.SameSeedSameDraws | components/VisualiserCanvas.tsx:17-26 | two generators with the same seed produce the same draws, namely `Draws` of the seed's initial state |
| Xorshift.SameSeedSameDna | components/VisualiserCanvas.tsx:59-61 | two generators with the same seed build the same DNA, equal to `Dna` of the seed's initial state |
| BarLayout.Clamp01 | components/VisualiserCanvas.tsx:110 | `Math.max(0, Math.min(1, x))` lies in [0, 1], is `x` inside it, 0 below and 1 above |
| BarLayout.ComputeLayout | components/VisualiserCanvas.tsx:89-95 | the usable area is the container minus 18 px of padding per side, or 1 px when that is not positive; bars are at least 2 px wide |
| BarLayout.BarWidthIsWidestFit | components/VisualiserCanvas.tsx:95 | the bar width is the widest with which 64 bars and 63 gaps fit in the usable width; it is 2 only when no wider bar fits |
| BarLayout.BarX | components/VisualiserCanvas.tsx:103 | bar `i` starts at `18 + i * (barW + 3)`: the first at the padding, none left of it |
| BarLayout.CoreRect | components/VisualiserCanvas.tsx:113-121 | the main bar is `barW` wide and `barH` high at the bar's left edge, standing on the bottom of the usable area |
| BarLayout.GlowRect | components/VisualiserCanvas.tsx:113-117 | the glow is the main bar grown by one pixel on every side |
| BarLayout.StripRect | components/VisualiserCanvas.tsx:123-124 | the strip shares the main bar's top-left corner and width, and is a quarter of the bar high (rounded down) but never under 2 pixels |
| BarLayout.BarsApart | components/VisualiserCanvas.tsx:103 | bars never overlap: any later bar starts at least one 3 px gap after an earlier one ends, and a neighbour exactly one gap after |
| BarLayout.LastBarFits | components/VisualiserCanvas.tsx:95-103 | the last bar ends inside the usable width if and only if the 2 px minimum bar width did not have to be imposed |
| BarLayout.Height01 | components/VisualiserCanvas.tsx:106-110 | every bar's `height01` lies in [0, 1], whatever `sin` and the energy are |
| BarLayout.BarHeight | components/VisualiserCanvas.tsx:111 | `Math.floor(height01 * usableH)` lies between 0 and `usableH` and is the floor of the product |
| BarLayout.Heights | components/VisualiserCanvas.tsx:102-111 | one height per DNA entry, each within the usable height |
| BarLayout.PassRectsLength | components/VisualiserCanvas.tsx:100-127 | the glow pass fills one rectangle per bar and the core pass two |
| BarLayout.AllPassesLength | components/VisualiserCanvas.tsx:100-127 | the two passes together fill three rectangles per bar |
| BarLayout.PassRectsAt | components/VisualiserCanvas.tsx:100-127 | in each pass the rectangles come in bar order: glow `i` at `i`; core `i` at `2i` with its strip right after |
| BarLayout.FrameBarsAt | components/VisualiserCanvas.tsx:113-125 | all glows come first, then each bar's core and strip; every core rectangle stands on the bottom edge of the usable area and lies within it |
| BarLayout.PaintBar | components/VisualiserCanvas.tsx:103-125 | one bar's fills in one pass are exactly `BarRects`: the glow in pass 0, otherwise the core and the strip |
| BarLayout.PaintPass | components/VisualiserCanvas.tsx:102-126 | the inner bar loop paints exactly `PassRects` of the bar heights for its pass: one glow per bar, or a core and a strip per bar |
| BarLayout.PaintBars | components/VisualiserCanvas.tsx:100-127 | the nested pass and bar loops paint exactly `AllPasses` of the bar heights, three rectangles per bar |
| VisualiserCanvas.PixelRatio | components/VisualiserCanvas.tsx:42 | the pixel ratio is `devicePixelRatio` capped to [1, 2], and 1 when it is 0 |
| VisualiserCanvas.BackingSize | components/VisualiserCanvas.tsx:43-44 | the backing dimension is the floor of CSS size times ratio, so between the CSS size and twice it |
| VisualiserCanvas.FrameDelta | components/VisualiserCanvas.tsx:66 | `dt` never exceeds 50 ms, is 50 after a long pause and the real delta otherwise, with no lower bound |
| VisualiserCanvas.SyntheticEnergy | components/VisualiserCanvas.tsx:78-82 | the sum of three sinusoids around 0.35, which stays in [-0.16, 0.86] when `sin` stays in [-1, 1] |
| VisualiserCanvas.TargetEnergy | components/VisualiserCanvas.tsx:78-84 | the target is the `energy` prop when one is given, otherwise the synthetic signal clamped to [0, 1] |
| VisualiserCanvas.SyntheticTargetBelow | components/VisualiserCanvas.tsx:78-84 | with `sin` in [-1, 1] the synthetic target never exceeds 0.86 |
| VisualiserCanvas.SmoothStep | components/VisualiserCanvas.tsx:86 | the distance to the target is scaled by the decay: decay 1 keeps the energy, decay 0 jumps to the target |
| VisualiserCanvas.SmoothStepBetween | components/VisualiserCanvas.tsx:86 | for a decay in [0, 1] the new energy lies between the old one and the target, so it never overshoots |
| VisualiserCanvas.SmoothStepInUnit | components/VisualiserCanvas.tsx:86 | the smoothed energy stays in [0, 1] when it and the target start there |
| VisualiserCanvas.SmoothStepBackwards | components/VisualiserCanvas.tsx:66-86 | with a negative `dt` (decay above 1) a step moves the energy away from its target |
| VisualiserCanvas.FadeRect | components/VisualiserCanvas.tsx:73-74 | the fade covers the whole `w` by `h` surface |
| VisualiserCanvas.SheenRect | components/VisualiserCanvas.tsx:130-131 | the sheen spans the full width from the top; it is 40 px high up to a height of 341 and the floor of 12% of the height above |
| VisualiserCanvas.FrameRects | components/VisualiserCanvas.tsx:72-131 | a frame paints `3 * bars + 2` rectangles, the fade first and the sheen last |
| VisualiserCanvas.PaintFrame | components/VisualiserCanvas.tsx:72-131 | the frame's fills are exactly the fade, the two bar passes and the sheen, as `FrameRects` lists them |
| VisualiserCanvas.Canvas.constructor | components/VisualiserCanvas.tsx:12-26 | a fresh component holds a fresh generator at the initial state of its `seed` prop, or of 1 when the prop is absent, and is not running |
| VisualiserCanvas.Canvas.Resize | components/VisualiserCanvas.tsx:40-48 | the ratio is capped, the backing store is sized from the CSS size, the style keeps the CSS size, and nothing else changes |
| VisualiserCanvas.Canvas.Mount | components/VisualiserCanvas.tsx:28-61 | the effect captures the `energy` prop, sizes the canvas, starts the clock at `now`, sets the energy to 0.2, and builds the DNA from the generator's current state, advancing it by 64 steps |
| VisualiserCanvas.Canvas.Unmount | components/VisualiserCanvas.tsx:138-142 | the cleanup stops the loop; every other field keeps its value |
| VisualiserCanvas.Canvas.Tick | components/VisualiserCanvas.tsx:66-67 | the clock returns `FrameDelta(now, t0)` and moves `t0` to `now`; every other field keeps its value |
| VisualiserCanvas.Canvas.Frame | components/VisualiserCanvas.tsx:63-134 | after the cleanup a frame paints nothing and keeps the clock and the energy; otherwise it advances the clock, smooths the energy towards the target of the captured prop and paints `FrameRects` with the new energy; size, style, DNA and prop are kept |
| VisualiserCanvas.Canvas.RunningFrame | components/VisualiserCanvas.tsx:66-131 | a running frame sets `t0` to `now`, takes one smoothing step towards the captured prop's target and paints `FrameRects` with the new energy; size, style, DNA and prop are kept |
| VisualiserCanvas.MountWithoutProps | components/VisualiserCanvas.tsx:12-84 | mounted without props, the DNA is `Dna` of state 1 and the target is the clamped synthetic signal, at most 0.86 for `sin` in [-1, 1] |
| VisualiserCanvas.RemountContinuesStream | components/VisualiserCanvas.tsx:28-143 | re-running the effect after the `energy` prop changes, with the same memoised generator, gives a second DNA that continues the generator's stream instead of repeating the first |
| MicVisualiser.Analyser.FrequencyBinCount | components/MicVisualiser.tsx:23-24 | `frequencyBinCount` is half the FFT size, rounded down |
| MicVisualiser.IsPermissionError | components/MicVisualiser.tsx:70 | an error counts as a permission refusal exactly when its name is NotAllowedError or SecurityError |
| MicVisualiser.FailureOutcome | components/MicVisualiser.tsx:69-77 | NotAllowedError and SecurityError mean `denied` with the permission message; any other error means `error` with the generic message |
| MicVisualiser.Mic.constructor | components/MicVisualiser.tsx:9-17 | the session starts idle, with no message, no refs and no buffers |
| MicVisualiser.Mic.BeginStart | components/MicVisualiser.tsx:41-43 | starting clears the message and shows `starting` before anything is requested |
| MicVisualiser.Mic.CompleteStart | components/MicVisualiser.tsx:45-77 | on success the stream, the context and an analyser with FFT size 2048 and smoothing 0.75 are in place and the status is `running`; on failure only the refs of the earlier steps are set and the status and message follow the error name |
| MicVisualiser.Mic.StartMic | components/MicVisualiser.tsx:41-78 | `startMic` ends `running` with no message and the stream, context and analyser in place, or `denied`/`error` with its message, the analyser unchanged and only the refs of the steps reached set; started from a state other than running, the analyser is set exactly while running |
| MicVisualiser.Mic.BeginStop | components/MicVisualiser.tsx:80-82 | stopping drops the analyser before anything else |
| MicVisualiser.Mic.FinishStop | components/MicVisualiser.tsx:84-95 | the status is `idle` either way; the context and stream are dropped unless closing the context rejects, and then they are kept and the rejection is reported |
| MicVisualiser.Mic.StopMic | components/MicVisualiser.tsx:80-96 | `stopMic` always ends idle with no analyser and keeps the message; the refs are dropped unless closing rejects, in which case they are kept and the rejection reaches the caller |
| MicVisualiser.Mic.GetFrequencyData | components/MicVisualiser.tsx:19-28 | null if and only if there is no analyser; otherwise the buffer holds the analyser's `frequencyBinCount` bytes and is the same array when its length already matched, a fresh one otherwise; status, message, refs and the other buffer are unchanged |
| MicVisualiser.Mic.GetTimeDomainData | components/MicVisualiser.tsx:30-39 | the same rule with a buffer of `fftSize` bytes; status, message, refs and the other buffer are unchanged |
| MicVisualiser.Title | components/MicVisualiser.tsx:101-108 | the heading is "Enable Microphone" when idle, "Starting…" when starting, "Mic Permission Needed" when denied, and "Mic Error" otherwise |
| MicVisualiser.Subtitle | components/MicVisualiser.tsx:110-115 | fixed explanations when idle or starting; otherwise the stored message, or "Try again." without one |
| MicVisualiser.StopButtonShown | components/MicVisualiser.tsx:158 | the stop button is rendered exactly while running |
| MicVisualiser.OverlayFor | components/MicVisualiser.tsx:98-115 | the overlay is shown if and only if the microphone is not running |
| MicVisualiser.OverlayOrStopButton | components/MicVisualiser.tsx:156-166 | the stop button is shown if and only if the overlay is not, which is exactly while running |
| MicVisualiser.EnableButtonDisabledIffStarting | components/MicVisualiser.tsx:124-137 | the enable button is disabled, and reads "Starting…", exactly while starting; otherwise it reads "Enable Mic" |
| MicVisualiser.TitlesDistinct | components/MicVisualiser.tsx:101-108 | the four overlay states have four different titles |
| MicVisualiser.FailureSubtitle | components/MicVisualiser.tsx:110-115 | after a failure the subtitle is the stored message, or "Try again." when there is none |
| MicVisualiser.DeniedFlow | components/MicVisualiser.tsx:41-115 | a refused permission request shows "Mic Permission Needed" with the permission message and an enabled button, and the read-outs are null |
| MicVisualiser.StartReadStop | components/MicVisualiser.tsx:19-96 | while running the frequency read-out has 1024 bytes; after stopping it is null and the idle overlay is back with an enabled button |
| WmpShell.VolumeAt | components/WmpShell.tsx:21-23 | the volume lies in [0, 1]; it is 0 on a zero-width track and left of the track, 1 right of it, and otherwise the clamped offset as a fraction of the width |
| WmpShell.VolumeMonotone | components/WmpShell.tsx:22-23 | moving the pointer right never lowers the volume |
| WmpShell.VolumeAtInverse | components/WmpShell.tsx:22-23 | pressing at `left + v * width` selects exactly `v`, so every volume is reachable |
| WmpShell.AriaValueNow | components/WmpShell.tsx:134 | `Math.round(volume * 100)` is within one half of `volume * 100` and lies in [0, 100] for a volume in [0, 1] |
| WmpShell.AriaValueNowMonotone | components/WmpShell.tsx:134 | the announced value follows the volume, and the ends read 0 and 100 |
| WmpShell.Shell.constructor | components/WmpShell.tsx:9-15 | the shell starts at volume 0.55, not dragging, with no active control |
| WmpShell.Shell.SetVolumeFromClientX | components/WmpShell.tsx:17-25 | without a track the volume is unchanged; otherwise it is the volume the pointer selects, which keeps it in [0, 1] |
| WmpShell.Shell.PointerDown | components/WmpShell.tsx:27-31 | pressing starts dragging and jumps to the pressed position |
| WmpShell.Shell.PointerMove | components/WmpShell.tsx:33-36 | moving changes the volume only while dragging, and then to the selected position |
| WmpShell.Shell.PointerUp | components/WmpShell.tsx:38-45 | releasing or cancelling stops dragging and leaves the volume unchanged |
| WmpShell.Shell.Click | components/WmpShell.tsx:78-98 | clicking a transport button makes that control, and only it, the active one |
| WmpShell.DragThenRelease | components/WmpShell.tsx:27-45 | press, drag and release leave the volume at the dragged position; a move after the release changes nothing; the announced value is in [0, 100] |
| WmpShell.ClickSequence | components/WmpShell.tsx:78-98 | after two clicks only the second control is active, and the volume is untouched |

## Left out

- **Rendering.** The JSX layout, class names and styles are not modelled. This
  covers the seek bar, the "Now Playing" panel, the `ControlButton` styling and
  the volume fill and thumb positions (`volume * 100%`). Only the state these
  read is modelled.
- **Canvas calls.** Fill colours are reduced to the `Fill` tag of each
  recorded rectangle. `ctx.setTransform` is reduced to the `scale` field.
- **Browser time and layout.** These are not modelled:
  - `performance.now()`: the timestamp is a parameter;
  - `requestAnimationFrame` and `cancelAnimationFrame`: reduced to the
    `running` flag;
  - `ResizeObserver`: `Canvas.Resize` is the callback, and the caller decides
    when to call it;
  - the container's `clientWidth`/`clientHeight`: parameters of each frame.
- **Missing elements.** The early return when the canvas, the container or the
  2D context is missing is not modelled: `Canvas.Mount` assumes they exist.
- **Floating point.** Arithmetic is exact real arithmetic:
  - `Math.sin`, `Math.pow(0.001, dt)` and `window.devicePixelRatio` are
    parameters;
  - `Math.floor(h * 0.12)` is `h * 12 / 100`;
  - `Math.floor(barH * 0.25)` is `barH / 4`;
  - rounding, NaN and infinities are not modelled.
- Xorshift.InitialState: only integral seeds are modelled. A fractional, NaN
  or infinite `seed` is outside the model.
- VisualiserCanvas.TargetEnergy: an `energy` prop that is NaN is outside the
  model.
- **Microphone acquisition.** The `getUserMedia` constraints, the
  `webkitAudioContext` fallback and the media-stream source node are abstract:
  - a stage records how far acquisition got;
  - stopping the tracks is the `hasStream` flag becoming false.
- **Concurrency.** `startMic` and `stopMic` are split at their `await`s, but the
  model does not run them concurrently:
  - a second `startMic` while one is pending is not modelled, nor a `stopMic`
    during `startMic`;
  - React's batching of state updates is not modelled either.
- **Unused props.** The read-outs and the `mirror` flag that `MicVisualiser`
  passes to `VisualiserCanvas` are not among that component's props, and it
  never reads them. The model keeps the read-outs on `Mic` and never feeds
  them to the canvas.
- **Unhandled rejection.** When `close()` rejects, `stopMic` rejects after its
  `finally` block. The model reports this as the `rejected` result of
  `Mic.StopMic`. What the browser does with a rejection nobody handles is not
  modelled.
- **Pointer capture.** `setPointerCapture`, `releasePointerCapture` and the
  exception swallowed on release leave no state in the model.
- **Stale handler state.** The handlers read the `isDraggingVolume` of the
  render they belong to. The model applies events one after another, each
  seeing the previous event's state.
