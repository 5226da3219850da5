/** JavaScript's conversions between numbers and 32-bit patterns. */
module Int32 {

  /** JavaScript's ToInt32 (the `| 0` of `seed | 0`) on an integral number. */
  function ToInt32(n: int): (r: int)
    ensures -0x8000_0000 <= r < 0x8000_0000
    ensures (r - n) % 0x1_0000_0000 == 0
    ensures -0x8000_0000 <= n < 0x8000_0000 ==> r == n
  {
    var m := n % 0x1_0000_0000;
    if m < 0x8000_0000 then m else m - 0x1_0000_0000
  }

  /** Appending a bit to a pattern below 2^30 doubles its value and adds the bit. */
  lemma ShiftInBit(h: bv32)
    requires h as int < 0x4000_0000
    ensures (h << 1) as int == 2 * h as int
    ensures ((h << 1) | 1) as int == 2 * h as int + 1
  {
    assert h < 0x4000_0000;
  }

  /** The 32-bit pattern of a non-negative 31-bit number, built bit by bit. */
  function Bits(v: nat): (x: bv32)
    requires v < 0x8000_0000
    ensures x as int == v
  {
    if v == 0 then 0
    else
      var h := Bits(v / 2);
      ShiftInBit(h);
      if v % 2 == 1 then (h << 1) | 1 else h << 1
  }
}

/** The seeded pseudo-random generator of the synthetic bar visualiser and the
    per-bar "DNA" profile it produces (components/VisualiserCanvas.tsx).

    JavaScript evaluates `s << 13`, `s >> 17` and `s ^ t` on the 32-bit two's
    complement pattern of `s`, so the generator state is modelled as a `bv32`.
    The middle step uses JavaScript's sign-propagating `>>`, not the logical
    `>>>` of the textbook xorshift32; `Sar17` models it. */
module Xorshift {
  import opened Int32

  /** A state the generator can be in once it has been seeded: neither zero nor
      the one other state that the sign-propagating shift sends to zero. */
  predicate Live(s: bv32) {
    s != 0 && s != 0xFC00_1FFF
  }

  /** The state `Math.max(1, seed | 0)` as a 32-bit pattern. */
  function InitialState(seed: int): (s: bv32)
    ensures s as int == if ToInt32(seed) < 1 then 1 else ToInt32(seed)
    ensures 1 <= s as int < 0x8000_0000
    ensures 1 <= seed < 0x8000_0000 ==> s as int == seed
    ensures Live(s)
  {
    var v := ToInt32(seed);
    Bits(if v < 1 then 1 else v)
  }

  /** JavaScript's `x >> 17`: a right shift that copies the sign bit into the
      seventeen vacated top bits. */
  function Sar17(x: bv32): (r: bv32)
    ensures (r << 17) | (x & 0x1_FFFF) == x
    ensures r & 0xFFFF_8000 == if x & 0x8000_0000 == 0 then 0 else 0xFFFF_8000
  {
    if x & 0x8000_0000 == 0 then x >> 17 else (x >> 17) | 0xFFFF_8000
  }

  /** The first assignment, `s ^= s << 13`; the low 13 bits pass through. */
  function XorShl13(s: bv32): (r: bv32)
    ensures r & 0x1FFF == s & 0x1FFF
  {
    s ^ (s << 13)
  }

  /** The second assignment, `s ^= s >> 17`, with the sign-propagating shift. */
  function XorSar17(s: bv32): (r: bv32)
    ensures r & 0x8000_0000 == 0
  {
    s ^ Sar17(s)
  }

  /** The third assignment, `s ^= s << 5`; the low 5 bits pass through. */
  function XorShl5(s: bv32): (r: bv32)
    ensures r & 0x1F == s & 0x1F
  {
    s ^ (s << 5)
  }

  /** One call's three xor-assignments, as a function of the state. Zero is
      a fixed point, as for every xorshift generator. */
  function Step(s: bv32): (r: bv32)
    ensures s == 0 ==> r == 0
  {
    XorShl5(XorSar17(XorShl13(s)))
  }

  /** The draw `(s >>> 0) % 1000` read off the new state; the caller sees `k / 1000`. */
  function Draw(s: bv32): (k: nat)
    ensures k < 1000
  {
    (s as int) % 1000
  }

  /** The value `rand()` returns for draw `k`. */
  function Value(k: nat): (v: real)
    requires k < 1000
    ensures 0.0 <= v < 1.0
    ensures v * 1000.0 == k as real
  {
    k as real / 1000.0
  }

  /** The state after `n` calls: no calls leave it alone, one call is one step. */
  function Advance(s: bv32, n: nat): (r: bv32)
    ensures n == 0 ==> r == s
    ensures n == 1 ==> r == Step(s)
    decreases n
  {
    if n == 0 then s else Advance(Step(s), n - 1)
  }

  /** The draws of the next `n` calls from state `s`. */
  function Draws(s: bv32, n: nat): (ks: seq<nat>)
    ensures |ks| == n
    ensures forall i :: 0 <= i < n ==> ks[i] < 1000
    decreases n
  {
    if n == 0 then [] else [Draw(Step(s))] + Draws(Step(s), n - 1)
  }

  /** One DNA entry, `0.25 + rand() * 0.75`. */
  function Gene(k: nat): (g: real)
    requires k < 1000
    ensures 0.25 <= g < 1.0
  {
    0.25 + Value(k) * 0.75
  }

  /** The DNA that `n` calls build from state `s`. */
  function Dna(s: bv32, n: nat): (base: seq<real>)
    ensures |base| == n
    ensures forall i :: 0 <= i < n ==> 0.25 <= base[i] < 1.0
    decreases n
  {
    if n == 0 then [] else [Gene(Draw(Step(s)))] + Dna(Step(s), n - 1)
  }

  /** Every step keeps a live state live: only 0 and 0xFC001FFF step to 0, and no
      state steps to 0xFC001FFF, because the middle step always clears the top bit. */
  lemma StepKeepsLive(s: bv32)
    requires Live(s)
    ensures Live(Step(s))
  {
  }

  /** The sign-propagating shift makes a step non-injective: 0xFC001FFF and 0 both
      step to 0, and 0 stays 0. */
  lemma StepNotInjective()
    ensures Step(0xFC00_1FFF) == Step(0) == 0
  {
  }

  /** From every seed, no number of calls brings the state to zero. */
  lemma {:induction false} AdvanceLive(s: bv32, n: nat)
    requires Live(s)
    ensures Live(Advance(s, n)) && Advance(s, n) != 0
    decreases n
  {
    if n > 0 {
      StepKeepsLive(s);
      AdvanceLive(Step(s), n - 1);
    }
  }

  /** Calls compose: `m` calls followed by `n` calls are `m + n` calls. */
  lemma {:induction false} AdvanceAdd(s: bv32, m: nat, n: nat)
    ensures Advance(Advance(s, m), n) == Advance(s, m + n)
    decreases m
  {
    if m > 0 {
      AdvanceAdd(Step(s), m - 1, n);
    }
  }

  /** The DNA is the draws, each mapped through `Gene`. */
  lemma {:induction false} DnaOfDraws(s: bv32, n: nat, i: nat)
    requires i < n
    ensures Dna(s, n)[i] == Gene(Draws(s, n)[i])
    decreases i
  {
    if i > 0 {
      DnaOfDraws(Step(s), n - 1, i - 1);
    }
  }

  /** Building `m + n` entries is building `m`, then `n` more from where the
      generator stopped: a second DNA from the same generator continues the
      stream rather than repeating it. */
  lemma {:induction false} DnaSplit(s: bv32, m: nat, n: nat)
    ensures Dna(s, m + n) == Dna(s, m) + Dna(Advance(s, m), n)
    decreases m
  {
    if m > 0 {
      DnaSplit(Step(s), m - 1, n);
      assert Dna(s, m + n) == [Gene(Draw(Step(s)))] + Dna(Step(s), m - 1 + n);
    }
  }

  /** The memoised closure: its only state is `s`, seeded once per seed. */
  class Rand {
    var s: bv32

    constructor (seed: int)
      ensures s == InitialState(seed)
    {
      s := InitialState(seed);
    }

    /** One call of the closure: three xor-assignments to `s`, then the draw. */
    method Next() returns (k: nat)
      modifies this
      ensures s == Step(old(s))
      ensures k == Draw(s) && k < 1000
    {
      s := XorShl13(s);
      s := XorSar17(s);
      s := XorShl5(s);
      k := (s as int) % 1000;
    }
  }

  /** The first draw of a run, and the run after it. */
  lemma DrawsHead(s: bv32, n: nat)
    requires n > 0
    ensures Draws(s, n) == [Draw(Step(s))] + Draws(Step(s), n - 1)
  {
  }

  /** The first gene of a strand, and the strand after it. */
  lemma DnaHead(s: bv32, n: nat)
    requires n > 0
    ensures Dna(s, n) == [Gene(Draw(Step(s)))] + Dna(Step(s), n - 1)
  {
  }

  /** Moving the head of the rest onto the end of the part already built. */
  lemma MoveHead<T>(done: seq<T>, x: T, rest: seq<T>)
    ensures done + ([x] + rest) == (done + [x]) + rest
  {
  }

  /** `n` successive calls of the closure. */
  method DrawMany(g: Rand, n: nat) returns (ks: seq<nat>)
    modifies g
    ensures ks == Draws(old(g.s), n)
    ensures g.s == Advance(old(g.s), n)
  {
    ghost var s0 := g.s;
    ks := [];
    var i := 0;
    while i < n
      invariant 0 <= i <= n
      invariant g.s == Advance(s0, i)
      invariant ks + Draws(g.s, n - i) == Draws(s0, n)
    {
      ghost var prev := g.s;
      var k := g.Next();
      DrawsHead(prev, n - i);
      MoveHead(ks, k, Draws(g.s, n - i - 1));
      AdvanceAdd(s0, i, 1);
      ks := ks + [k];
      i := i + 1;
    }
  }

  /** `Array.from({ length: n }, () => 0.25 + rand() * 0.75)`. */
  method BuildBase(g: Rand, n: nat) returns (base: seq<real>)
    modifies g
    ensures base == Dna(old(g.s), n)
    ensures g.s == Advance(old(g.s), n)
  {
    ghost var s0 := g.s;
    base := [];
    var i := 0;
    while i < n
      invariant 0 <= i <= n
      invariant g.s == Advance(s0, i)
      invariant base + Dna(g.s, n - i) == Dna(s0, n)
    {
      ghost var prev := g.s;
      var k := g.Next();
      var gene := Gene(k);
      DnaHead(prev, n - i);
      MoveHead(base, gene, Dna(g.s, n - i - 1));
      AdvanceAdd(s0, i, 1);
      base := base + [gene];
      i := i + 1;
    }
  }

  /** Two generators constructed with the same seed give the same draws. */
  method SameSeedSameDraws(seed: int, n: nat) returns (xs: seq<nat>, ys: seq<nat>)
    ensures xs == ys == Draws(InitialState(seed), n)
    ensures forall i :: 0 <= i < n ==> xs[i] < 1000
  {
    var g1 := new Rand(seed);
    var g2 := new Rand(seed);
    xs := DrawMany(g1, n);
    ys := DrawMany(g2, n);
  }

  /** Two generators constructed with the same seed give the same DNA, every
      entry in [0.25, 1). */
  method SameSeedSameDna(seed: int, n: nat) returns (b1: seq<real>, b2: seq<real>)
    ensures b1 == b2 == Dna(InitialState(seed), n)
    ensures forall i :: 0 <= i < n ==> 0.25 <= b1[i] < 1.0
  {
    var g1 := new Rand(seed);
    var g2 := new Rand(seed);
    b1 := BuildBase(g1, n);
    b2 := BuildBase(g2, n);
  }
}
