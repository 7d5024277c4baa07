/** The scroll progress tracker: the raw progress `scrollY / (scrollHeight -
    innerHeight)` clamped into [0, 1], and the per-frame exponential
    smoothing of the current progress toward that target. */
module ScrollTracker {
  import opened ParticleMath

  /** `Math.max(0, Math.min(1, v))`. */
  function Clamp01(v: real): (r: real)
    ensures 0.0 <= r <= 1.0
    ensures 0.0 <= v <= 1.0 ==> r == v
    ensures v < 0.0 ==> r == 0.0
    ensures v > 1.0 ==> r == 1.0
  {
    Max(0.0, Min(1.0, v))
  }

  /** The progress a scroll offset stands for. The denominator is the
      scrollable distance of the page; a page that cannot scroll makes it
      zero, which the original divides by, so it is excluded here. */
  function ScrollProgress(scrollY: real, scrollHeight: real, innerHeight: real): (p: real)
    requires scrollHeight - innerHeight != 0.0
    ensures 0.0 <= p <= 1.0
    ensures scrollHeight > innerHeight && 0.0 <= scrollY <= scrollHeight - innerHeight ==>
              p == scrollY / (scrollHeight - innerHeight)
    ensures scrollHeight > innerHeight && scrollY <= 0.0 ==> p == 0.0
    ensures scrollHeight > innerHeight && scrollY >= scrollHeight - innerHeight ==> p == 1.0
  {
    var range := scrollHeight - innerHeight;
    RatioFacts(scrollY, range);
    Clamp01(scrollY / range)
  }

  lemma RatioFacts(scrollY: real, range: real)
    requires range != 0.0
    ensures range > 0.0 && 0.0 <= scrollY <= range ==> 0.0 <= scrollY / range <= 1.0
    ensures range > 0.0 && scrollY <= 0.0 ==> scrollY / range <= 0.0
    ensures range > 0.0 && scrollY >= range ==> scrollY / range >= 1.0
  {
    var q := scrollY / range;
    assert q * range == scrollY;
    if range > 0.0 {
      if q > 1.0 { assert scrollY - range == (q - 1.0) * range; MulPos(q - 1.0, range); }
      if q < 0.0 { assert -scrollY == (-q) * range; MulPos(-q, range); }
    }
  }

  /** `current += (target - current) * 0.1`: the target weighs 0.1 per frame. */
  function SmoothStep(current: real, target: real): (r: real)
    ensures r - target == 0.9 * (current - target)
    ensures current == target ==> r == current
    ensures 0.0 <= current <= 1.0 && 0.0 <= target <= 1.0 ==> 0.0 <= r <= 1.0
    ensures Min(current, target) <= r <= Max(current, target)
  {
    current + (target - current) * 0.1
  }

  /** The current progress after n frames with a fixed target. */
  function SmoothN(current: real, target: real, n: nat): real
    decreases n
  {
    if n == 0 then current else SmoothStep(SmoothN(current, target, n - 1), target)
  }

  /** 0.9 to the n-th power. */
  function Decay(n: nat): (d: real)
    ensures 0.0 < d <= 1.0
  {
    if n == 0 then 1.0 else 0.9 * Decay(n - 1)
  }

  /** The gap g shrunk by n frames, 0.9 at a time. */
  function Shrunk(g: real, n: nat): real
    decreases n
  {
    if n == 0 then g else 0.9 * Shrunk(g, n - 1)
  }

  /** After n frames the gap to the target is 0.9^n of the initial gap. */
  lemma SmoothNGap(current: real, target: real, n: nat)
    ensures SmoothN(current, target, n) - target == Decay(n) * (current - target)
  {
    SmoothNShrinks(current, target, n);
    ShrunkByDecay(current - target, n);
  }

  lemma {:induction false} SmoothNShrinks(current: real, target: real, n: nat)
    ensures SmoothN(current, target, n) - target == Shrunk(current - target, n)
    decreases n
  {
    if n > 0 {
      SmoothNShrinks(current, target, n - 1);
    }
  }

  lemma {:induction false} ShrunkByDecay(g: real, n: nat)
    ensures Shrunk(g, n) == Decay(n) * g
    decreases n
  {
    if n > 0 {
      ShrunkByDecay(g, n - 1);
      assert 0.9 * (Decay(n - 1) * g) == (0.9 * Decay(n - 1)) * g;
    }
  }

  /** Every frame keeps the current progress between its start and the
      target, so a progress in [0, 1] stays there. */
  lemma {:induction false} SmoothNBetween(current: real, target: real, n: nat)
    ensures Min(current, target) <= SmoothN(current, target, n) <= Max(current, target)
    decreases n
  {
    if n > 0 {
      SmoothNBetween(current, target, n - 1);
    }
  }
}
