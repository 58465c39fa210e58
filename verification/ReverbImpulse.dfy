/** What the reverb does to a single hit, and what quantising does to single samples, in plain
    numbers (scripts/gen-notification-sounds.py). */
module ReverbImpulse {
  import opened Reverb
  import opened ReverbLaws

  /** A unit hit into the room. */
  function Hit(room: real, damp: real): Params { Params([1.0], 0, room, damp) }

  /** The store holds nothing before the comb first sounds. */
  lemma {:induction false} StoreSilent(p: Params, len: nat, n: nat)
    requires len > 0 && n < p.delay + len
    ensures CombStore(p, len, n) == 0.0
    decreases n
  {
    CombSilent(p, len, n);
    if n > 0 { StoreSilent(p, len, n - 1); }
  }

  /** A comb gives the hit back after its length, keeps 1 - damp of it in its store, lets that
      fade by damp a sample, and a length later gives back what the store kept, times room. */
  lemma CombEcho(room: real, damp: real, len: nat)
    requires len > 1
    ensures CombOut(Hit(room, damp), len, len) == 1.0
    ensures CombStore(Hit(room, damp), len, len) == 1.0 - damp
    ensures CombStore(Hit(room, damp), len, len + 1) == (1.0 - damp) * damp
    ensures CombOut(Hit(room, damp), len, 2 * len) == (1.0 - damp) * room
  {
    var p := Hit(room, damp);
    StoreSilent(p, len, 0);
    StoreSilent(p, len, 1);
    StoreSilent(p, len, len - 1);
    assert CombWrite(p, len, 0) == Fed(1.0, 0.0, room) == 1.0;
    assert CombWrite(p, len, 1) == Fed(0.0, 0.0, room) == 0.0;
    assert CombOut(p, len, len) == CombWrite(p, len, 0);
    assert CombOut(p, len, len + 1) == CombWrite(p, len, 1);
    assert CombStore(p, len, len) == Damped(1.0, 0.0, damp);
    assert CombStore(p, len, len + 1) == Damped(0.0, 1.0 - damp, damp);
    assert CombWrite(p, len, len) == Fed(0.0, 1.0 - damp, room);
    assert CombOut(p, len, 2 * len) == CombWrite(p, len, len);
  }

  /** The sounds' own room on a hit: three quarters of it in the store, 0.69 of it again. */
  lemma DefaultEcho()
    ensures CombStore(Hit(0.92, 0.25), 1116, 1116) == 0.75
    ensures CombOut(Hit(0.92, 0.25), 1116, 2232) == 0.69
  {
    CombEcho(0.92, 0.25, 1116);
  }

  /** The first unit sample to reach an all-pass comes out turned over at once, whole after its
      length, and halved after twice that, each time less what comes in by then. */
  lemma AllpassEcho(p: Params, spread: nat, a: nat, n: nat)
    requires a < |ALLPASS_LENGTHS| && (forall m: nat :: m < n ==> Stage(p, spread, a, m) == 0.0) && Stage(p, spread, a, n) == 1.0
    ensures var len := ALLPASS_LENGTHS[a] + spread;
            && Stage(p, spread, a + 1, n) == -1.0
            && Stage(p, spread, a + 1, n + len) == 1.0 - Stage(p, spread, a, n + len)
            && Stage(p, spread, a + 1, n + 2 * len) == Stage(p, spread, a, n + len) + 0.5 - Stage(p, spread, a, n + 2 * len)
  {
    var len := ALLPASS_LENGTHS[a] + spread;
    QuietBefore(p, spread, a, n);
    assert AllpassWrite(p, spread, a, n) == 1.0;
    assert AllpassOut(p, spread, a, n + len) == 1.0;
    assert AllpassWrite(p, spread, a, n + len) == Stage(p, spread, a, n + len) + 0.5;
    assert AllpassOut(p, spread, a, n + 2 * len) == AllpassWrite(p, spread, a, n + len);
  }

  lemma {:induction false} QuietBefore(p: Params, spread: nat, a: nat, n: nat)
    requires a < |ALLPASS_LENGTHS| && forall m: nat :: m < n ==> Stage(p, spread, a, m) == 0.0
    ensures AllpassOut(p, spread, a, n) == 0.0
    decreases n
  {
    var len := ALLPASS_LENGTHS[a] + spread;
    if n >= len {
      QuietBefore(p, spread, a, n - len);
      assert AllpassWrite(p, spread, a, n - len) == 0.0;
    }
  }

  /** The first thing heard is the first sample itself: after the predelay and the shortest
      comb, turned over four times. */
  lemma FirstSound(p: Params, spread: nat)
    requires p.dry != []
    ensures Wet(p, spread, p.delay + 1116 + spread) == p.dry[0]
  {
    var n := p.delay + 1116 + spread;
    FirstCombSound(p, spread, 8);
    FirstStageSound(p, spread, 4);
  }

  lemma {:induction false} FirstCombSound(p: Params, spread: nat, c: nat)
    requires p.dry != [] && 0 < c <= |COMB_LENGTHS|
    ensures CombSum(p, spread, c, p.delay + 1116 + spread) == p.dry[0]
  {
    var n := p.delay + 1116 + spread;
    if c == 1 {
      StoreSilent(p, 1116 + spread, p.delay);
      assert CombWrite(p, 1116 + spread, p.delay) == Fed(p.dry[0], 0.0, p.room);
      assert CombSum(p, spread, 0, n) == 0.0;
    } else {
      FirstCombSound(p, spread, c - 1);
      CombSilent(p, COMB_LENGTHS[c - 1] + spread, n);
    }
  }

  lemma {:induction false} FirstStageSound(p: Params, spread: nat, a: nat)
    requires p.dry != [] && a <= |ALLPASS_LENGTHS|
    ensures Stage(p, spread, a, p.delay + 1116 + spread) == if a % 2 == 0 then p.dry[0] else -p.dry[0]
  {
    var n := p.delay + 1116 + spread;
    if a == 0 {
      FirstCombSound(p, spread, 8);
    } else {
      var b := a - 1;
      FirstStageSound(p, spread, b);
      forall m: nat | m < n ensures Stage(p, spread, b, m) == 0.0 {
        StageSilent(p, spread, b, m);
      }
      QuietBefore(p, spread, b, n);
    }
  }

  // ---- quantising

  /** Full scale, half scale and silence; past full scale a sample is cut. */
  lemma SamplesInNumbers()
    ensures Sample(1.0, 1.0) == 32_767 && Sample(-1.0, 1.0) == -32_767 && Sample(0.0, 1.0) == 0
    ensures Sample(0.5, 1.0) == 16_383 && Sample(-0.5, 1.0) == -16_383 && Sample(1.0, 0.5) == 16_383
    ensures Sample(3.0, 1.0) == 32_767 && Sample(-3.0, 1.0) == -32_767
  {
  }

  /** The gain is 1 until the last `fade` frames, and from there falls in equal steps to one
      step above silence at the last frame. */
  lemma GainFades(index: nat, frames: nat, fade: nat)
    requires index < frames
    ensures frames - index >= fade ==> Gain(index, frames, fade) == 1.0
    ensures frames - index < fade ==> Gain(index, frames, fade) * fade as real == (frames - index) as real
    ensures index + 1 < frames ==> Gain(index + 1, frames, fade) <= Gain(index, frames, fade)
  {
    if frames - index < fade {
      RatioTimes((frames - index) as real, fade as real);
      if index + 1 < frames { RatioOrder((frames - index - 1) as real, (frames - index) as real, fade as real); }
    } else if index + 1 < frames {
      GainWithin(index + 1, frames, fade);
    }
  }

  lemma RatioTimes(part: real, whole: real)
    requires whole > 0.0
    ensures part / whole * whole == part
  {
  }

  lemma RatioOrder(a: real, b: real, whole: real)
    requires a <= b && whole > 0.0
    ensures a / whole <= b / whole
  {
    var x, y := a / whole, b / whole;
    RatioTimes(a, whole);
    RatioTimes(b, whole);
    assert x > y ==> x * whole > y * whole;
  }
}
