/** What the reverb's difference equations promise: silence before the first reflection, a
    bounded answer to a bounded input, and linearity
    (scripts/gen-notification-sounds.py). */
module ReverbLaws {
  import opened Reverb

  // ---- silence before the first reflection

  lemma {:induction false} CombSilent(p: Params, len: nat, n: nat)
    requires len > 0
    ensures n < p.delay + len ==> CombOut(p, len, n) == 0.0
    ensures n < p.delay ==> CombStore(p, len, n) == 0.0 && CombWrite(p, len, n) == 0.0
    decreases n
  {
    if n >= len { CombSilent(p, len, n - len); }
    if n > 0 { CombSilent(p, len, n - 1); }
  }

  lemma {:induction false} CombSumSilent(p: Params, spread: nat, c: nat, n: nat)
    requires c <= |COMB_LENGTHS| && n < p.delay + 1116 + spread
    ensures CombSum(p, spread, c, n) == 0.0
  {
    if c > 0 {
      CombSumSilent(p, spread, c - 1, n);
      assert COMB_LENGTHS[c - 1] >= 1116;
      CombSilent(p, COMB_LENGTHS[c - 1] + spread, n);
    }
  }

  lemma {:induction false} StageSilent(p: Params, spread: nat, a: nat, n: nat)
    requires a <= |ALLPASS_LENGTHS| && n < p.delay + 1116 + spread
    ensures Stage(p, spread, a, n) == 0.0
    decreases 2 * a, n
  {
    if a == 0 {
      CombSumSilent(p, spread, |COMB_LENGTHS|, n);
    } else {
      AllpassSilent(p, spread, a - 1, n);
      StageSilent(p, spread, a - 1, n);
    }
  }

  lemma {:induction false} AllpassSilent(p: Params, spread: nat, a: nat, n: nat)
    requires a < |ALLPASS_LENGTHS| && n < p.delay + 1116 + spread
    ensures AllpassOut(p, spread, a, n) == 0.0
    decreases 2 * a + 1, n
  {
    var len := ALLPASS_LENGTHS[a] + spread;
    if n >= len {
      StageSilent(p, spread, a, n - len);
      AllpassSilent(p, spread, a, n - len);
    }
  }

  /** The room says nothing before the predelay and the shortest comb have passed. */
  lemma WetStartsSilent(p: Params, spread: nat, n: nat)
    requires n < p.delay + 1116 + spread
    ensures Wet(p, spread, n) == 0.0
  {
    StageSilent(p, spread, |ALLPASS_LENGTHS|, n);
  }

  // ---- bounded input, bounded output

  ghost predicate Within(x: real, bound: real) { -bound <= x <= bound }

  ghost predicate BoundedInput(p: Params, m: real) {
    && 0.0 <= p.damp <= 1.0 && 0.0 <= p.room < 1.0 && m >= 0.0
    && forall i :: 0 <= i < |p.dry| ==> Within(p.dry[i], m)
  }

  lemma ScaledWithin(x: real, bound: real, k: real)
    requires Within(x, bound) && k >= 0.0
    ensures Within(x * k, bound * k)
  {
    assert (bound - x) * k >= 0.0 && (bound + x) * k >= 0.0;
  }

  function Before(p: Params, len: nat, n: nat): real
    requires len > 0
  {
    if n == 0 then 0.0 else CombStore(p, len, n - 1)
  }

  lemma CombStoreIs(p: Params, len: nat, n: nat)
    requires len > 0
    ensures CombStore(p, len, n) == Damped(CombOut(p, len, n), Before(p, len, n), p.damp)
  {
  }

  /** A level the comb's loop cannot leave once inside: the input plus its own feedback. */
  ghost predicate LoopLevel(p: Params, m: real, b: real) {
    0.0 <= m <= b && m + b * p.room == b
  }

  lemma LoopLevelExists(p: Params, m: real)
    requires BoundedInput(p, m)
    ensures LoopLevel(p, m, m / (1.0 - p.room))
  {
    var d := 1.0 - p.room;
    var b := m / d;
    assert b * d == m;
    assert b < 0.0 ==> b * d < 0.0;
    assert b * (1.0 - p.room) == b - b * p.room;
    assert b * p.room >= 0.0;
  }

  lemma SumWithin(x: real, y: real, b: real, c: real)
    requires Within(x, b) && Within(y, c)
    ensures Within(x + y, b + c)
  {
  }

  lemma DampedWithin(y: real, store: real, b: real, damp: real)
    requires Within(y, b) && Within(store, b) && 0.0 <= damp <= 1.0
    ensures Within(Damped(y, store, damp), b)
  {
    var keep := 1.0 - damp;
    ScaledWithin(y, b, keep);
    ScaledWithin(store, b, damp);
    SumWithin(y * keep, store * damp, b * keep, b * damp);
    Distribute(b, keep, damp);
  }

  lemma FedWithin(x: real, store: real, room: real, m: real, b: real)
    requires Within(x, m) && Within(store, b) && 0.0 <= room && m + b * room == b
    ensures Within(Fed(x, store, room), b)
  {
    ScaledWithin(store, b, room);
    var fedBack, level := store * room, b * room;
    SumWithin(x, fedBack, m, level);
  }

  lemma InputWithin(p: Params, m: real, n: nat)
    requires BoundedInput(p, m)
    ensures Within(X(p, n), m)
  {
  }

  lemma CombStoreBounded(p: Params, b: real, len: nat, n: nat)
    requires len > 0 && 0.0 <= p.damp <= 1.0
    requires Within(CombOut(p, len, n), b) && Within(Before(p, len, n), b)
    ensures Within(CombStore(p, len, n), b)
  {
    CombStoreIs(p, len, n);
    DampedWithin(CombOut(p, len, n), Before(p, len, n), b, p.damp);
  }

  lemma CombWriteBounded(p: Params, m: real, b: real, len: nat, n: nat)
    requires len > 0 && 0.0 <= p.room && m + b * p.room == b
    requires Within(X(p, n), m) && Within(CombStore(p, len, n), b)
    ensures Within(CombWrite(p, len, n), b)
  {
    FedWithin(X(p, n), CombStore(p, len, n), p.room, m, b);
  }

  lemma {:induction false} CombBounded(p: Params, m: real, b: real, len: nat, n: nat)
    requires len > 0 && BoundedInput(p, m) && LoopLevel(p, m, b)
    ensures Within(CombOut(p, len, n), b)
    ensures Within(CombStore(p, len, n), b)
    ensures Within(CombWrite(p, len, n), b)
    decreases n
  {
    if n >= len { CombBounded(p, m, b, len, n - len); }
    if n > 0 { CombBounded(p, m, b, len, n - 1); }
    InputWithin(p, m, n);
    CombStoreBounded(p, b, len, n);
    CombWriteBounded(p, m, b, len, n);
  }

  /** The bound on a sum of c signals, each within b. */
  function Times(c: nat, b: real): real { if c == 0 then 0.0 else Times(c - 1, b) + b }

  lemma TimesEight(b: real)
    ensures Times(8, b) == 8.0 * b
  {
    assert Times(1, b) == b;
    assert Times(2, b) == 2.0 * b;
    assert Times(3, b) == 3.0 * b;
    assert Times(4, b) == 4.0 * b;
    assert Times(5, b) == 5.0 * b;
    assert Times(6, b) == 6.0 * b;
    assert Times(7, b) == 7.0 * b;
  }

  lemma {:induction false} CombSumBounded(p: Params, m: real, b: real, spread: nat, c: nat, n: nat)
    requires c <= |COMB_LENGTHS| && BoundedInput(p, m) && LoopLevel(p, m, b)
    ensures Within(CombSum(p, spread, c, n), Times(c, b))
  {
    if c > 0 {
      var len := COMB_LENGTHS[c - 1] + spread;
      CombSumBounded(p, m, b, spread, c - 1, n);
      CombBounded(p, m, b, len, n);
      SumWithin(CombSum(p, spread, c - 1, n), CombOut(p, len, n), Times(c - 1, b), b);
    }
  }

  /** The bound after a all-passes on a signal within k: each at most triples it. */
  function Tripled(a: nat, k: real): real { if a == 0 then k else 3.0 * Tripled(a - 1, k) }

  lemma TripledFour(k: real)
    ensures Tripled(4, k) == 81.0 * k
  {
    assert Tripled(1, k) == 3.0 * k;
    assert Tripled(2, k) == 9.0 * k;
    assert Tripled(3, k) == 27.0 * k;
  }

  lemma {:induction false} StageBounded(p: Params, m: real, b: real, spread: nat, a: nat, n: nat)
    requires a <= |ALLPASS_LENGTHS| && BoundedInput(p, m) && LoopLevel(p, m, b)
    ensures Within(Stage(p, spread, a, n), Tripled(a, 8.0 * b))
    decreases 2 * a, n
  {
    if a == 0 {
      CombSumBounded(p, m, b, spread, |COMB_LENGTHS|, n);
      TimesEight(b);
    } else {
      StageBounded(p, m, b, spread, a - 1, n);
      AllpassBounded(p, m, b, spread, a - 1, n);
    }
  }

  lemma {:induction false} AllpassBounded(p: Params, m: real, b: real, spread: nat, a: nat, n: nat)
    requires a < |ALLPASS_LENGTHS| && BoundedInput(p, m) && LoopLevel(p, m, b)
    ensures Within(AllpassOut(p, spread, a, n), 2.0 * Tripled(a, 8.0 * b))
    ensures Within(AllpassWrite(p, spread, a, n), 2.0 * Tripled(a, 8.0 * b))
    decreases 2 * a + 1, n
  {
    var len := ALLPASS_LENGTHS[a] + spread;
    StageBounded(p, m, b, spread, a, n);
    if n >= len { AllpassBounded(p, m, b, spread, a, n - len); }
    assert Within(AllpassOut(p, spread, a, n), 2.0 * Tripled(a, 8.0 * b));
  }

  /** Every cell and store of a comb stays within m / (1 - room), an all-pass at most triples
      its input's bound, and the room's output stays within 8 * 81 times the comb's. */
  lemma WetBounded(p: Params, m: real, spread: nat, n: nat)
    requires BoundedInput(p, m)
    ensures forall c :: 0 <= c < |COMB_LENGTHS| ==>
              && Within(CombStore(p, COMB_LENGTHS[c] + spread, n), m / (1.0 - p.room))
              && Within(CombWrite(p, COMB_LENGTHS[c] + spread, n), m / (1.0 - p.room))
    ensures Within(Wet(p, spread, n), 8.0 * 81.0 * (m / (1.0 - p.room)))
  {
    var b := m / (1.0 - p.room);
    LoopLevelExists(p, m);
    forall c | 0 <= c < |COMB_LENGTHS|
      ensures Within(CombStore(p, COMB_LENGTHS[c] + spread, n), b) && Within(CombWrite(p, COMB_LENGTHS[c] + spread, n), b)
    {
      CombBounded(p, m, b, COMB_LENGTHS[c] + spread, n);
    }
    StageBounded(p, m, b, spread, 4, n);
    TripledFour(8.0 * b);
  }

  // ---- linearity

  function Mix(a: real, x: real, b: real, y: real): real { a * x + b * y }

  /** r's input is the mix of p's and q's, in the same room. */
  ghost predicate IsMix(r: Params, a: real, p: Params, b: real, q: Params) {
    && |r.dry| == |p.dry| == |q.dry| && r.delay == p.delay == q.delay
    && r.room == p.room == q.room && r.damp == p.damp == q.damp
    && forall i :: 0 <= i < |r.dry| ==> r.dry[i] == Mix(a, p.dry[i], b, q.dry[i])
  }

  lemma Distribute(a: real, x: real, y: real)
    ensures a * (x + y) == a * x + a * y
    ensures a * (x - y) == a * x - a * y
  {
  }

  lemma MixAdds(a: real, x: real, x': real, b: real, y: real, y': real)
    ensures Mix(a, x, b, y) + Mix(a, x', b, y') == Mix(a, x + x', b, y + y')
    ensures Mix(a, x, b, y) - Mix(a, x', b, y') == Mix(a, x - x', b, y - y')
  {
    Distribute(a, x, x');
    Distribute(b, y, y');
  }

  lemma Regroup(a: real, x: real, k: real)
    ensures (a * x) * k == a * (x * k)
  {
  }

  lemma MixScales(a: real, x: real, b: real, y: real, k: real)
    ensures Mix(a, x, b, y) * k == Mix(a, x * k, b, y * k)
  {
    Regroup(a, x, k);
    Regroup(b, y, k);
    var u, v := a * x, b * y;
    assert (u + v) * k == u * k + v * k;
  }

  lemma DampedMixes(a: real, yp: real, sp: real, b: real, yq: real, sq: real, damp: real)
    ensures Damped(Mix(a, yp, b, yq), Mix(a, sp, b, sq), damp) == Mix(a, Damped(yp, sp, damp), b, Damped(yq, sq, damp))
  {
    MixScales(a, yp, b, yq, 1.0 - damp);
    MixScales(a, sp, b, sq, damp);
    MixAdds(a, yp * (1.0 - damp), sp * damp, b, yq * (1.0 - damp), sq * damp);
  }

  lemma FedMixes(a: real, xp: real, sp: real, b: real, xq: real, sq: real, room: real)
    ensures Fed(Mix(a, xp, b, xq), Mix(a, sp, b, sq), room) == Mix(a, Fed(xp, sp, room), b, Fed(xq, sq, room))
  {
    MixScales(a, sp, b, sq, room);
    MixAdds(a, xp, sp * room, b, xq, sq * room);
  }

  lemma {:induction false} CombLinear(r: Params, a: real, p: Params, b: real, q: Params, len: nat, n: nat)
    requires len > 0 && IsMix(r, a, p, b, q)
    ensures CombOut(r, len, n) == Mix(a, CombOut(p, len, n), b, CombOut(q, len, n))
    ensures CombStore(r, len, n) == Mix(a, CombStore(p, len, n), b, CombStore(q, len, n))
    ensures CombWrite(r, len, n) == Mix(a, CombWrite(p, len, n), b, CombWrite(q, len, n))
    decreases n
  {
    if n >= len { CombLinear(r, a, p, b, q, len, n - len); } else { MixZero(a, b); }
    if n > 0 { CombLinear(r, a, p, b, q, len, n - 1); } else { MixZero(a, b); }
    CombStoreIs(p, len, n);
    CombStoreIs(q, len, n);
    CombStoreIs(r, len, n);
    DampedMixes(a, CombOut(p, len, n), Before(p, len, n), b, CombOut(q, len, n), Before(q, len, n), r.damp);
    FedMixes(a, X(p, n), CombStore(p, len, n), b, X(q, n), CombStore(q, len, n), r.room);
    InputMixes(r, a, p, b, q, n);
  }

  lemma MixZero(a: real, b: real)
    ensures Mix(a, 0.0, b, 0.0) == 0.0
  {
  }

  lemma InputMixes(r: Params, a: real, p: Params, b: real, q: Params, n: nat)
    requires IsMix(r, a, p, b, q)
    ensures X(r, n) == Mix(a, X(p, n), b, X(q, n))
  {
    MixZero(a, b);
  }

  lemma {:induction false} CombSumLinear(r: Params, a: real, p: Params, b: real, q: Params, spread: nat, c: nat, n: nat)
    requires c <= |COMB_LENGTHS| && IsMix(r, a, p, b, q)
    ensures CombSum(r, spread, c, n) == Mix(a, CombSum(p, spread, c, n), b, CombSum(q, spread, c, n))
  {
    if c > 0 {
      var len := COMB_LENGTHS[c - 1] + spread;
      CombSumLinear(r, a, p, b, q, spread, c - 1, n);
      CombLinear(r, a, p, b, q, len, n);
      MixAdds(a, CombSum(p, spread, c - 1, n), CombOut(p, len, n), b, CombSum(q, spread, c - 1, n), CombOut(q, len, n));
    }
  }

  lemma {:induction false} StageLinear(r: Params, a: real, p: Params, b: real, q: Params, spread: nat, i: nat, n: nat)
    requires i <= |ALLPASS_LENGTHS| && IsMix(r, a, p, b, q)
    ensures Stage(r, spread, i, n) == Mix(a, Stage(p, spread, i, n), b, Stage(q, spread, i, n))
    decreases 2 * i, n
  {
    if i == 0 {
      CombSumLinear(r, a, p, b, q, spread, |COMB_LENGTHS|, n);
    } else {
      StageLinear(r, a, p, b, q, spread, i - 1, n);
      AllpassLinear(r, a, p, b, q, spread, i - 1, n);
      MixAdds(a, AllpassOut(p, spread, i - 1, n), Stage(p, spread, i - 1, n),
              b, AllpassOut(q, spread, i - 1, n), Stage(q, spread, i - 1, n));
    }
  }

  lemma {:induction false} AllpassLinear(r: Params, a: real, p: Params, b: real, q: Params, spread: nat, i: nat, n: nat)
    requires i < |ALLPASS_LENGTHS| && IsMix(r, a, p, b, q)
    ensures AllpassOut(r, spread, i, n) == Mix(a, AllpassOut(p, spread, i, n), b, AllpassOut(q, spread, i, n))
    ensures AllpassWrite(r, spread, i, n) == Mix(a, AllpassWrite(p, spread, i, n), b, AllpassWrite(q, spread, i, n))
    decreases 2 * i + 1, n
  {
    var len := ALLPASS_LENGTHS[i] + spread;
    StageLinear(r, a, p, b, q, spread, i, n);
    if n >= len { AllpassLinear(r, a, p, b, q, spread, i, n - len); }
    var yp, yq := AllpassOut(p, spread, i, n), AllpassOut(q, spread, i, n);
    assert AllpassOut(r, spread, i, n) == Mix(a, yp, b, yq);
    MixScales(a, yp, b, yq, 0.5);
    MixAdds(a, Stage(p, spread, i, n), yp * 0.5, b, Stage(q, spread, i, n), yq * 0.5);
  }

  /** The room is linear: the wet signal of a mix is the mix of the wet signals. */
  lemma WetLinear(r: Params, a: real, p: Params, b: real, q: Params, spread: nat, n: nat)
    requires IsMix(r, a, p, b, q)
    ensures Wet(r, spread, n) == a * Wet(p, spread, n) + b * Wet(q, spread, n)
  {
    StageLinear(r, a, p, b, q, spread, |ALLPASS_LENGTHS|, n);
  }

  /** A sample of the wet signal depends only on input that is old enough to have come back. */
  lemma WetIsCausal(p: Params, q: Params, spread: nat, n: nat)
    requires |p.dry| == |q.dry| && p.delay == q.delay && p.room == q.room && p.damp == q.damp
    requires forall i :: 0 <= i < |p.dry| && i + p.delay + 1116 + spread <= n ==> p.dry[i] == q.dry[i]
    ensures Wet(p, spread, n) == Wet(q, spread, n)
  {
    StageCausal(p, q, spread, |ALLPASS_LENGTHS|, n);
  }

  ghost predicate SameUntil(p: Params, q: Params, n: int) {
    && |p.dry| == |q.dry| && p.delay == q.delay && p.room == q.room && p.damp == q.damp
    && forall i :: 0 <= i < |p.dry| && i + p.delay <= n ==> p.dry[i] == q.dry[i]
  }

  lemma {:induction false} CombCausal(p: Params, q: Params, len: nat, n: nat)
    requires len > 0 && SameUntil(p, q, n)
    ensures CombStore(p, len, n) == CombStore(q, len, n)
    ensures CombWrite(p, len, n) == CombWrite(q, len, n)
    decreases n
  {
    if n >= len { CombCausal(p, q, len, n - len); }
    if n > 0 { CombCausal(p, q, len, n - 1); }
    assert CombOut(p, len, n) == CombOut(q, len, n);
    assert X(p, n) == X(q, n);
  }

  lemma {:induction false} CombSumCausal(p: Params, q: Params, spread: nat, c: nat, n: nat)
    requires c <= |COMB_LENGTHS| && SameUntil(p, q, n - 1116 - spread)
    ensures CombSum(p, spread, c, n) == CombSum(q, spread, c, n)
  {
    if c > 0 {
      CombSumCausal(p, q, spread, c - 1, n);
      var len := COMB_LENGTHS[c - 1] + spread;
      assert COMB_LENGTHS[c - 1] >= 1116;
      if n >= len { CombCausal(p, q, len, n - len); }
    }
  }

  lemma {:induction false} StageCausal(p: Params, q: Params, spread: nat, a: nat, n: nat)
    requires a <= |ALLPASS_LENGTHS| && SameUntil(p, q, n - 1116 - spread)
    ensures Stage(p, spread, a, n) == Stage(q, spread, a, n)
    decreases 2 * a, n
  {
    if a == 0 {
      CombSumCausal(p, q, spread, |COMB_LENGTHS|, n);
    } else {
      StageCausal(p, q, spread, a - 1, n);
      AllpassCausal(p, q, spread, a - 1, n);
    }
  }

  lemma {:induction false} AllpassCausal(p: Params, q: Params, spread: nat, a: nat, n: nat)
    requires a < |ALLPASS_LENGTHS| && SameUntil(p, q, n - 1116 - spread)
    ensures AllpassOut(p, spread, a, n) == AllpassOut(q, spread, a, n)
    decreases 2 * a + 1, n
  {
    var len := ALLPASS_LENGTHS[a] + spread;
    if n >= len {
      StageCausal(p, q, spread, a, n - len);
      AllpassCausal(p, q, spread, a, n - len);
    }
  }

  // ---- quantising

  const FULL_SCALE := 32_767.0

  function Clamp(v: real): real { if v < -1.0 then -1.0 else if v > 1.0 then 1.0 else v }

  /** The anti-click gain of a frame: 1 until the last `fade` frames, then a straight line. */
  function Gain(index: nat, frames: nat, fade: nat): real
    requires index < frames
  {
    if frames - index < fade then (frames - index) as real / fade as real else 1.0
  }

  function Sample(v: real, gain: real): int {
    Trunc(Clamp(v * gain) * FULL_SCALE)
  }

  /** One frame: a sample of every channel. */
  function FrameOf(channels: seq<seq<real>>, fade: nat, i: nat): (frame: seq<int>)
    requires channels != [] && forall c :: 0 <= c < |channels| ==> |channels[c]| >= |channels[0]|
    requires i < |channels[0]|
    ensures |frame| == |channels|
  {
    seq(|channels|, c requires 0 <= c < |channels| => Sample(channels[c][i], Gain(i, |channels[0]|, fade)))
  }

  function Frames(channels: seq<seq<real>>, fade: nat, n: nat): (samples: seq<int>)
    requires channels != [] && forall c :: 0 <= c < |channels| ==> |channels[c]| >= |channels[0]|
    requires n <= |channels[0]|
  {
    if n == 0 then [] else Frames(channels, fade, n - 1) + FrameOf(channels, fade, n - 1)
  }

  /** The inner loop: one frame. */
  method QuantiseFrame(channels: seq<seq<real>>, fade: nat, index: nat, gain: real) returns (frame: seq<int>)
    requires channels != [] && forall c :: 0 <= c < |channels| ==> |channels[c]| >= |channels[0]|
    requires index < |channels[0]| && gain == Gain(index, |channels[0]|, fade)
    ensures frame == FrameOf(channels, fade, index)
  {
    frame := [];
    for k := 0 to |channels|
      invariant |frame| == k
      invariant forall c :: 0 <= c < k ==> frame[c] == Sample(channels[c][index], gain)
    {
      frame := frame + [Sample(channels[k][index], gain)];
    }
  }

  /** Interleaves the channels into 16-bit samples. */
  method Quantise(channels: seq<seq<real>>, fade: nat) returns (samples: seq<int>)
    requires channels != [] && forall c :: 0 <= c < |channels| ==> |channels[c]| >= |channels[0]|
    ensures samples == Frames(channels, fade, |channels[0]|) && FitsSixteenBits(samples)
  {
    samples := [];
    var frames := |channels[0]|;
    for index := 0 to frames
      invariant samples == Frames(channels, fade, index)
    {
      var remaining := frames - index;
      var gain := if remaining < fade then remaining as real / fade as real else 1.0;
      var frame := QuantiseFrame(channels, fade, index, gain);
      samples := samples + frame;
    }
    FramesFit(channels, fade, frames);
  }

  /** Sample c of frame i lands at i times the number of channels, plus c. */
  lemma {:induction false} FramesInterleave(channels: seq<seq<real>>, fade: nat, n: nat, i: nat, c: nat)
    requires channels != [] && forall c :: 0 <= c < |channels| ==> |channels[c]| >= |channels[0]|
    requires i < n <= |channels[0]| && c < |channels|
    ensures |Frames(channels, fade, n)| == n * |channels|
    ensures 0 <= i * |channels| + c < n * |channels|
    ensures Frames(channels, fade, n)[i * |channels| + c] == Sample(channels[c][i], Gain(i, |channels[0]|, fade))
  {
    var size := |channels|;
    assert n * size == (n - 1) * size + size;
    if n > 1 { FramesInterleave(channels, fade, n - 1, if i < n - 1 then i else 0, c); }
    assert |Frames(channels, fade, n - 1)| == (n - 1) * size;
  }

  lemma TruncMonotone(x: real, y: real)
    requires x <= y
    ensures Trunc(x) <= Trunc(y)
  {
  }

  lemma ScaledGain(v: real, gain: real)
    requires 0.0 <= gain <= 1.0
    ensures v >= 0.0 ==> 0.0 <= v * gain <= v
    ensures v <= 0.0 ==> v <= v * gain <= 0.0
  {
    assert v >= 0.0 ==> v * (1.0 - gain) >= 0.0 && v * gain >= 0.0;
    assert v <= 0.0 ==> v * (1.0 - gain) <= 0.0 && v * gain <= 0.0;
    assert v * (1.0 - gain) == v - v * gain;
  }

  lemma ClampOrder(u: real, v: real)
    requires u <= v
    ensures -1.0 <= Clamp(u) <= Clamp(v) <= 1.0
    ensures u <= 0.0 ==> Clamp(u) <= 0.0
    ensures v >= 0.0 ==> Clamp(v) >= 0.0
  {
  }

  /** A larger scaled input never gives a smaller sample. */
  lemma SampleOrder(v: real, gain: real, w: real, scale: real)
    requires v * gain <= w * scale
    ensures -32_767 <= Sample(v, gain) <= Sample(w, scale) <= 32_767
    ensures v * gain <= 0.0 ==> Sample(v, gain) <= 0
    ensures w * scale >= 0.0 ==> Sample(w, scale) >= 0
  {
    ClampOrder(v * gain, w * scale);
    var c, d := Clamp(v * gain) * FULL_SCALE, Clamp(w * scale) * FULL_SCALE;
    TruncMonotone(-32_767.0, c);
    TruncMonotone(c, d);
    TruncMonotone(d, 32_767.0);
    assert c <= 0.0 ==> Trunc(c) <= 0;
    assert d >= 0.0 ==> Trunc(d) >= 0;
  }

  /** Every sample fits 16 bits, keeps the sign of its input and never grows in the fade. */
  lemma SampleLaws(v: real, gain: real)
    requires 0.0 <= gain <= 1.0
    ensures -32_767 <= Sample(v, gain) <= 32_767
    ensures v >= 0.0 ==> 0 <= Sample(v, gain) <= Sample(v, 1.0)
    ensures v <= 0.0 ==> Sample(v, 1.0) <= Sample(v, gain) <= 0
  {
    ScaledGain(v, gain);
    assert v * 1.0 == v;
    if v >= 0.0 {
      SampleOrder(v, gain, v, 1.0);
      SampleOrder(v, gain, v, gain);
    } else {
      SampleOrder(v, 1.0, v, gain);
      SampleOrder(v, gain, v, gain);
    }
  }

  lemma RatioWithin(part: real, whole: real)
    requires 0.0 < part < whole
    ensures 0.0 < part / whole <= 1.0
  {
    var ratio := part / whole;
    assert ratio * whole == part;
    assert ratio <= 0.0 ==> ratio * whole <= 0.0;
    assert ratio > 1.0 ==> ratio * whole > whole;
  }

  /** The gain starts at 1 and falls towards, but never to, silence. */
  lemma GainWithin(index: nat, frames: nat, fade: nat)
    requires index < frames
    ensures 0.0 < Gain(index, frames, fade) <= 1.0
  {
    if frames - index < fade { RatioWithin((frames - index) as real, fade as real); }
  }

  predicate FitsSixteenBits(samples: seq<int>) {
    forall k :: 0 <= k < |samples| ==> -32_767 <= samples[k] <= 32_767
  }

  /** What quantising gives fits 16 bits, whatever the channels hold. */
  lemma {:induction false} FramesFit(channels: seq<seq<real>>, fade: nat, n: nat)
    requires channels != [] && forall c :: 0 <= c < |channels| ==> |channels[c]| >= |channels[0]|
    requires n <= |channels[0]|
    ensures FitsSixteenBits(Frames(channels, fade, n))
  {
    if n > 0 {
      FramesFit(channels, fade, n - 1);
      GainWithin(n - 1, |channels[0]|, fade);
      var frame := FrameOf(channels, fade, n - 1);
      forall c | 0 <= c < |frame| ensures -32_767 <= frame[c] <= 32_767 {
        SampleLaws(channels[c][n - 1], Gain(n - 1, |channels[0]|, fade));
      }
    }
  }
}
