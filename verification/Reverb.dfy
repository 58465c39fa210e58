/** The stereo reverb of the notification cues (scripts/gen-notification-sounds.py) as
    difference equations over the whole history, and the code's ring buffers as an
    implementation of them. Samples are exact reals. */
module Reverb {
  const SAMPLE_RATE: int := 44_100
  const COMB_LENGTHS: seq<nat> := [1116, 1188, 1277, 1356, 1422, 1491, 1557, 1617]
  const ALLPASS_LENGTHS: seq<nat> := [556, 441, 341, 225]
  const STEREO_SPREAD: nat := 23

  /** What one call of reverb is given, with the predelay already in samples. */
  datatype Params = Params(dry: seq<real>, delay: nat, room: real, damp: real)

  // ---- the difference equations

  /** The delayed input at sample n. */
  function X(p: Params, n: nat): real {
    if p.delay <= n < p.delay + |p.dry| then p.dry[n - p.delay] else 0.0
  }

  /** One step of a low-pass that keeps `damp` of what it held. */
  function Damped(y: real, store: real, damp: real): real { y * (1.0 - damp) + store * damp }

  /** A signal with feedback added. */
  function Fed(x: real, store: real, room: real): real { x + store * room }

  /** What a comb of length len puts out at n: what it wrote len samples earlier. */
  function CombOut(p: Params, len: nat, n: nat): real
    requires len > 0
    decreases n, 0
  {
    if n < len then 0.0 else CombWrite(p, len, n - len)
  }

  /** The damping low-pass in the comb's loop. */
  function CombStore(p: Params, len: nat, n: nat): real
    requires len > 0
    decreases n, 1
  {
    Damped(CombOut(p, len, n), if n == 0 then 0.0 else CombStore(p, len, n - 1), p.damp)
  }

  function CombWrite(p: Params, len: nat, n: nat): real
    requires len > 0
    decreases n, 2
  {
    Fed(X(p, n), CombStore(p, len, n), p.room)
  }

  /** The sum of the first c parallel combs. */
  function CombSum(p: Params, spread: nat, c: nat, n: nat): real
    requires c <= |COMB_LENGTHS|
  {
    if c == 0 then 0.0 else CombSum(p, spread, c - 1, n) + CombOut(p, COMB_LENGTHS[c - 1] + spread, n)
  }

  /** The signal after the combs and the first a all-passes. */
  function Stage(p: Params, spread: nat, a: nat, n: nat): real
    requires a <= |ALLPASS_LENGTHS|
    decreases 2 * a, n, 0
  {
    if a == 0 then CombSum(p, spread, |COMB_LENGTHS|, n)
    else AllpassOut(p, spread, a - 1, n) - Stage(p, spread, a - 1, n)
  }

  /** What all-pass a reads at n: what it wrote its length earlier. */
  function AllpassOut(p: Params, spread: nat, a: nat, n: nat): real
    requires a < |ALLPASS_LENGTHS|
    decreases 2 * a + 1, n, 0
  {
    var len := ALLPASS_LENGTHS[a] + spread;
    if n < len then 0.0 else AllpassWrite(p, spread, a, n - len)
  }

  function AllpassWrite(p: Params, spread: nat, a: nat, n: nat): real
    requires a < |ALLPASS_LENGTHS|
    decreases 2 * a + 1, n, 1
  {
    Stage(p, spread, a, n) + AllpassOut(p, spread, a, n) * 0.5
  }

  function Wet(p: Params, spread: nat, n: nat): real {
    Stage(p, spread, |ALLPASS_LENGTHS|, n)
  }

  // ---- ring buffers

  lemma Remainder(n: nat, q: nat, r: nat, len: nat)
    requires len > 0 && r < len && n == q * len + r
    ensures n % len == r
  {
    var d: int := n / len - q;
    assert n == (n / len) * len + n % len;
    assert n % len + d * len == r;
    assert d >= 1 ==> d * len >= len;
    assert d <= -1 ==> d * len + len <= 0;
  }

  lemma NextIndex(n: nat, len: nat)
    requires len > 0
    ensures (n + 1) % len == (n % len + 1) % len
  {
    var q, r := n / len, n % len;
    assert n == q * len + r;
    if r + 1 < len {
      Remainder(n + 1, q, r + 1, len);
      Remainder(r + 1, 0, r + 1, len);
    } else {
      assert (q + 1) * len == q * len + len;
      Remainder(n + 1, q + 1, 0, len);
      Remainder(r + 1, 1, 0, len);
    }
  }

  lemma IndicesApart(m: nat, n: nat, len: nat)
    requires len > 0 && m < n < m + len
    ensures m % len != n % len
  {
    var qm, qn := m / len, n / len;
    assert m == qm * len + m % len && n == qn * len + n % len;
    var laps: int := qn - qm;
    assert n - m == laps * len + (n % len - m % len);
    assert laps >= 1 ==> laps * len >= len;
    assert laps <= 0 ==> laps * len <= 0;
  }

  lemma IndexOneLapBack(n: nat, len: nat)
    requires 0 < len <= n
    ensures (n - len) % len == n % len
  {
    var q, r := (n - len) / len, (n - len) % len;
    assert n - len == q * len + r;
    assert (q + 1) * len == q * len + len;
    Remainder(n, q + 1, r, len);
  }

  /** A ring buffer of length len before sample n: the last len values written, each at its
      index modulo len, and zero where nothing has been written. */
  ghost predicate Ring(buffer: seq<real>, index: nat, len: nat, n: nat, written: nat -> real) {
    && |buffer| == len > 0
    && index == n % len
    && (forall m: nat :: n <= m + len && m < n ==> buffer[m % len] == written(m))
    && (forall j :: n <= j < len ==> buffer[j] == 0.0)
  }

  /** Reading at the index gives what was written len samples ago; overwriting it and moving
      on keeps the ring. */
  lemma RingStep(buffer: seq<real>, index: nat, len: nat, n: nat, written: nat -> real)
    requires Ring(buffer, index, len, n, written)
    ensures index < |buffer|
    ensures buffer[index] == if n < len then 0.0 else written(n - len)
    ensures Ring(buffer[index := written(n)], (index + 1) % len, len, n + 1, written)
  {
    var next := buffer[index := written(n)];
    NextIndex(n, len);
    if n < len {
      Remainder(n, 0, n, len);
    } else {
      IndexOneLapBack(n, len);
    }
    forall m: nat | n + 1 <= m + len && m < n + 1 ensures next[m % len] == written(m) {
      if m < n { IndicesApart(m, n, len); }
    }
  }

  function CombWrites(p: Params, len: nat): nat -> real
    requires len > 0
  {
    (n: nat) => CombWrite(p, len, n)
  }

  function AllpassWrites(p: Params, spread: nat, a: nat): nat -> real
    requires a < |ALLPASS_LENGTHS|
  {
    (n: nat) => AllpassWrite(p, spread, a, n)
  }

  // ---- the code's loops

  /** One comb's ring and its low-pass store before sample n. */
  ghost predicate CombState(p: Params, len: nat, n: nat, buffer: seq<real>, index: nat, store: real)
    requires len > 0
  {
    && Ring(buffer, index, len, n, CombWrites(p, len))
    && store == if n == 0 then 0.0 else CombStore(p, len, n - 1)
  }

  ghost predicate AllpassState(p: Params, spread: nat, a: nat, n: nat, buffer: seq<real>, index: nat)
    requires a < |ALLPASS_LENGTHS|
  {
    Ring(buffer, index, ALLPASS_LENGTHS[a] + spread, n, AllpassWrites(p, spread, a))
  }

  ghost predicate Distinct(buffers: seq<array<real>>) {
    forall i, j :: 0 <= i < j < |buffers| ==> buffers[i] != buffers[j]
  }

  lemma CombStep(p: Params, len: nat, n: nat, buffer: seq<real>, index: nat, store: real, store': real)
    requires len > 0 && CombState(p, len, n, buffer, index, store)
    requires index < |buffer| ==> store' == Damped(buffer[index], store, p.damp)
    ensures index < |buffer| == len
    ensures buffer[index] == CombOut(p, len, n)
    ensures store' == CombStore(p, len, n)
    ensures CombState(p, len, n + 1, buffer[index := Fed(X(p, n), store', p.room)], (index + 1) % len, store')
  {
    RingStep(buffer, index, len, n, CombWrites(p, len));
    assert CombWrites(p, len)(n) == CombWrite(p, len, n);
  }

  lemma AllpassStep(p: Params, spread: nat, a: nat, n: nat, buffer: seq<real>, index: nat)
    requires a < |ALLPASS_LENGTHS| && AllpassState(p, spread, a, n, buffer, index)
    ensures index < |buffer| == ALLPASS_LENGTHS[a] + spread
    ensures buffer[index] == AllpassOut(p, spread, a, n)
    ensures AllpassState(p, spread, a, n + 1, buffer[index := Stage(p, spread, a, n) + buffer[index] * 0.5],
                         (index + 1) % |buffer|)
  {
    RingStep(buffer, index, ALLPASS_LENGTHS[a] + spread, n, AllpassWrites(p, spread, a));
    assert AllpassWrites(p, spread, a)(n) == AllpassWrite(p, spread, a, n);
  }

  /** One sample through one comb: reads, damps, feeds back and moves its index on. */
  method CombTick(p: Params, ghost len: nat, ghost n: nat, buffer: array<real>, index: nat, store: real, x: real)
    returns (y: real, index': nat, store': real)
    requires len > 0 && CombState(p, len, n, buffer[..], index, store)
    requires x == X(p, n)
    modifies buffer
    ensures y == CombOut(p, len, n)
    ensures CombState(p, len, n + 1, buffer[..], index', store')
  {
    ghost var before := buffer[..];
    y := buffer[index];
    store' := Damped(y, store, p.damp);
    CombStep(p, len, n, before, index, store, store');
    var fed := Fed(x, store', p.room);
    buffer[index] := fed;
    index' := (index + 1) % buffer.Length;
    assert buffer.Length == len && buffer[..] == before[index := fed];
  }

  /** One sample through one all-pass. */
  method AllpassTick(p: Params, spread: nat, a: nat, ghost n: nat, buffer: array<real>, index: nat, acc: real)
    returns (out: real, index': nat)
    requires a < |ALLPASS_LENGTHS| && AllpassState(p, spread, a, n, buffer[..], index)
    requires acc == Stage(p, spread, a, n)
    modifies buffer
    ensures out == Stage(p, spread, a + 1, n)
    ensures AllpassState(p, spread, a, n + 1, buffer[..], index')
  {
    AllpassStep(p, spread, a, n, buffer[..], index);
    ghost var before := buffer[..];
    var y := buffer[index];
    buffer[index] := acc + y * 0.5;
    assert buffer[..] == before[index := acc + y * 0.5];
    index' := (index + 1) % buffer.Length;
    out := y - acc;
  }

  ghost predicate CombsAt(p: Params, spread: nat, n: nat, combs: seq<array<real>>, index: seq<nat>, store: seq<real>,
                          lo: nat, hi: nat)
    reads combs
  {
    && |combs| == |index| == |store| == |COMB_LENGTHS|
    && hi <= |COMB_LENGTHS|
    && forall c :: lo <= c < hi ==> CombState(p, COMB_LENGTHS[c] + spread, n, combs[c][..], index[c], store[c])
  }

  ghost predicate AllpassesAt(p: Params, spread: nat, n: nat, allpasses: seq<array<real>>, index: seq<nat>, lo: nat, hi: nat)
    reads allpasses
  {
    && |allpasses| == |index| == |ALLPASS_LENGTHS|
    && hi <= |ALLPASS_LENGTHS|
    && forall a :: lo <= a < hi ==> AllpassState(p, spread, a, n, allpasses[a][..], index[a])
  }

  /** One comb's turn: its ring, index and store move on to the next sample, and no other's. */
  method CombOne(p: Params, spread: nat, ghost n: nat, combs: seq<array<real>>, index: array<nat>, store: array<real>, c: nat, x: real)
    returns (y: real)
    requires Distinct(combs) && store !in combs && c < |COMB_LENGTHS|
    requires CombsAt(p, spread, n + 1, combs, index[..], store[..], 0, c)
    requires CombsAt(p, spread, n, combs, index[..], store[..], c, |COMB_LENGTHS|)
    requires x == X(p, n)
    modifies combs, index, store
    ensures y == CombOut(p, COMB_LENGTHS[c] + spread, n)
    ensures CombsAt(p, spread, n + 1, combs, index[..], store[..], 0, c + 1)
    ensures CombsAt(p, spread, n, combs, index[..], store[..], c + 1, |COMB_LENGTHS|)
  {
    var i, s;
    y, i, s := CombTick(p, COMB_LENGTHS[c] + spread, n, combs[c], index[c], store[c], x);
    index[c] := i;
    store[c] := s;
  }

  /** The loop over the combs for one sample. */
  method CombPass(p: Params, spread: nat, ghost n: nat, combs: seq<array<real>>, index: array<nat>, store: array<real>, x: real)
    returns (acc: real)
    requires Distinct(combs) && store !in combs
    requires CombsAt(p, spread, n, combs, index[..], store[..], 0, |COMB_LENGTHS|)
    requires x == X(p, n)
    modifies combs, index, store
    ensures acc == CombSum(p, spread, |COMB_LENGTHS|, n)
    ensures CombsAt(p, spread, n + 1, combs, index[..], store[..], 0, |COMB_LENGTHS|)
  {
    acc := 0.0;
    for c := 0 to |combs|
      invariant acc == CombSum(p, spread, c, n)
      invariant CombsAt(p, spread, n + 1, combs, index[..], store[..], 0, c)
      invariant CombsAt(p, spread, n, combs, index[..], store[..], c, |COMB_LENGTHS|)
    {
      var y := CombOne(p, spread, n, combs, index, store, c, x);
      acc := acc + y;
    }
  }

  /** The loop over the all-passes for one sample. */
  method AllpassPass(p: Params, spread: nat, ghost n: nat, allpasses: seq<array<real>>, index: array<nat>, input: real)
    returns (acc: real)
    requires Distinct(allpasses)
    requires AllpassesAt(p, spread, n, allpasses, index[..], 0, |ALLPASS_LENGTHS|)
    requires input == Stage(p, spread, 0, n)
    modifies allpasses, index
    ensures acc == Wet(p, spread, n)
    ensures AllpassesAt(p, spread, n + 1, allpasses, index[..], 0, |ALLPASS_LENGTHS|)
  {
    acc := input;
    for a := 0 to |allpasses|
      invariant acc == Stage(p, spread, a, n)
      invariant AllpassesAt(p, spread, n + 1, allpasses, index[..], 0, a)
      invariant AllpassesAt(p, spread, n, allpasses, index[..], a, |ALLPASS_LENGTHS|)
    {
      var i;
      acc, i := AllpassTick(p, spread, a, n, allpasses[a], index[a], acc);
      index[a] := i;
    }
  }

  /** Fresh zeroed buffers, one per length. */
  method ZeroBuffers(lengths: seq<nat>, spread: nat) returns (buffers: seq<array<real>>)
    ensures |buffers| == |lengths| && Distinct(buffers)
    ensures forall c :: 0 <= c < |buffers| ==> fresh(buffers[c]) && buffers[c].Length == lengths[c] + spread
    ensures forall c :: 0 <= c < |buffers| ==> forall j :: 0 <= j < buffers[c].Length ==> buffers[c][j] == 0.0
  {
    buffers := [];
    for c := 0 to |lengths|
      invariant |buffers| == c && Distinct(buffers)
      invariant forall i :: 0 <= i < c ==> fresh(buffers[i]) && buffers[i].Length == lengths[i] + spread
      invariant forall i :: 0 <= i < c ==> forall j :: 0 <= j < buffers[i].Length ==> buffers[i][j] == 0.0
    {
      var buffer := new real[lengths[c] + spread](_ => 0.0);
      buffers := buffers + [buffer];
    }
  }

  lemma StartCombs(p: Params, spread: nat, combs: seq<array<real>>, index: seq<nat>, store: seq<real>)
    requires |combs| == |index| == |store| == |COMB_LENGTHS|
    requires forall c :: 0 <= c < |combs| ==> combs[c].Length == COMB_LENGTHS[c] + spread && index[c] == 0 && store[c] == 0.0
    requires forall c :: 0 <= c < |combs| ==> forall j :: 0 <= j < combs[c].Length ==> combs[c][j] == 0.0
    ensures CombsAt(p, spread, 0, combs, index, store, 0, |COMB_LENGTHS|)
  {
  }

  lemma StartAllpasses(p: Params, spread: nat, allpasses: seq<array<real>>, index: seq<nat>)
    requires |allpasses| == |index| == |ALLPASS_LENGTHS|
    requires forall a :: 0 <= a < |allpasses| ==> allpasses[a].Length == ALLPASS_LENGTHS[a] + spread && index[a] == 0
    requires forall a :: 0 <= a < |allpasses| ==> forall j :: 0 <= j < allpasses[a].Length ==> allpasses[a][j] == 0.0
    ensures AllpassesAt(p, spread, 0, allpasses, index, 0, |ALLPASS_LENGTHS|)
  {
  }

  /** One sample through the whole room. */
  method Tick(p: Params, spread: nat, n: nat, combs: seq<array<real>>, combIndex: array<nat>, combStore: array<real>,
              allpasses: seq<array<real>>, allpassIndex: array<nat>) returns (acc: real)
    requires n < |p.dry|
    requires Distinct(combs + allpasses) && combStore !in combs + allpasses && combIndex != allpassIndex
    requires CombsAt(p, spread, n, combs, combIndex[..], combStore[..], 0, |COMB_LENGTHS|)
    requires AllpassesAt(p, spread, n, allpasses, allpassIndex[..], 0, |ALLPASS_LENGTHS|)
    modifies combs, combIndex, combStore, allpasses, allpassIndex
    ensures acc == Wet(p, spread, n)
    ensures CombsAt(p, spread, n + 1, combs, combIndex[..], combStore[..], 0, |COMB_LENGTHS|)
    ensures AllpassesAt(p, spread, n + 1, allpasses, allpassIndex[..], 0, |ALLPASS_LENGTHS|)
  {
    DistinctParts(combs, allpasses);
    var x := if n >= p.delay then p.dry[n - p.delay] else 0.0;
    acc := CombPass(p, spread, n, combs, combIndex, combStore, x);
    acc := AllpassPass(p, spread, n, allpasses, allpassIndex, acc);
  }

  lemma DistinctParts(a: seq<array<real>>, b: seq<array<real>>)
    requires Distinct(a + b)
    ensures Distinct(a) && Distinct(b)
    ensures forall i, j :: 0 <= i < |a| && 0 <= j < |b| ==> a[i] != b[j]
  {
    forall i, j | 0 <= i < j < |a| ensures a[i] != a[j] {
      assert (a + b)[i] == a[i] && (a + b)[j] == a[j];
    }
    forall i, j | 0 <= i < j < |b| ensures b[i] != b[j] {
      assert (a + b)[|a| + i] == b[i] && (a + b)[|a| + j] == b[j];
    }
    forall i, j | 0 <= i < |a| && 0 <= j < |b| ensures a[i] != b[j] {
      assert (a + b)[i] == a[i] && (a + b)[|a| + j] == b[j];
    }
  }

  ghost predicate IsWet(p: Params, spread: nat, samples: seq<real>) {
    forall n :: 0 <= n < |samples| ==> samples[n] == Wet(p, spread, n)
  }

  /** The sample loop of one channel, from buffers that hold nothing yet. */
  method FillChannel(p: Params, spread: nat, combs: seq<array<real>>, combIndex: array<nat>, combStore: array<real>,
                     allpasses: seq<array<real>>, allpassIndex: array<nat>, channel: array<real>)
    requires Distinct(combs + allpasses) && combStore !in combs + allpasses && combIndex != allpassIndex
    requires channel !in combs + allpasses && channel != combStore && channel.Length == |p.dry|
    requires CombsAt(p, spread, 0, combs, combIndex[..], combStore[..], 0, |COMB_LENGTHS|)
    requires AllpassesAt(p, spread, 0, allpasses, allpassIndex[..], 0, |ALLPASS_LENGTHS|)
    modifies combs, combIndex, combStore, allpasses, allpassIndex, channel
    ensures IsWet(p, spread, channel[..])
  {
    ghost var wet: seq<real> := [];
    for n := 0 to |p.dry|
      invariant CombsAt(p, spread, n, combs, combIndex[..], combStore[..], 0, |COMB_LENGTHS|)
      invariant AllpassesAt(p, spread, n, allpasses, allpassIndex[..], 0, |ALLPASS_LENGTHS|)
      invariant channel[..n] == wet
      invariant IsWet(p, spread, wet)
    {
      var acc := Tick(p, spread, n, combs, combIndex, combStore, allpasses, allpassIndex);
      channel[n] := acc;
      wet := wet + [acc];
    }
    assert channel[..] == wet;
  }

  /** One channel of the wet signal. */
  method ReverbChannel(p: Params, spread: nat) returns (channel: array<real>)
    ensures channel.Length == |p.dry| && IsWet(p, spread, channel[..])
  {
    var combs := ZeroBuffers(COMB_LENGTHS, spread);
    var combIndex := new nat[|COMB_LENGTHS|](_ => 0);
    var combStore := new real[|COMB_LENGTHS|](_ => 0.0);
    var allpasses := ZeroBuffers(ALLPASS_LENGTHS, spread);
    var allpassIndex := new nat[|ALLPASS_LENGTHS|](_ => 0);
    channel := new real[|p.dry|](_ => 0.0);
    StartCombs(p, spread, combs, combIndex[..], combStore[..]);
    StartAllpasses(p, spread, allpasses, allpassIndex[..]);
    FillChannel(p, spread, combs, combIndex, combStore, allpasses, allpassIndex, channel);
  }

  /** Python's int() of a float: toward zero. */
  function Trunc(x: real): int {
    if x >= 0.0 then x.Floor else -((-x).Floor)
  }

  /** The wet signal as (left, right). A predelay that truncates to a negative number of
      samples reads past the end of any non-empty input, which ends the source in an index error. */
  method ReverbStereo(dry: seq<real>, room: real, damp: real, predelay: real)
    returns (left: array<real>, right: array<real>)
    requires Trunc(predelay * SAMPLE_RATE as real) >= 0
    ensures left.Length == right.Length == |dry|
    ensures var p := Params(dry, Trunc(predelay * SAMPLE_RATE as real), room, damp);
            IsWet(p, 0, left[..]) && IsWet(p, STEREO_SPREAD, right[..])
  {
    var p := Params(dry, Trunc(predelay * SAMPLE_RATE as real), room, damp);
    left := ReverbChannel(p, 0);
    right := ReverbChannel(p, STEREO_SPREAD);
  }
}
