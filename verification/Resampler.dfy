/** The speaker path's resampler and the drift controller that sets its ratio.  Doubles are read as reals. */
module Resampler {
  datatype Frame = Frame(left: int, right: int)

  datatype Mode = Hermite | Linear | Nearest

  /** The last four input frames, oldest first, and the read position between the middle two. */
  datatype Tap = Tap(h0: Frame, h1: Frame, h2: Frame, h3: Frame, fraction: real)

  const PENDING_FRAMES := 16384
  const SILENCE := Frame(0, 0)
  const FRESH := Tap(SILENCE, SILENCE, SILENCE, SILENCE, 0.0)

  // ----- interpolation -----

  function Truncate(x: real): int {
    if x < 0.0 then -((-x).Floor) else x.Floor
  }

  function ClampSample(x: real): int {
    Truncate(if x < -32768.0 then -32768.0 else if x > 32767.0 then 32767.0 else x)
  }

  function Interpolate(mode: Mode, v0: real, v1: real, v2: real, v3: real, at: real): int {
    match mode
    case Nearest => Truncate(if at < 0.5 then v1 else v2)
    case Linear => ClampSample(v1 + (v2 - v1) * at)
    case Hermite =>
      var at2 := at * at;
      var at3 := at2 * at;
      var t0 := (v1 - v0) * 0.5 + (v2 - v1) * 0.5;
      var t1 := (v2 - v1) * 0.5 + (v3 - v2) * 0.5;
      ClampSample((2.0 * at3 - 3.0 * at2 + 1.0) * v1 + (at3 - 2.0 * at2 + at) * t0
                  + (at3 - at2) * t1 + (-2.0 * at3 + 3.0 * at2) * v2)
  }

  function SampleOf(mode: Mode): Tap -> Frame {
    (t: Tap) =>
      Frame(Interpolate(mode, t.h0.left as real, t.h1.left as real, t.h2.left as real, t.h3.left as real, t.fraction),
            Interpolate(mode, t.h0.right as real, t.h1.right as real, t.h2.right as real, t.h3.right as real,
                        t.fraction))
  }

  // ----- the stream of output frames, before any queueing -----

  /** A bound on the positions left in the interval; it only serves as a termination measure. */
  function Steps(fraction: real, ratio: real): int
    requires ratio > 0.0
  {
    if fraction > 1.0 then 0 else ((1.0 - fraction) / ratio).Floor + 1
  }

  lemma StepsFall(fraction: real, ratio: real)
    requires ratio > 0.0 && fraction <= 1.0
    ensures 0 <= Steps(fraction + ratio, ratio) < Steps(fraction, ratio)
  {
    var room := 1.0 - fraction;
    QuotientStep(room, ratio);
    assert 1.0 - (fraction + ratio) == room - ratio;
  }

  lemma QuotientStep(x: real, r: real)
    requires r > 0.0 && x >= 0.0
    ensures x / r >= 0.0 && (x - r) / r == x / r - 1.0
  {
    var q := x / r;
    assert q * r == x;
    TimesAtMost(0.0, x, 0.0, q, r);
    Cancel(x - r, r, q - 1.0);
  }

  lemma Cancel(x: real, r: real, q: real)
    requires r > 0.0 && q * r == x
    ensures x / r == q
  {
  }

  /** Dividing an inequality by a positive number. */
  lemma TimesAtMost(a: real, b: real, x: real, y: real, r: real)
    requires r > 0.0 && x * r == a && y * r == b && a <= b
    ensures x <= y
  {
  }

  /** `n * r` as a sum, which keeps the counting arguments linear. */
  function Times(n: nat, r: real): (p: real)
    ensures r > 0.0 ==> p >= 0.0
  {
    if n == 0 then 0.0 else Times(n - 1, r) + r
  }

  lemma {:induction false} TimesIs(n: nat, r: real)
    ensures Times(n, r) == n as real * r
  {
    if n > 0 {
      TimesIs(n - 1, r);
    }
  }

  lemma {:induction false} TimesAdds(a: nat, b: nat, r: real)
    ensures Times(a + b, r) == Times(a, r) + Times(b, r)
  {
    if b > 0 {
      TimesAdds(a, b - 1, r);
      assert a + b - 1 == a + (b - 1);
    }
  }

  lemma {:induction false} TimesGrows(n: nat, m: nat, r: real, low: real)
    requires m <= n && 0.0 <= low <= r
    ensures Times(m, low) <= Times(n, r)
  {
    if n > m {
      TimesGrows(n - 1, m, r, low);
    } else if n > 0 {
      TimesGrows(n - 1, m - 1, r, low);
    }
  }

  /** The frames one input frame yields: one for every read position up to the end of the interval. */
  function Burst(sample: Tap -> Frame, t: Tap, ratio: real): seq<Frame>
    requires ratio > 0.0
    decreases Steps(t.fraction, ratio)
  {
    if t.fraction > 1.0 then []
    else
      StepsFall(t.fraction, ratio);
      [sample(t)] + Burst(sample, t.(fraction := t.fraction + ratio), ratio)
  }

  /** The read position past that end. */
  function Past(fraction: real, ratio: real): real
    requires ratio > 0.0
    decreases Steps(fraction, ratio)
  {
    if fraction > 1.0 then fraction
    else
      StepsFall(fraction, ratio);
      Past(fraction + ratio, ratio)
  }

  /** The tap once a burst is done and one more frame has been pushed. */
  function Feed(t: Tap, ratio: real, frame: Frame): Tap
    requires ratio > 0.0
  {
    Tap(t.h1, t.h2, t.h3, frame, Past(t.fraction, ratio) - 1.0)
  }

  function Stream(sample: Tap -> Frame, t: Tap, ratio: real, input: seq<Frame>): seq<Frame>
    requires ratio > 0.0
    decreases |input|
  {
    if input == [] then [] else Burst(sample, t, ratio) + Stream(sample, Feed(t, ratio, input[0]), ratio, input[1..])
  }

  function After(t: Tap, ratio: real, input: seq<Frame>): Tap
    requires ratio > 0.0
    decreases |input|
  {
    if input == [] then t else After(Feed(t, ratio, input[0]), ratio, input[1..])
  }

  lemma StreamStep(sample: Tap -> Frame, t: Tap, ratio: real, input: seq<Frame>, k: nat)
    requires ratio > 0.0 && k < |input|
    ensures var u := Feed(t, ratio, input[k]);
            && Stream(sample, t, ratio, input[k..])
               == Burst(sample, t, ratio) + Stream(sample, u, ratio, input[k + 1..])
            && After(t, ratio, input[k..]) == After(u, ratio, input[k + 1..])
  {
    assert input[k..][0] == input[k] && input[k..][1..] == input[k + 1..];
  }

  /** Cutting the input anywhere changes neither the frames nor the state that follows. */
  lemma {:induction false} StreamSplits(sample: Tap -> Frame, t: Tap, ratio: real, a: seq<Frame>, b: seq<Frame>)
    requires ratio > 0.0
    ensures Stream(sample, t, ratio, a + b)
            == Stream(sample, t, ratio, a) + Stream(sample, After(t, ratio, a), ratio, b)
    ensures After(t, ratio, a + b) == After(After(t, ratio, a), ratio, b)
    decreases |a|
  {
    if a == [] {
      assert a + b == b;
    } else {
      StreamSplits(sample, Feed(t, ratio, a[0]), ratio, a[1..], b);
      assert (a + b)[1..] == a[1..] + b;
    }
  }

  // ----- how many frames -----

  lemma {:induction false} BurstLength(sample: Tap -> Frame, t: Tap, ratio: real)
    requires ratio > 0.0
    ensures var n := |Burst(sample, t, ratio)|;
            && Past(t.fraction, ratio) == t.fraction + Times(n, ratio)
            && Past(t.fraction, ratio) > 1.0
            && (n > 0 ==> Past(t.fraction, ratio) <= 1.0 + ratio)
    decreases Steps(t.fraction, ratio)
  {
    if t.fraction <= 1.0 {
      StepsFall(t.fraction, ratio);
      BurstLength(sample, t.(fraction := t.fraction + ratio), ratio);
    }
  }

  /** The read position after any input, and how far the last frame emitted reached. */
  lemma {:induction false} StreamLength(sample: Tap -> Frame, t: Tap, ratio: real, input: seq<Frame>)
    requires ratio > 0.0
    ensures var n := |Stream(sample, t, ratio, input)|;
            var f := After(t, ratio, input).fraction;
            && f == t.fraction + Times(n, ratio) - |input| as real
            && (input != [] ==> f > 0.0)
            && (n > 0 ==> f <= ratio)
    decreases |input|
  {
    if input != [] {
      var u := Feed(t, ratio, input[0]);
      BurstLength(sample, t, ratio);
      StreamLength(sample, u, ratio, input[1..]);
      TimesAdds(|Burst(sample, t, ratio)|, |Stream(sample, u, ratio, input[1..])|, ratio);
    }
  }

  /** From reset, a constant ratio turns N inputs into floor(N / ratio) + 1 frames. */
  lemma FrameCount(sample: Tap -> Frame, ratio: real, input: seq<Frame>)
    requires ratio > 0.0 && input != []
    ensures |Stream(sample, FRESH, ratio, input)| == (|input| as real / ratio).Floor + 1
  {
    var n := |Stream(sample, FRESH, ratio, input)|;
    StreamLength(sample, FRESH, ratio, input);
    assert n > 0 by {
      assert Times(0, ratio) == 0.0;
    }
    assert Times(n, ratio) == Times(n - 1, ratio) + ratio;
    FloorBetween(|input| as real, ratio, n - 1);
  }

  lemma FloorBetween(x: real, r: real, k: nat)
    requires r > 0.0 && Times(k, r) <= x < Times(k + 1, r)
    ensures (x / r).Floor == k
  {
    var q := x / r;
    assert q * r == x;
    TimesIs(k, r);
    TimesIs(k + 1, r);
    TimesAtMost(Times(k, r), x, k as real, q, r);
    if q >= (k + 1) as real {
      TimesAtMost(Times(k + 1, r) - x, 0.0, (k + 1) as real - q, 0.0, r);
      Strictly(q, (k + 1) as real, r);
    }
  }

  lemma Strictly(x: real, y: real, r: real)
    requires r > 0.0 && x >= y
    ensures x * r >= y * r
  {
  }

  /** A bound that needs no reset: the ratio may have been changed since. */
  lemma FrameBound(sample: Tap -> Frame, t: Tap, ratio: real, input: seq<Frame>)
    requires ratio > 0.0 && t.fraction >= 0.0
    ensures var n := |Stream(sample, t, ratio, input)|; n > 0 ==> Times(n - 1, ratio) <= |input| as real
  {
    StreamLength(sample, t, ratio, input);
  }

  // ----- the resampler object -----

  /** What a call passes through: the native frames themselves at ratio one, the interpolated stream otherwise. */
  function Through(sample: Tap -> Frame, t: Tap, ratio: real, input: seq<Frame>): seq<Frame>
    requires ratio > 0.0
  {
    if ratio == 1.0 then input else Stream(sample, t, ratio, input)
  }

  function Next(t: Tap, ratio: real, input: seq<Frame>): Tap
    requires ratio > 0.0
  {
    if ratio == 1.0 then t else After(t, ratio, input)
  }

  function Least(a: nat, b: nat): nat {
    if a < b then a else b
  }

  /** The part of a stream that fits the caller's buffer, and the part that then fits the queue. */
  function Front(all: seq<Frame>, capacity: nat): seq<Frame> {
    all[..Least(capacity, |all|)]
  }

  function Queued(all: seq<Frame>, capacity: nat): seq<Frame> {
    all[Least(capacity, |all|)..Least(capacity + PENDING_FRAMES, |all|)]
  }

  /** What one call hands over, and what it leaves in the queue. */
  function OutOf(queue: seq<Frame>, through: seq<Frame>, capacity: nat): seq<Frame> {
    if |queue| >= capacity then queue[..capacity] else Front(queue + through, capacity)
  }

  function LeftOf(queue: seq<Frame>, through: seq<Frame>, capacity: nat): seq<Frame> {
    if |queue| >= capacity then queue[capacity..] else Queued(queue + through, capacity)
  }

  /** A call loses nothing exactly when it has nothing to pass through, or its queue alone does not fill the
      caller's buffer and queue and stream together fit the buffer and the queue. */
  lemma NothingLost(queue: seq<Frame>, through: seq<Frame>, capacity: nat)
    ensures OutOf(queue, through, capacity) + LeftOf(queue, through, capacity) == queue + through
            <==> through == [] || (|queue| < capacity && |queue| + |through| <= capacity + PENDING_FRAMES)
  {
    var all := queue + through;
    if |queue| >= capacity {
      assert queue[..capacity] + queue[capacity..] == queue;
      assert through == [] ==> all == queue;
      assert |queue| == |all| ==> through == [];
    } else {
      var (m, n) := (Least(capacity, |all|), Least(capacity + PENDING_FRAMES, |all|));
      assert all[..m] + all[m..n] == all[..n];
      assert all[..|all|] == all;
    }
  }

  /** One input, a queue of one frame and a buffer of one frame: the input is lost. */
  lemma InputLost(frame: Frame)
    ensures OutOf([SILENCE], [frame], 1) == [SILENCE] && LeftOf([SILENCE], [frame], 1) == []
  {
  }

  /** A piece of the input is a piece of what stands before it and the input. */
  lemma TakenFrom(first: seq<Frame>, input: seq<Frame>, m: nat, n: nat)
    requires m + n <= |input|
    ensures first + input[..m] == (first + input)[..|first| + m]
    ensures input[m..m + n] == (first + input)[|first| + m..|first| + m + n]
  {
  }

  class Converter {
    var tap: Tap
    var ratio: real
    var sample: Tap -> Frame
    var pending: seq<Frame>

    ghost predicate Valid()
      reads this
    {
      ratio > 0.0 && |pending| <= PENDING_FRAMES
    }

    method Reset()
      modifies this`tap, this`pending, this`ratio
      ensures tap == FRESH && pending == []
      ensures ratio == (if old(ratio) <= 0.0 then 1.0 else old(ratio)) && Valid()
    {
      tap, pending := FRESH, [];
      if ratio <= 0.0 { ratio := 1.0; }
    }

    method SetMode(mode: Mode)
      modifies this`sample
      ensures sample == SampleOf(mode)
    {
      sample := SampleOf(mode);
    }

    method SetRates(source: real, destination: real)
      modifies this`ratio
      ensures ratio == if source <= 0.0 || destination <= 0.0 then old(ratio) else source / destination
    {
      if source <= 0.0 || destination <= 0.0 { return; }
      ratio := source / destination;
    }

    /** Stores one frame: in the output while it has room, then in the queue, else nowhere. */
    method Emit(frame: Frame, capacity: nat, out: seq<Frame>, ghost all: seq<Frame>) returns (grown: seq<Frame>)
      requires out == Front(all, capacity) && pending == Queued(all, capacity)
      modifies this`pending
      ensures grown == Front(all + [frame], capacity) && pending == Queued(all + [frame], capacity)
    {
      grown := out;
      if |out| < capacity {
        assert all + [frame] == out + [frame];
        grown := out + [frame];
      } else if |pending| < PENDING_FRAMES {
        pending := pending + [frame];
      }
    }

    /** The positions one input frame yields. */
    method EmitBurst(capacity: nat, out: seq<Frame>, ghost all: seq<Frame>) returns (grown: seq<Frame>)
      requires ratio > 0.0 && out == Front(all, capacity) && pending == Queued(all, capacity)
      modifies this`pending, this`tap
      ensures var whole := all + Burst(sample, old(tap), ratio);
              grown == Front(whole, capacity) && pending == Queued(whole, capacity)
      ensures tap == old(tap).(fraction := Past(old(tap).fraction, ratio))
    {
      grown := out;
      ghost var sent := all;
      while tap.fraction <= 1.0
        invariant tap == old(tap).(fraction := tap.fraction)
        invariant Past(tap.fraction, ratio) == Past(old(tap).fraction, ratio)
        invariant sent + Burst(sample, tap, ratio) == all + Burst(sample, old(tap), ratio)
        invariant grown == Front(sent, capacity) && pending == Queued(sent, capacity)
        decreases Steps(tap.fraction, ratio)
      {
        var frame := sample(tap);
        StepsFall(tap.fraction, ratio);
        grown := Emit(frame, capacity, grown, sent);
        ghost var rest := Burst(sample, tap.(fraction := tap.fraction + ratio), ratio);
        assert sent + ([frame] + rest) == (sent + [frame]) + rest;
        sent := sent + [frame];
        tap := tap.(fraction := tap.fraction + ratio);
      }
      assert sent + [] == sent;
    }

    method FeedOne(frame: Frame, capacity: nat, out: seq<Frame>, ghost all: seq<Frame>) returns (grown: seq<Frame>)
      requires ratio > 0.0 && out == Front(all, capacity) && pending == Queued(all, capacity)
      modifies this`pending, this`tap
      ensures var whole := all + Burst(sample, old(tap), ratio);
              grown == Front(whole, capacity) && pending == Queued(whole, capacity)
      ensures tap == Feed(old(tap), ratio, frame)
    {
      grown := EmitBurst(capacity, out, all);
      tap := Tap(tap.h1, tap.h2, tap.h3, frame, tap.fraction - 1.0);
    }

    /** Equal rates: every native sample passes unchanged, and the excess waits in the queue. */
    method Direct(input: seq<Frame>, capacity: nat, first: seq<Frame>) returns (out: seq<Frame>)
      requires |first| <= capacity && pending == []
      modifies this`pending
      ensures out == Front(first + input, capacity) && pending == Queued(first + input, capacity)
    {
      var direct := Least(|input|, capacity - |first|);
      out := first + input[..direct];
      var queued := Least(|input| - direct, PENDING_FRAMES - |pending|);
      TakenFrom(first, input, direct, queued);
      assert |first| + direct == Least(capacity, |first + input|);
      assert |first| + direct + queued == Least(capacity + PENDING_FRAMES, |first + input|);
      pending := pending + input[direct..direct + queued];
    }

    /** The interpolating loop over the input. */
    method Interpolating(input: seq<Frame>, capacity: nat, first: seq<Frame>) returns (out: seq<Frame>)
      requires ratio > 0.0 && |first| <= capacity && pending == []
      modifies this`pending, this`tap
      ensures var all := first + Stream(sample, old(tap), ratio, input);
              out == Front(all, capacity) && pending == Queued(all, capacity)
      ensures tap == After(old(tap), ratio, input)
    {
      out := first;
      ghost var all := first;
      for k := 0 to |input|
        invariant all + Stream(sample, tap, ratio, input[k..]) == first + Stream(sample, old(tap), ratio, input)
        invariant After(tap, ratio, input[k..]) == After(old(tap), ratio, input)
        invariant out == Front(all, capacity) && pending == Queued(all, capacity)
      {
        ghost var before := tap;
        ghost var burst := Burst(sample, before, ratio);
        ghost var rest := Stream(sample, Feed(before, ratio, input[k]), ratio, input[k + 1..]);
        StreamStep(sample, before, ratio, input, k);
        assert all + (burst + rest) == (all + burst) + rest;
        out := FeedOne(input[k], capacity, out, all);
        all := all + burst;
      }
      assert all + [] == all;
    }

    /** One call.  A queue that alone fills the buffer uses the whole call up, and the input is then lost. */
    method Process(input: seq<Frame>, capacity: nat) returns (out: seq<Frame>)
      requires Valid()
      modifies this`pending, this`tap
      ensures Valid()
      ensures |old(pending)| >= capacity
              ==> out == old(pending)[..capacity] && pending == old(pending)[capacity..] && tap == old(tap)
      ensures |old(pending)| < capacity
              ==> var all := old(pending) + Through(sample, old(tap), ratio, input);
                  && out == Front(all, capacity)
                  && pending == Queued(all, capacity)
                  && tap == Next(old(tap), ratio, input)
      ensures var through := Through(sample, old(tap), ratio, input);
              out + pending == old(pending) + through
              <==> through == [] || (|old(pending)| < capacity
                                     && |old(pending)| + |through| <= capacity + PENDING_FRAMES)
    {
      NothingLost(pending, Through(sample, tap, ratio, input), capacity);
      var copied := Least(|pending|, capacity);
      out, pending := pending[..copied], pending[copied..];
      if |out| == capacity { return; }
      assert copied == |old(pending)| && out == old(pending) && pending == [];
      if ratio == 1.0 {
        out := Direct(input, capacity, out);
      } else {
        out := Interpolating(input, capacity, out);
      }
    }
  }

  // ----- the audio output that owns the resampler -----

  const NATIVE_RATE := 32040
  const NATIVE_STAGING := 4096
  const HOST_STAGING := 16384
  const FINE_STEP := 0.00003125
  const MAX_SUB_ADJUSTMENT := 3600

  predicate ValidRate(rate: int) {
    rate == 32040 || rate == 44100 || rate == 48000 || rate == 96000
  }

  function Ceiling(x: real): int {
    -((-x).Floor)
  }

  function Abs(x: real): real {
    if x < 0.0 then -x else x
  }

  datatype Settings = Settings(rate: int, drift: bool, integral: bool, recovery: bool, tolerance: int, maxPpm: int,
                               averaging: nat, recoveryThreshold: int, targetLatency: nat)

  predicate Clamped(s: Settings) {
    ValidRate(s.rate) && 0 <= s.tolerance <= 20 && 0 <= s.maxPpm <= 10000 && 1 <= s.averaging <= 60
  }

  /** The widest correction: the largest rate adjustment plus the largest integral term. */
  predicate Reachable(playback: real) {
    1.0 - 0.010625 <= playback <= 1.0 + 0.010625
  }

  /** Every ratio the controller can set, on every device. */
  lemma RatioRange(rate: int, playback: real)
    requires ValidRate(rate) && Reachable(playback)
    ensures rate as real * playback > 0.0
    ensures NATIVE_RATE as real / (rate as real * playback) >= 0.33
    ensures rate == 48000 ==> NATIVE_RATE as real / (rate as real * playback) >= 0.66
  {
    assert rate == 32040 || rate == 44100 || rate == 48000 || rate == 96000;
    var divisor := rate as real * playback;
    assert 0.0 < divisor <= 97020.0;
    QuotientAtLeast(32040.0, divisor, 0.33);
    if rate == 48000 {
      QuotientAtLeast(32040.0, divisor, 0.66);
    }
  }

  lemma QuotientAtLeast(x: real, d: real, low: real)
    requires d > 0.0 && low * d <= x
    ensures x / d >= low
  {
    assert x / d * d == x;
    TimesAtMost(low * d, x, low, x / d, d);
  }

  /** No native block can overflow the host staging buffer, whatever the device rate and the correction. */
  lemma StagingSuffices(sample: Tap -> Frame, t: Tap, ratio: real, input: seq<Frame>)
    requires ratio >= 0.33 && t.fraction >= 0.0 && |input| <= NATIVE_STAGING
    ensures |Through(sample, t, ratio, input)| <= HOST_STAGING
  {
    FrameBound(sample, t, ratio, input);
    var n := |Stream(sample, t, ratio, input)|;
    if n > HOST_STAGING {
      TimesGrows(n - 1, HOST_STAGING, ratio, 0.33);
      TimesIs(HOST_STAGING, 0.33);
    }
  }

  /** The header's rule for the 48 kHz path: twice the input frames is always enough. */
  lemma TwiceIsEnough(sample: Tap -> Frame, t: Tap, playback: real, input: seq<Frame>)
    requires Reachable(playback) && t.fraction >= 0.0
    ensures 48000.0 * playback > 0.0 && NATIVE_RATE as real / (48000.0 * playback) > 0.0
    ensures |Through(sample, t, NATIVE_RATE as real / (48000.0 * playback), input)| <= 2 * |input|
  {
    RatioRange(48000, playback);
    var ratio := NATIVE_RATE as real / (48000.0 * playback);
    FrameBound(sample, t, ratio, input);
    var n := |Stream(sample, t, ratio, input)|;
    if n > 2 * |input| && input != [] {
      TimesGrows(n - 1, 2 * |input|, ratio, 0.66);
      TimesIs(2 * |input|, 0.66);
    }
  }

  lemma WrapsOnce(k: nat, n: nat)
    requires k < n
    ensures (k + 1) % n == if k + 1 == n then 0 else k + 1
  {
  }

  lemma ThroughSplits(sample: Tap -> Frame, t: Tap, ratio: real, input: seq<Frame>, k: nat, n: nat)
    requires ratio > 0.0 && k + n <= |input|
    ensures var u := Next(t, ratio, input[..k]);
            && Through(sample, t, ratio, input[..k + n])
               == Through(sample, t, ratio, input[..k]) + Through(sample, u, ratio, input[k..k + n])
            && Next(t, ratio, input[..k + n]) == Next(u, ratio, input[k..k + n])
  {
    StreamSplits(sample, t, ratio, input[..k], input[k..k + n]);
    assert input[..k] + input[k..k + n] == input[..k + n];
  }

  function Sum(s: seq<nat>): nat {
    if s == [] then 0 else s[0] + Sum(s[1..])
  }

  lemma {:induction false} SumAdds(a: seq<nat>, b: seq<nat>)
    ensures Sum(a + b) == Sum(a) + Sum(b)
  {
    if a == [] {
      assert a + b == b;
    } else {
      assert (a + b)[1..] == a[1..] + b;
      SumAdds(a[1..], b);
    }
  }

  /** A rotated sequence has the same sum. */
  lemma SumRotates(ring: seq<nat>, window: seq<nat>, index: nat)
    requires |ring| == |window| && index <= |ring|
    requires forall k :: index <= k < |ring| ==> ring[k] == window[k - index]
    requires forall k :: 0 <= k < index ==> ring[k] == window[k + |ring| - index]
    ensures Sum(ring) == Sum(window)
  {
    hide Sum;
    var rest := |ring| - index;
    assert ring[index..] == window[..rest];
    assert ring[..index] == window[rest..];
    assert ring == ring[..index] + ring[index..];
    assert window == window[..rest] + window[rest..];
    SumAdds(ring[..index], ring[index..]);
    SumAdds(window[..rest], window[rest..]);
  }

  /** The last `n` measurements, after one more. */
  function Measured(window: seq<nat>, n: nat, depth: nat): seq<nat> {
    (if |window| >= n > 0 then window[1..] else window) + [depth]
  }

  class Output {
    const settings: Settings
    const converter: Converter
    var history: map<int, int>
    var index: nat
    var count: nat
    var underTarget: int
    var playback: real
    /** The measurements that the ring holds, oldest first. */
    ghost var window: seq<nat>

    ghost predicate Valid()
      reads this, converter
    {
      && Clamped(settings) && Reachable(playback)
      && converter.ratio >= 0.33 && converter.pending == [] && converter.tap.fraction >= 0.0
      && RingOk()
      && -MAX_SUB_ADJUSTMENT <= underTarget <= MAX_SUB_ADJUSTMENT
    }

    /** The ring starts at `index` once it is full, and at zero before. */
    ghost predicate RingOk()
      reads this
    {
      && index < settings.averaging && count == |window| <= settings.averaging
      && (forall k :: 0 <= k < count ==> k in history)
      && (count < settings.averaging ==> index == count && forall k :: 0 <= k < count ==> history[k] == window[k])
      && (count == settings.averaging ==>
            && (forall k :: index <= k < count ==> history[k] == window[k - index])
            && (forall k :: 0 <= k < index ==> history[k] == window[k + count - index]))
    }

    constructor (s: Settings, mode: Mode)
      requires Clamped(s)
      ensures Valid() && fresh(converter) && settings == s && converter.sample == SampleOf(mode)
      ensures playback == 1.0 && converter.ratio == NATIVE_RATE as real / s.rate as real
    {
      settings := s;
      converter := new Converter;
      history, index, count, underTarget, playback, window := map[], 0, 0, 0, 1.0, [];
      new;
      converter.SetMode(mode);
      RatioRange(s.rate, 1.0);
      converter.SetRates(NATIVE_RATE as real, s.rate as real);
      converter.Reset();
    }

    method SetPlayback(requested: real)
      requires Clamped(settings) && Reachable(requested)
      modifies this`playback, converter`ratio
      ensures playback == requested && converter.ratio >= 0.33
      ensures settings.rate as real * requested > 0.0
      ensures converter.ratio == NATIVE_RATE as real / (settings.rate as real * requested)
    {
      RatioRange(settings.rate, requested);
      playback := requested;
      converter.SetRates(NATIVE_RATE as real, settings.rate as real * requested);
    }

    method ResetRateControl()
      requires Clamped(settings)
      modifies this, converter`ratio, converter`tap, converter`pending
      ensures Valid() && playback == 1.0 && converter.tap == FRESH && underTarget == 0 && window == []
      ensures converter.ratio == NATIVE_RATE as real / settings.rate as real
    {
      history, index, count, underTarget, window := map[], 0, 0, 0, [];
      SetPlayback(1.0);
      converter.Reset();
    }

    /** One native block: it leaves whole, and nothing is queued. */
    method PumpBlock(block: seq<Frame>) returns (frames: seq<Frame>)
      requires Valid() && |block| <= NATIVE_STAGING
      modifies converter`pending, converter`tap
      ensures Valid()
      ensures frames == Through(converter.sample, old(converter.tap), converter.ratio, block)
      ensures converter.tap == Next(old(converter.tap), converter.ratio, block)
    {
      StagingSuffices(converter.sample, converter.tap, converter.ratio, block);
      StreamLength(converter.sample, converter.tap, converter.ratio, block);
      ghost var all := Through(converter.sample, converter.tap, converter.ratio, block);
      assert [] + all == all;
      frames := converter.Process(block, HOST_STAGING);
    }

    /** Drains everything available in native-staging blocks.  Nothing is ever queued or dropped: the device
        receives exactly the stream of the whole input, as if it had been converted in one piece. */
    method Pump(available: seq<Frame>) returns (host: seq<Frame>)
      requires Valid()
      modifies converter`pending, converter`tap
      ensures Valid()
      ensures host == Through(converter.sample, old(converter.tap), converter.ratio, available)
      ensures converter.tap == Next(old(converter.tap), converter.ratio, available)
    {
      host := [];
      ghost var start := converter.tap;
      var taken := 0;
      while taken < |available|
        invariant 0 <= taken <= |available| && Valid()
        invariant host == Through(converter.sample, start, converter.ratio, available[..taken])
        invariant converter.tap == Next(start, converter.ratio, available[..taken])
      {
        var size := Least(|available| - taken, NATIVE_STAGING);
        var frames := PumpBlock(available[taken..taken + size]);
        ThroughSplits(converter.sample, start, converter.ratio, available, taken, size);
        host := host + frames;
        taken := taken + size;
      }
      assert available[..taken] == available;
    }

    /** One more queue depth; once there are enough of them, the sum of the last ones. */
    method Record(queueFrames: nat) returns (ready: bool, total: nat)
      requires Valid()
      modifies this`history, this`index, this`count, this`window
      ensures Valid() && window == Measured(old(window), settings.averaging, queueFrames)
      ensures ready <==> |window| == settings.averaging
      ensures ready ==> total == Sum(window)
    {
      Insert(queueFrames);
      ready, total := count == settings.averaging, 0;
      if ready { total := RingSum(); }
    }

    method Insert(queueFrames: nat)
      requires RingOk()
      modifies this`history, this`index, this`count, this`window
      ensures RingOk() && window == Measured(old(window), settings.averaging, queueFrames)
    {
      history := history[index := queueFrames];
      WrapsOnce(index, settings.averaging);
      index := (index + 1) % settings.averaging;
      if count < settings.averaging { count := count + 1; }
      window := Measured(window, settings.averaging, queueFrames);
    }

    method RingSum() returns (total: nat)
      requires RingOk() && count == settings.averaging
      ensures total == Sum(window)
    {
      total := 0;
      ghost var ring: seq<nat> := [];
      for k := 0 to settings.averaging
        invariant |ring| == k && total == Sum(ring)
        invariant forall j :: 0 <= j < k ==> ring[j] == history[j]
      {
        SumAdds(ring, [history[k]]);
        ring := ring + [history[k]];
        total := total + history[k];
      }
      SumRotates(ring, window, index);
    }

    function Milliseconds(frames: real): (ms: real)
      requires ValidRate(settings.rate)
      ensures ms * settings.rate as real == frames * 1000.0
    {
      frames * 1000.0 / settings.rate as real
    }

    /** The proportional correction for a latency gap. */
    function Adjustment(gap: real): (a: real)
      requires Clamped(settings)
      ensures 0.0 <= a <= 0.01
      ensures a > 0.0 <==> Abs(gap) > settings.tolerance as real && settings.maxPpm > 0
    {
      var raw := Ceiling((Abs(gap) - settings.tolerance as real) * 8.0) as real * FINE_STEP;
      var limit := settings.maxPpm as real / 1000000.0;
      var positive := if raw < 0.0 then 0.0 else raw;
      if positive > limit then limit else positive
    }

    method Integrate(gap: real)
      requires -MAX_SUB_ADJUSTMENT <= underTarget <= MAX_SUB_ADJUSTMENT
      modifies this`underTarget
      ensures -MAX_SUB_ADJUSTMENT <= underTarget <= MAX_SUB_ADJUSTMENT
      ensures !settings.drift || !settings.integral ==> underTarget == 0
      ensures settings.drift && settings.integral ==>
                && (gap > 0.0 ==> underTarget == old(underTarget) - 1 || underTarget == old(underTarget) == -3600)
                && (gap < 0.0 ==> underTarget == old(underTarget) + 1 || underTarget == old(underTarget) == 3600)
                && (gap == 0.0 ==> underTarget == old(underTarget))
    {
      if settings.drift && settings.integral && gap < 0.0 && underTarget < MAX_SUB_ADJUSTMENT {
        underTarget := underTarget + 1;
      } else if settings.drift && settings.integral && gap > 0.0 && underTarget > -MAX_SUB_ADJUSTMENT {
        underTarget := underTarget - 1;
      }
      if !settings.drift || !settings.integral { underTarget := 0; }
    }

    function Integral(): (sub: real)
      reads this`underTarget
      requires -MAX_SUB_ADJUSTMENT <= underTarget <= MAX_SUB_ADJUSTMENT
      ensures -0.000625 <= sub <= 0.000625
    {
      FINE_STEP * underTarget as real / 180.0
    }

    /** The playback ratio after a correction: without drift control it is one; beyond the tolerance it is the integral
        term less the adjustment above, and plus it below; otherwise, within a millisecond, it is the integral term
        itself. */
    ghost predicate Corrected(gap: real, before: real)
      reads this
      requires -MAX_SUB_ADJUSTMENT <= underTarget <= MAX_SUB_ADJUSTMENT && Clamped(settings)
    {
      && (!settings.drift ==> playback == 1.0 && underTarget == 0)
      && (settings.drift && settings.maxPpm > 0 && gap > settings.tolerance as real ==>
            playback == 1.0 + Integral() - Adjustment(gap) < 1.0 + Integral())
      && (settings.drift && settings.maxPpm > 0 && gap < -(settings.tolerance as real) ==>
            playback == 1.0 + Integral() + Adjustment(gap) > 1.0 + Integral())
      && (settings.drift && (settings.maxPpm == 0 || Abs(gap) <= settings.tolerance as real) ==>
            playback == if Abs(gap) < 1.0 then 1.0 + Integral() else before)
    }

    /** The correction opposes the gap: too much queued lowers the device-side rate, too little raises it. */
    method Correct(gap: real)
      requires Valid()
      modifies this`playback, this`underTarget, converter`ratio
      ensures Valid() && Corrected(gap, old(playback))
    {
      if !settings.drift {
        underTarget := 0;
        SetPlayback(1.0);
      }
      var adjustment := Adjustment(gap);
      Integrate(gap);
      var sub := Integral();
      var requested := playback;
      if settings.drift && adjustment > 0.0 {
        if gap > settings.tolerance as real { requested := 1.0 - adjustment + sub; }
        else if gap < -(settings.tolerance as real) { requested := 1.0 + adjustment + sub; }
      } else if settings.drift && Abs(gap) < 1.0 {
        requested := 1.0 + sub;
      }
      if settings.drift { SetPlayback(requested); }
    }

    /** The mean latency of a full window. */
    function Latency(full: seq<nat>): real
      requires Clamped(settings)
    {
      Milliseconds(Sum(full) as real / settings.averaging as real)
    }

    function Gap(full: seq<nat>): real
      requires Clamped(settings)
    {
      Latency(full) - Milliseconds(settings.targetLatency as real)
    }

    predicate Recovers(full: seq<nat>, cleared: bool)
      requires Clamped(settings)
    {
      settings.recovery && cleared && Latency(full) > 0.0 && Abs(Gap(full)) > settings.recoveryThreshold as real
    }

    /** The per-frame controller.  Until enough depths are known nothing changes; then the correction opposes the
        gap of the mean latency, or the whole control starts afresh.  Whatever is measured, the next `Pump` still
        loses nothing. */
    method EndOfFrame(queueFrames: nat, cleared: bool)
      requires Valid()
      modifies this, converter`ratio, converter`tap, converter`pending
      ensures Valid()
      ensures var full := Measured(old(window), settings.averaging, queueFrames);
              var waits := |full| < settings.averaging;
              && (waits ==>
                    && window == full && playback == old(playback) && underTarget == old(underTarget)
                    && converter.tap == old(converter.tap) && converter.ratio == old(converter.ratio))
              && (!waits && Recovers(full, cleared) ==>
                    window == [] && playback == 1.0 && underTarget == 0 && converter.tap == FRESH)
              && (!waits && !Recovers(full, cleared) ==>
                    window == full && converter.tap == old(converter.tap)
                    && Corrected(Gap(full), old(playback)))
    {
      var ready, total := Record(queueFrames);
      if !ready { return; }
      ghost var full := window;
      var latency := Milliseconds(total as real / settings.averaging as real);
      var gap := latency - Milliseconds(settings.targetLatency as real);
      assert latency == Latency(full) && gap == Gap(full);
      Correct(gap);
      if settings.recovery && latency > 0.0 && Abs(gap) > settings.recoveryThreshold as real && cleared {
        ResetRateControl();
      }
    }
  }
}
