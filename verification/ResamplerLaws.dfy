/** What the resampler's frames are: which inputs each output is read between, and what the three readings give. */
module ResamplerLaws {
  import opened Resampler

  // ----- where each frame is read -----

  /** The input frame of a number, silence before the first. */
  function InputAt(input: seq<Frame>, n: int): Frame
    requires n < |input|
  {
    if n < 0 then SILENCE else input[n]
  }

  /** The four inputs before input `i`, with a read position between the second and the third. */
  function TapAt(input: seq<Frame>, i: nat, fraction: real): Tap
    requires i <= |input|
  {
    Tap(InputAt(input, i - 4), InputAt(input, i - 3), InputAt(input, i - 2), InputAt(input, i - 1), fraction)
  }

  lemma {:induction false} BurstFrame(sample: Tap -> Frame, t: Tap, ratio: real, k: nat)
    requires ratio > 0.0 && k < |Burst(sample, t, ratio)|
    ensures t.fraction + Times(k, ratio) <= 1.0
    ensures Burst(sample, t, ratio)[k] == sample(t.(fraction := t.fraction + Times(k, ratio)))
    decreases k
  {
    if k > 0 {
      var u := t.(fraction := t.fraction + ratio);
      BurstFrame(sample, u, ratio, k - 1);
      assert u.fraction + Times(k - 1, ratio) == t.fraction + Times(k, ratio);
    }
  }

  /** Frame `k` of the rest of a stream, after `m` frames from the first `j` inputs. */
  lemma {:induction false} FrameOfRest(sample: Tap -> Frame, ratio: real, input: seq<Frame>, j: nat, m: nat, k: nat)
    returns (i: nat)
    requires ratio > 0.0 && j <= |input|
    requires Times(m, ratio) > j as real || (m == 0 && j == 0)
    requires k < |Stream(sample, TapAt(input, j, Times(m, ratio) - j as real), ratio, input[j..])|
    ensures i < |input| && Times(m + k, ratio) <= (i + 1) as real
    ensures Times(m + k, ratio) > i as real || (m + k == 0 && i == 0)
    ensures Stream(sample, TapAt(input, j, Times(m, ratio) - j as real), ratio, input[j..])[k]
            == sample(TapAt(input, i, Times(m + k, ratio) - i as real))
    decreases |input| - j
  {
    var t := TapAt(input, j, Times(m, ratio) - j as real);
    var burst := Burst(sample, t, ratio);
    StreamStep(sample, t, ratio, input, j);
    TimesAdds(m, k, ratio);
    if k < |burst| {
      i := j;
      BurstFrame(sample, t, ratio, k);
    } else {
      BurstLength(sample, t, ratio);
      TimesAdds(m, |burst|, ratio);
      assert Feed(t, ratio, input[j]) == TapAt(input, j + 1, Times(m + |burst|, ratio) - (j + 1) as real);
      i := FrameOfRest(sample, ratio, input, j + 1, m + |burst|, k - |burst|);
      assert m + |burst| + (k - |burst|) == m + k;
    }
  }

  /** From reset, output frame `k` is read at position `k * ratio`: with `i` the number of whole inputs before that
      position, between inputs `i - 3` and `i - 2`, the ones around them shaping the curve. */
  lemma StreamFrame(sample: Tap -> Frame, ratio: real, input: seq<Frame>, k: nat) returns (i: nat)
    requires ratio > 0.0 && k < |Stream(sample, FRESH, ratio, input)|
    ensures i < |input|
    ensures i as real < k as real * ratio <= (i + 1) as real || (k == 0 && i == 0)
    ensures Stream(sample, FRESH, ratio, input)[k] == sample(TapAt(input, i, k as real * ratio - i as real))
  {
    assert Times(0, ratio) == 0.0 && input[0..] == input;
    assert TapAt(input, 0, 0.0) == FRESH;
    i := FrameOfRest(sample, ratio, input, 0, 0, k);
    TimesIs(k, ratio);
  }

  // ----- the three readings -----

  predicate Sixteen(v: int) {
    -32768 <= v <= 32767
  }

  lemma TruncateExact(v: int)
    ensures Truncate(v as real) == v && (Sixteen(v) ==> ClampSample(v as real) == v)
  {
  }

  /** Toward zero, and never outside sixteen bits. */
  lemma ClampRange(x: real)
    ensures Sixteen(ClampSample(x))
    ensures -32768.0 <= x <= 32767.0 ==> Abs(ClampSample(x) as real) <= Abs(x) < Abs(ClampSample(x) as real) + 1.0
  {
  }

  /** At the ends of the interval every reading is the input itself. */
  lemma EndsExact(mode: Mode, v0: int, v1: int, v2: int, v3: int)
    requires Sixteen(v1) && Sixteen(v2)
    ensures Interpolate(mode, v0 as real, v1 as real, v2 as real, v3 as real, 0.0) == v1
    ensures Interpolate(mode, v0 as real, v1 as real, v2 as real, v3 as real, 1.0) == v2
  {
    TruncateExact(v1);
    TruncateExact(v2);
  }

  /** A constant passes unchanged. */
  lemma ConstantKept(mode: Mode, v: int, at: real)
    requires Sixteen(v)
    ensures Interpolate(mode, v as real, v as real, v as real, v as real, at) == v
  {
    TruncateExact(v);
    var x := v as real;
    if mode.Hermite? {
      var at2 := at * at;
      var at3 := at2 * at;
      Partition(at2, at3, x);
    }
  }

  lemma Partition(at2: real, at3: real, x: real)
    ensures (2.0 * at3 - 3.0 * at2 + 1.0) * x + (-2.0 * at3 + 3.0 * at2) * x == x
  {
  }

  /** A straight line is read as itself, by both curves; the nearest reading takes the closer end. */
  lemma LineKept(start: real, step: real, at: real)
    ensures Interpolate(Linear, start, start + step, start + 2.0 * step, start + 3.0 * step, at)
            == ClampSample(start + step + step * at)
    ensures Interpolate(Hermite, start, start + step, start + 2.0 * step, start + 3.0 * step, at)
            == ClampSample(start + step + step * at)
    ensures Interpolate(Nearest, start, start + step, start + 2.0 * step, start + 3.0 * step, at)
            == Truncate(if at < 0.5 then start + step else start + 2.0 * step)
  {
    var at2 := at * at;
    var at3 := at2 * at;
    HermiteLine(start + step, step, at, at2, at3);
  }

  lemma HermiteLine(v: real, d: real, at: real, at2: real, at3: real)
    ensures (2.0 * at3 - 3.0 * at2 + 1.0) * v + (at3 - 2.0 * at2 + at) * d + (at3 - at2) * d
            + (-2.0 * at3 + 3.0 * at2) * (v + d) == v + d * at
  {
  }

  // ----- the buffer and the queue -----

  /** The buffer is filled first, then the queue, and both together are the start of the whole. */
  lemma FrontThenQueue(all: seq<Frame>, capacity: nat)
    ensures Front(all, capacity) + Queued(all, capacity) <= all
    ensures |Front(all, capacity)| == if |all| < capacity then |all| else capacity
    ensures |Queued(all, capacity)| == if |all| <= capacity then 0
                                       else if |all| - capacity < 16384 then |all| - capacity else 16384
  {
    var (m, n) := (Least(capacity, |all|), Least(capacity + PENDING_FRAMES, |all|));
    assert all[..m] + all[m..n] == all[..n];
  }

  // ----- the correction -----

  /** A quarter of a thousandth for each millisecond beyond the tolerance, rounded up to a fine step, and no more than
      the limit allows. */
  lemma AdjustmentSize(o: Output, gap: real)
    requires Clamped(o.settings) && Abs(gap) > o.settings.tolerance as real
    ensures var exact := (Abs(gap) - o.settings.tolerance as real) / 4000.0;
            var limit := o.settings.maxPpm as real / 1000000.0;
            var a := o.Adjustment(gap);
            if exact >= limit then a == limit else a <= limit && exact <= a < exact + 0.00003125
  {
    var x := (Abs(gap) - o.settings.tolerance as real) * 8.0;
    assert x <= Ceiling(x) as real < x + 1.0;
  }

  // ----- the window of measurements -----

  /** The window after a sequence of measurements. */
  function WindowOf(depths: seq<nat>, n: nat): seq<nat> {
    if depths == [] then [] else Measured(WindowOf(depths[..|depths| - 1], n), n, depths[|depths| - 1])
  }

  /** It holds the last `n` of them, oldest first. */
  lemma {:induction false} WindowExact(depths: seq<nat>, n: nat)
    requires n > 0
    ensures WindowOf(depths, n) == if |depths| <= n then depths else depths[|depths| - n..]
  {
    if depths != [] {
      var last := |depths| - 1;
      WindowExact(depths[..last], n);
      assert depths == depths[..last] + [depths[last]];
    }
  }
}
