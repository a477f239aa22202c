/** Integer audio helpers of src/audio_capture.cpp: peak normalisation of the
    recorded buffer in place, and the diagnostic statistics of a buffer. */
module AudioCapture {
  import opened Config
  import opened CNumerics

  // ---------------------------------------------------------------------------
  // Peak detection
  // ---------------------------------------------------------------------------

  /** `(int16_t)abs(x)`: abs works on int, so abs(-32768) is 32768, which wraps
      back to -32768 when it is stored into the int16_t. */
  function AbsSample(x: Int16): (r: Int16)
    ensures x != INT16_MIN ==> r == Abs(x)
    ensures x == INT16_MIN ==> r == INT16_MIN
  {
    Wrap16(Abs(x))
  }

  /** The `max_abs` that the first loop of audio_normalize leaves behind after
      scanning `s` from left to right, starting from 0. */
  function MaxAbs(s: seq<Int16>): (m: Int16)
    ensures 0 <= m
  {
    if |s| == 0 then 0
    else
      var m := MaxAbs(s[..|s| - 1]);
      var a := AbsSample(s[|s| - 1]);
      if a > m then a else m
  }

  /** max_abs is the largest magnitude among the samples other than -32768,
      or 0 when there is none. */
  lemma {:induction false} MaxAbsIsLargestMagnitude(s: seq<Int16>)
    ensures forall i :: 0 <= i < |s| && s[i] != INT16_MIN ==> Abs(s[i]) <= MaxAbs(s)
    ensures MaxAbs(s) == 0 || exists i :: 0 <= i < |s| && s[i] != INT16_MIN && Abs(s[i]) == MaxAbs(s)
  {
    if |s| > 0 {
      var init := s[..|s| - 1];
      MaxAbsIsLargestMagnitude(init);
      assert forall i :: 0 <= i < |init| ==> s[i] == init[i];
    }
  }

  /** A buffer counts as silent exactly when every sample is 0 or -32768. */
  lemma SilentIffOnlyZeroOrMinimum(s: seq<Int16>)
    ensures MaxAbs(s) == 0 <==> forall i :: 0 <= i < |s| ==> s[i] == 0 || s[i] == INT16_MIN
  {
    MaxAbsIsLargestMagnitude(s);
  }

  /** In particular a full-scale negative pulse in silence is itself "silence". */
  lemma MinimumPulseIsSilent()
    ensures MaxAbs([0, INT16_MIN, 0]) == 0
  {
    SilentIffOnlyZeroOrMinimum([0, INT16_MIN, 0]);
  }

  // ---------------------------------------------------------------------------
  // Gain
  // ---------------------------------------------------------------------------

  /** `pow(10, target_db / 20)`: the target level as a fraction of full scale. */
  function TargetLinear(pow: (real, real) -> real, targetDb: real): real
  {
    pow(10.0, targetDb / 20.0)
  }

  /** The default `target_db` of audio_normalize, declared in src/audio_capture.h. */
  const DEFAULT_TARGET_DB: real := -1.0

  /** The float-to-int16_t conversion of the target peak is defined only when
      the truncated value fits an int16_t. */
  predicate TargetPeakRepresentable(pow: (real, real) -> real, targetDb: real)
  {
    INT16_MIN <= Trunc(TargetLinear(pow, targetDb) * 32767.0) <= INT16_MAX
  }

  /** `target_peak = (int16_t)(target_linear * 32767)`: truncated, not rounded. */
  function TargetPeak(pow: (real, real) -> real, targetDb: real): Int16
    requires TargetPeakRepresentable(pow, targetDb)
  {
    Trunc(TargetLinear(pow, targetDb) * 32767.0)
  }

  /** A target at or below full scale (a linear level in [0, 1], as
      10^(dB/20) is for every dB <= 0, the default -1 included) gives a
      defined target_peak in [0, 32767]. */
  lemma TargetWithinFullScale(pow: (real, real) -> real, targetDb: real)
    requires 0.0 <= TargetLinear(pow, targetDb) <= 1.0
    ensures TargetPeakRepresentable(pow, targetDb)
    ensures 0 <= TargetPeak(pow, targetDb) <= INT16_MAX
  {
    var x := TargetLinear(pow, targetDb) * 32767.0;
    MulMonotone(0.0, TargetLinear(pow, targetDb), 32767.0);
    MulMonotone(TargetLinear(pow, targetDb), 1.0, 32767.0);
    TruncWithin(x, INT16_MAX);
    TruncShrinks(x);
  }

  /** One rewritten sample: `constrain((int32_t)(x * gain), -32768, 32767)`. */
  function ScaleSample(x: Int16, gain: real): Int16
  {
    Clamp(Trunc(x as real * gain), INT16_MIN, INT16_MAX)
  }

  /** The whole buffer after the second loop of audio_normalize. */
  function Rescaled(s: seq<Int16>, gain: real): (r: seq<Int16>)
    ensures |r| == |s|
  {
    seq(|s|, i requires 0 <= i < |s| => ScaleSample(s[i], gain))
  }

  /** With |gain| <= 32768 the product x * gain before the int32_t conversion
      is at most 2^30 in magnitude, so the conversion is defined. */
  lemma ScaledFitsInt32(x: Int16, gain: real)
    requires -32768.0 <= gain <= 32768.0
    ensures INT32_MIN <= Trunc(x as real * gain) <= INT32_MAX
  {
    ProductBound(x as real, gain);
    TruncShrinks(x as real * gain);
  }

  /** |target_peak| <= 32768 and max_abs >= 1 give |gain| <= 32768. */
  lemma GainBound(targetPeak: Int16, maxAbs: int)
    requires 1 <= maxAbs
    ensures -32768.0 <= targetPeak as real / maxAbs as real <= 32768.0
  {
    var g := targetPeak as real / maxAbs as real;
    assert g * maxAbs as real == targetPeak as real;
    if g > 0.0 {
      MulMonotone(1.0, maxAbs as real, g);
    } else {
      MulMonotone(1.0, maxAbs as real, -g);
    }
  }

  lemma ProductBound(x: real, g: real)
    requires -32768.0 <= x <= 32768.0 && -32768.0 <= g <= 32768.0
    ensures -1073741824.0 <= x * g <= 1073741824.0
  {
    var ax := if x < 0.0 then -x else x;
    var ag := if g < 0.0 then -g else g;
    MulMonotone(0.0, ax, ag);
    MulMonotone(ax, 32768.0, ag);
    MulMonotone(ag, 32768.0, 32768.0);
    assert 32768.0 * ag == ag * 32768.0;
    assert 0.0 <= ax * ag <= 1073741824.0;
    if x < 0.0 && g < 0.0 {
      assert x * g == ax * ag;
    } else if x < 0.0 {
      assert x * g == -(ax * ag);
    } else if g < 0.0 {
      assert x * g == -(ax * ag);
    } else {
      assert x * g == ax * ag;
    }
  }

  lemma MulMonotone(a: real, b: real, c: real)
    requires a <= b && 0.0 <= c
    ensures a * c <= b * c
  {
    assert (b - a) * c >= 0.0;
  }

  /** A zero sample stays zero, whatever the gain. */
  lemma ZeroStaysZero(gain: real)
    ensures ScaleSample(0, gain) == 0
  {
  }

  /** With a positive gain the sign of a sample is kept, or it becomes zero. */
  lemma ScaleSampleKeepsSign(x: Int16, gain: real)
    requires gain > 0.0
    ensures x > 0 ==> ScaleSample(x, gain) >= 0
    ensures x < 0 ==> ScaleSample(x, gain) <= 0
  {
    if x > 0 {
      assert x as real * gain > 0.0;
    } else if x < 0 {
      assert x as real * gain < 0.0;
    }
  }

  /** A sample no louder than max_abs is scaled to at most target_peak in
      magnitude, when target_peak is positive (exact arithmetic). */
  lemma ScaleSampleWithinTarget(x: Int16, targetPeak: Int16, maxAbs: int)
    requires 0 <= targetPeak && 1 <= maxAbs && Abs(x) <= maxAbs
    ensures Abs(ScaleSample(x, targetPeak as real / maxAbs as real)) <= targetPeak
  {
    var g := targetPeak as real / maxAbs as real;
    GainFactor(targetPeak, maxAbs);
    ProductWithinPeak(x, g, maxAbs, targetPeak);
    TruncWithin(x as real * g, targetPeak);
    var t := Trunc(x as real * g);
    assert ScaleSample(x, g) == t;
  }

  /** target_peak / max_abs is non-negative and scales max_abs back to target_peak. */
  lemma GainFactor(targetPeak: int, maxAbs: int)
    requires 0 <= targetPeak && 1 <= maxAbs
    ensures 0.0 <= targetPeak as real / maxAbs as real
    ensures maxAbs as real * (targetPeak as real / maxAbs as real) == targetPeak as real
  {
  }

  /** |x| <= m and m * g == t give |x * g| <= t for g >= 0. */
  lemma ProductWithinPeak(x: int, g: real, m: int, t: int)
    requires 0.0 <= g && Abs(x) <= m && m as real * g == t as real
    ensures -(t as real) <= x as real * g <= t as real
  {
    MulMonotone(Abs(x) as real, m as real, g);
    MulMonotone(0.0, Abs(x) as real, g);
    if x < 0 {
      assert x as real * g == -(Abs(x) as real * g);
    } else {
      assert x as real * g == Abs(x) as real * g;
    }
  }

  /** Truncation keeps a value inside a symmetric integer bound. */
  lemma TruncWithin(p: real, t: int)
    requires -(t as real) <= p <= t as real
    ensures -t <= Trunc(p) <= t
  {
  }

  /** The loudest sample is scaled to exactly target_peak in magnitude (exact
      arithmetic). */
  lemma ScaleSampleHitsTarget(x: Int16, targetPeak: Int16, maxAbs: int)
    requires 0 <= targetPeak && 1 <= maxAbs && Abs(x) == maxAbs
    ensures Abs(ScaleSample(x, targetPeak as real / maxAbs as real)) == targetPeak
  {
    var g := targetPeak as real / maxAbs as real;
    GainFactor(targetPeak, maxAbs);
    ProductAtPeak(x, g, maxAbs, targetPeak);
    var n := if x >= 0 then targetPeak else -targetPeak;
    IntegralFixed(n);
    assert ScaleSample(x, g) == n;
  }

  /** |x| == m and m * g == t give x * g == t or -t, by the sign of x. */
  lemma ProductAtPeak(x: int, g: real, m: int, t: int)
    requires Abs(x) == m && m as real * g == t as real
    ensures x as real * g == (if x >= 0 then t else -t) as real
  {
    if x < 0 {
      assert x as real == -(m as real);
    }
  }

  /** After normalising a non-silent buffer that holds no -32768 sample, its
      max_abs is exactly target_peak (exact arithmetic). */
  lemma NormalizedPeakIsTarget(s: seq<Int16>, targetPeak: Int16)
    requires MaxAbs(s) != 0 && 0 <= targetPeak
    requires forall i :: 0 <= i < |s| ==> s[i] != INT16_MIN
    ensures MaxAbs(Rescaled(s, targetPeak as real / MaxAbs(s) as real)) == targetPeak
  {
    var m := MaxAbs(s);
    var r := Rescaled(s, targetPeak as real / m as real);
    MaxAbsIsLargestMagnitude(s);
    MaxAbsIsLargestMagnitude(r);
    forall i | 0 <= i < |s|
      ensures Abs(r[i]) <= targetPeak && r[i] != INT16_MIN
    {
      ScaleSampleWithinTarget(s[i], targetPeak, m);
    }
    var k :| 0 <= k < |s| && s[k] != INT16_MIN && Abs(s[k]) == m;
    ScaleSampleHitsTarget(s[k], targetPeak, m);
    assert Abs(r[k]) == targetPeak;
  }

  /** A -32768 sample does not take part in max_abs, so it can overshoot the
      target: [-32768, 20000] normalised to a peak of 10000 gives [-16384, 10000]. */
  lemma MinimumSampleOvershootsTarget()
    ensures MaxAbs([INT16_MIN, 20000]) == 20000
    ensures Rescaled([INT16_MIN, 20000], 10000.0 / 20000.0) == [-16384, 10000]
  {
    var s: seq<Int16> := [INT16_MIN, 20000];
    assert s[..1] == [INT16_MIN] && [INT16_MIN][..0] == [];
    assert AbsSample(INT16_MIN) == INT16_MIN;
    assert MaxAbs([INT16_MIN]) == 0;
    var r := Rescaled(s, 10000.0 / 20000.0);
    assert r[0] == ScaleSample(INT16_MIN, 0.5);
    assert r[1] == ScaleSample(20000, 0.5);
    IntegralFixed(-16384);
    IntegralFixed(10000);
  }

  /** First loop of audio_normalize: the peak magnitude, with abs wrapped to int16_t. */
  method PeakMagnitude(buffer: array<Int16>) returns (maxAbs: Int16)
    requires buffer.Length == AUDIO_SAMPLES
    ensures maxAbs == MaxAbs(buffer[..])
  {
    maxAbs := 0;
    for i := 0 to AUDIO_SAMPLES
      invariant maxAbs == MaxAbs(buffer[..i])
    {
      assert buffer[..i + 1][..i] == buffer[..i];
      var absVal := AbsSample(buffer[i]);
      if absVal > maxAbs {
        maxAbs := absVal;
      }
    }
    assert buffer[..AUDIO_SAMPLES] == buffer[..];
  }

  /** Second loop of audio_normalize: every sample is scaled, truncated to
      int32_t (in range, by ScaledFitsInt32) and clamped to int16_t in place. */
  method ApplyGain(buffer: array<Int16>, gain: real)
    requires buffer.Length == AUDIO_SAMPLES
    requires -32768.0 <= gain <= 32768.0
    modifies buffer
    ensures buffer[..] == Rescaled(old(buffer[..]), gain)
  {
    ghost var orig := buffer[..];
    for i := 0 to AUDIO_SAMPLES
      invariant forall j :: 0 <= j < i ==> buffer[j] == ScaleSample(orig[j], gain)
      invariant forall j :: i <= j < AUDIO_SAMPLES ==> buffer[j] == orig[j]
    {
      var x := buffer[i];
      ScaledFitsInt32(x, gain);
      var scaled: Int32 := Trunc(x as real * gain);
      buffer[i] := Clamp(scaled, INT16_MIN, INT16_MAX);
      assert buffer[i] == ScaleSample(orig[i], gain);
    }
    assert forall j :: 0 <= j < AUDIO_SAMPLES ==> buffer[..][j] == Rescaled(orig, gain)[j];
  }

  /** audio_normalize: scales the buffer in place so that its peak reaches the
      target level `targetDb` (dBFS) and returns the gain it applied; a silent
      buffer is left alone and reported with gain 1. */
  method Normalize(pow: (real, real) -> real, buffer: array<Int16>, targetDb: real := DEFAULT_TARGET_DB) returns (gain: real)
    requires buffer.Length == AUDIO_SAMPLES
    requires MaxAbs(buffer[..]) != 0 ==> TargetPeakRepresentable(pow, targetDb)
    modifies buffer
    ensures MaxAbs(old(buffer[..])) == 0 ==> gain == 1.0 && buffer[..] == old(buffer[..])
    ensures MaxAbs(old(buffer[..])) != 0 ==>
              gain == TargetPeak(pow, targetDb) as real / MaxAbs(old(buffer[..])) as real &&
              buffer[..] == Rescaled(old(buffer[..]), gain)
  {
    var maxAbs := PeakMagnitude(buffer);
    if maxAbs == 0 {
      return 1.0;
    }

    var targetLinear := pow(10.0, targetDb / 20.0);
    var targetPeak: Int16 := Trunc(targetLinear * 32767.0);
    gain := targetPeak as real / maxAbs as real;
    GainBound(targetPeak, maxAbs);
    ApplyGain(buffer, gain);
  }

  // ---------------------------------------------------------------------------
  // Statistics
  // ---------------------------------------------------------------------------

  /** AudioStats of src/audio_capture.h. */
  datatype AudioStats = AudioStats(rms: real, peakPos: Int16, peakNeg: Int16, zeroCrossings: int)

  /** Two consecutive samples lie on different sides of the split "< 0" versus
      ">= 0" (a sample of 0 counts as non-negative). */
  predicate Crosses(prev: int, cur: int)
    ensures Crosses(prev, cur) <==> ((prev < 0) != (cur < 0))
  {
    (prev >= 0 && cur < 0) || (prev < 0 && cur >= 0)
  }

  /** Zero crossings counted from left to right over adjacent pairs. */
  function ZeroCrossings(s: seq<Int16>): nat
  {
    if |s| <= 1 then 0
    else ZeroCrossings(s[..|s| - 1]) + (if Crosses(s[|s| - 2], s[|s| - 1]) then 1 else 0)
  }

  /** The indices i >= 1 at which a crossing happens between s[i-1] and s[i]. */
  function CrossingIndices(s: seq<Int16>): set<nat>
  {
    set i: nat | i < |s| && CrossingAt(s, i)
  }

  predicate CrossingAt(s: seq<Int16>, i: nat)
  {
    1 <= i < |s| && Crosses(s[i - 1], s[i])
  }

  /** The running count equals the number of crossing positions. */
  lemma {:induction false} ZeroCrossingsCountsIndices(s: seq<Int16>)
    ensures ZeroCrossings(s) == |CrossingIndices(s)|
  {
    if |s| <= 1 {
      assert CrossingIndices(s) == {};
    } else {
      var init := s[..|s| - 1];
      ZeroCrossingsCountsIndices(init);
      var n := |s| - 1;
      assert CrossingIndices(s) ==
             CrossingIndices(init) + (if Crosses(s[n - 1], s[n]) then {n} else {});
      assert n !in CrossingIndices(init);
    }
  }

  /** There are at most N-1 crossings in N samples. */
  lemma {:induction false} ZeroCrossingsAtMostPairs(s: seq<Int16>)
    requires |s| >= 1
    ensures ZeroCrossings(s) <= |s| - 1
  {
    if |s| > 1 {
      ZeroCrossingsAtMostPairs(s[..|s| - 1]);
    }
  }

  /** A buffer alternating +100, -100, +100, ... crosses at every pair. */
  lemma {:induction false} AlternatingCrossesEverywhere(s: seq<Int16>)
    requires |s| >= 1
    requires forall i :: 0 <= i < |s| ==> s[i] == if i % 2 == 0 then 100 else -100
    ensures ZeroCrossings(s) == |s| - 1
  {
    if |s| > 1 {
      var init := s[..|s| - 1];
      assert forall i :: 0 <= i < |init| ==> init[i] == s[i];
      AlternatingCrossesEverywhere(init);
      var n := |s| - 1;
      assert Crosses(s[n - 1], s[n]) by {
        if n % 2 == 0 {
          assert (n - 1) % 2 == 1;
        } else {
          assert (n - 1) % 2 == 0;
        }
      }
    }
  }

  /** Sum of squared samples, accumulated from left to right. */
  function SumSquares(s: seq<Int16>): (r: int)
    ensures 0 <= r <= |s| * 0x4000_0000
  {
    if |s| == 0 then 0
    else
      var x: int := s[|s| - 1];
      SquareBound(x);
      SumSquares(s[..|s| - 1]) + x * x
  }

  lemma SquareBound(x: int)
    requires INT16_MIN <= x <= INT16_MAX
    ensures 0 <= x * x <= 0x4000_0000
  {
    var a := Abs(x);
    assert x * x == a * a;
    IntMulMonotone(a, 0x8000, a);
    IntMulMonotone(a, 0x8000, 0x8000);
  }

  lemma IntMulMonotone(a: int, b: int, c: int)
    requires a <= b && 0 <= c
    ensures a * c <= b * c
  {
    assert (b - a) * c >= 0;
  }

  /** For a full recording the sum of squares fits the int64_t accumulator
      with room to spare, and is exactly representable as a double (< 2^53),
      so the conversion before the division is exact. */
  lemma SumSquaresFitsInt64(s: seq<Int16>)
    requires |s| == AUDIO_SAMPLES
    ensures SumSquares(s) < 0x20_0000_0000_0000
    ensures SumSquares(s) <= INT64_MAX
  {
  }

  /** One more sample extends the running sum of squares and crossing count. */
  lemma StatsStep(s: seq<Int16>, i: nat)
    requires i < |s| <= AUDIO_SAMPLES
    ensures SumSquares(s[..i + 1]) == SumSquares(s[..i]) + (s[i] as int) * (s[i] as int)
    ensures SumSquares(s[..i + 1]) <= INT64_MAX
    ensures ZeroCrossings(s[..i + 1]) == ZeroCrossings(s[..i]) + if i > 0 && Crosses(s[i - 1], s[i]) then 1 else 0
  {
    assert s[..i + 1][..i] == s[..i];
  }

  /** audio_get_stats: one pass over the buffer that computes the peaks, the
      number of zero crossings and the RMS level (through the platform's sqrt). */
  method GetStats(buffer: array<Int16>, sqrt: real -> real) returns (stats: AudioStats)
    requires buffer.Length == AUDIO_SAMPLES
    ensures (exists k :: 0 <= k < buffer.Length && buffer[k] == stats.peakPos) &&
            forall k :: 0 <= k < buffer.Length ==> buffer[k] <= stats.peakPos
    ensures (exists k :: 0 <= k < buffer.Length && buffer[k] == stats.peakNeg) &&
            forall k :: 0 <= k < buffer.Length ==> stats.peakNeg <= buffer[k]
    ensures stats.zeroCrossings == ZeroCrossings(buffer[..])
    ensures stats.rms == sqrt(SumSquares(buffer[..]) as real / AUDIO_SAMPLES as real)
  {
    var peakPos: Int16 := INT16_MIN;
    var peakNeg: Int16 := INT16_MAX;
    var zeroCrossings: Int32 := 0;
    var sumSquared: Int64 := 0;
    var prevSample: Int16 := 0;
    ghost var posAt, negAt := 0, 0;

    for i := 0 to AUDIO_SAMPLES
      invariant sumSquared == SumSquares(buffer[..i])
      invariant zeroCrossings == ZeroCrossings(buffer[..i]) <= i
      invariant i > 0 ==> prevSample == buffer[i - 1]
      invariant i == 0 ==> posAt == negAt == 0 && peakPos == INT16_MIN && peakNeg == INT16_MAX
      invariant i > 0 ==> posAt < i && buffer[posAt] == peakPos
      invariant i > 0 ==> negAt < i && buffer[negAt] == peakNeg
      invariant forall k :: 0 <= k < i ==> peakNeg <= buffer[k] <= peakPos
    {
      StatsStep(buffer[..], i);
      var sample := buffer[i];
      sumSquared := sumSquared + (sample as int) * (sample as int);

      if sample > peakPos {
        peakPos := sample;
        posAt := i;
      }
      if sample < peakNeg {
        peakNeg := sample;
        negAt := i;
      }

      if i > 0 && ((prevSample >= 0 && sample < 0) || (prevSample < 0 && sample >= 0)) {
        zeroCrossings := zeroCrossings + 1;
      }
      prevSample := sample;
    }
    assert buffer[..AUDIO_SAMPLES] == buffer[..];

    stats := AudioStats(sqrt(sumSquared as real / AUDIO_SAMPLES as real), peakPos, peakNeg, zeroCrossings);
  }
}
