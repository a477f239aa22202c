/** MFCC extraction of src/mfcc_extractor.cpp: the window, filterbank and DCT
    bases built once, and the per-frame pipeline window -> FFT -> magnitude ->
    mel energies -> log -> DCT, written into the coefficient-major feature
    buffer. The float kernels (cos, sqrt, log and the FFT library) are
    uninterpreted: the structure around them (framing, zero padding, scratch
    reuse, filter shapes, dot products and layout) is what is modelled. */
module Mfcc {
  import opened Config
  import opened CNumerics

  /** Number of one-sided spectrum bins, `(N_FFT / 2) + 1` (see MelColsValue);
      written as a literal so that row offsets stay linear arithmetic. */
  const MEL_COLS: nat := 1025
  lemma MelColsValue()
    ensures MEL_COLS == N_FFT / 2 + 1
  {
  }

  /** The 1e-10 added to every mel energy before the log. */
  const LOG_FLOOR: real := 0.0000000001
  /** Arduino's PI. */
  const PI: real := 3.1415926535897932384626433832795

  /** The FFT library's forward transform, as an abstract map: bin k of the
      (real, imaginary) result for the given (real, imaginary) input arrays. */
  type Fft = (seq<real>, seq<real>, nat) -> (real, real)

  // ---------------------------------------------------------------------------
  // Flat layouts of the basis matrices
  // ---------------------------------------------------------------------------

  function FbIndex(m: nat, k: nat): nat
  {
    m * MEL_COLS + k
  }

  function DctIndex(i: nat, j: nat): nat
  {
    i * N_MELS + j
  }

  // ---------------------------------------------------------------------------
  // Basis coefficients
  // ---------------------------------------------------------------------------

  function HammingCoefficient(cos: real -> real, i: nat): real
  {
    0.54 - 0.46 * cos(2.0 * PI * i as real / (N_FFT - 1) as real)
  }

  function DctCoefficient(libm: Libm, i: nat, j: nat): real
  {
    libm.cos(PI * i as real * (j as real + 0.5) / N_MELS as real) * libm.sqrt(2.0 / N_MELS as real)
  }

  /** The bin vector of init_mel_filterbank: N_MELS + 2 break points, never
      negative (they are floors of non-negative frequencies). */
  predicate ValidBins(bins: seq<int>)
  {
    |bins| == N_MELS + 2 && forall i :: 0 <= i < |bins| ==> 0 <= bins[i]
  }

  /** The value init_mel_filterbank leaves in row m, column k: rising on
      [left, center), falling on [center, right), zero elsewhere and in every
      column >= MEL_COLS. */
  function FilterWeight(bins: seq<int>, m: nat, k: int): real
    requires ValidBins(bins) && m < N_MELS
  {
    var left, center, right := bins[m], bins[m + 1], bins[m + 2];
    if k >= MEL_COLS then 0.0
    else if left <= k < center then (k - left) as real / (center - left) as real
    else if center <= k < right then (right - k) as real / (right - center) as real
    else 0.0
  }

  /** The break points of the filters never go down. init_mel_filterbank
      builds them so, but the code does not depend on it. */
  predicate Nondecreasing(bins: seq<int>)
  {
    forall i, j :: 0 <= i <= j < |bins| ==> bins[i] <= bins[j]
  }

  /** A filter is nonzero only strictly to the right of its left edge, inside
      one of its two halves, and below MEL_COLS; with nondecreasing break points
      that is inside [left, right). */
  lemma FilterWeightSupport(bins: seq<int>, m: nat, k: int)
    requires ValidBins(bins) && m < N_MELS
    requires FilterWeight(bins, m, k) != 0.0
    ensures k < MEL_COLS
    ensures bins[m] < k < bins[m + 1] || bins[m + 1] <= k < bins[m + 2]
    ensures Nondecreasing(bins) ==> bins[m] <= k < bins[m + 2]
  {
    if Nondecreasing(bins) {
      assert bins[m] <= bins[m + 1] <= bins[m + 2];
    }
  }

  /** Every filter weight lies in [0, 1]. */
  lemma FilterWeightRange(bins: seq<int>, m: nat, k: int)
    requires ValidBins(bins) && m < N_MELS
    ensures 0.0 <= FilterWeight(bins, m, k) <= 1.0
  {
    var left, center, right := bins[m], bins[m + 1], bins[m + 2];
    if k < MEL_COLS && left <= k < center {
      DivisionAtMostOne(k - left, center - left);
    } else if k < MEL_COLS && center <= k < right {
      DivisionAtMostOne(right - k, right - center);
    }
  }

  lemma DivisionAtMostOne(a: int, b: int)
    requires 0 <= a <= b && 0 < b
    ensures 0.0 <= a as real / b as real <= 1.0
  {
    var q := a as real / b as real;
    assert q * b as real == a as real;
  }

  /** The shape of a triangle: 0 at its left edge (unless the rising half is
      empty), exactly 1 at its centre when the falling half is non-empty and
      the centre is a stored column, and 0 at its right edge for
      nondecreasing break points. */
  lemma FilterWeightShape(bins: seq<int>, m: nat)
    requires ValidBins(bins) && m < N_MELS
    ensures bins[m] < bins[m + 1] ==> FilterWeight(bins, m, bins[m]) == 0.0
    ensures bins[m + 1] < bins[m + 2] && bins[m + 1] < MEL_COLS ==> FilterWeight(bins, m, bins[m + 1]) == 1.0
    ensures bins[m] <= bins[m + 1] <= bins[m + 2] ==> FilterWeight(bins, m, bins[m + 2]) == 0.0
    ensures bins[m + 1] < bins[m + 2] && bins[m + 1] < MEL_COLS ==>
              forall k :: FilterWeight(bins, m, k) <= FilterWeight(bins, m, bins[m + 1])
  {
    var center, right := bins[m + 1], bins[m + 2];
    if center < right && center < MEL_COLS {
      var d := (right - center) as real;
      assert FilterWeight(bins, m, center) == d / d;
    }
    forall k
      ensures 0.0 <= FilterWeight(bins, m, k) <= 1.0
    {
      FilterWeightRange(bins, m, k);
    }
  }

  // ---------------------------------------------------------------------------
  // Per-frame specification
  // ---------------------------------------------------------------------------

  /** `offset = frame_index * HOP_LENGTH` */
  function FrameOffset(f: nat): nat
  {
    f * HOP_LENGTH
  }

  /** Slot i of the real scratch array after windowing frame f: the windowed
      sample, or 0 past the end of the recording. */
  function WindowedSample(audio: seq<Int16>, window: seq<real>, f: nat, i: nat): real
    requires |audio| == AUDIO_SAMPLES && |window| == N_FFT && i < N_FFT
  {
    if FrameOffset(f) + i < AUDIO_SAMPLES then audio[FrameOffset(f) + i] as real * window[i] else 0.0
  }

  function Windowed(audio: seq<Int16>, window: seq<real>, f: nat): (r: seq<real>)
    requires |audio| == AUDIO_SAMPLES && |window| == N_FFT
    ensures |r| == N_FFT
  {
    seq(N_FFT, i requires 0 <= i < N_FFT => WindowedSample(audio, window, f, i))
  }

  function Zeros(n: nat): (r: seq<real>)
    ensures |r| == n && forall i :: 0 <= i < n ==> r[i] == 0.0
  {
    seq(n, _ => 0.0)
  }

  /** The real and imaginary arrays after FFT.compute. */
  function SpectrumRe(fft: Fft, re: seq<real>, im: seq<real>): (r: seq<real>)
    ensures |r| == N_FFT
  {
    seq(N_FFT, k requires 0 <= k < N_FFT => fft(re, im, k).0)
  }

  function SpectrumIm(fft: Fft, re: seq<real>, im: seq<real>): (r: seq<real>)
    ensures |r| == N_FFT
  {
    seq(N_FFT, k requires 0 <= k < N_FFT => fft(re, im, k).1)
  }

  /** `sqrt(re^2 + im^2)` for the MEL_COLS bins of the one-sided spectrum. */
  function Magnitudes(sqrt: real -> real, re: seq<real>, im: seq<real>): (r: seq<real>)
    requires |re| >= MEL_COLS && |im| >= MEL_COLS
    ensures |r| == MEL_COLS
  {
    seq(MEL_COLS, i requires 0 <= i < MEL_COLS => BinMagnitude(sqrt, re[i], im[i]))
  }

  /** The magnitude of one complex bin. */
  function BinMagnitude(sqrt: real -> real, re: real, im: real): real
  {
    sqrt(re * re + im * im)
  }

  /** Dot product, accumulated from the first element to the last. */
  function Dot(a: seq<real>, b: seq<real>): real
    requires |a| == |b|
  {
    if |a| == 0 then 0.0 else Dot(a[..|a| - 1], b[..|b| - 1]) + a[|a| - 1] * b[|b| - 1]
  }

  function MelRow(fb: seq<real>, m: nat): (r: seq<real>)
    requires |fb| == N_MELS * MEL_COLS && m < N_MELS
    ensures |r| == MEL_COLS && forall k :: 0 <= k < MEL_COLS ==> r[k] == fb[FbIndex(m, k)]
  {
    fb[FbIndex(m, 0)..FbIndex(m, 0) + MEL_COLS]
  }

  function DctRow(dct: seq<real>, i: nat): (r: seq<real>)
    requires |dct| == N_MFCC * N_MELS && i < N_MFCC
    ensures |r| == N_MELS && forall j :: 0 <= j < N_MELS ==> r[j] == dct[DctIndex(i, j)]
  {
    dct[DctIndex(i, 0)..DctIndex(i, 0) + N_MELS]
  }

  /** `log(sum_k mag[k] * fb[m][k] + 1e-10)` for every filter m. */
  function MelEnergies(log: real -> real, mag: seq<real>, fb: seq<real>): (r: seq<real>)
    requires |mag| == MEL_COLS && |fb| == N_MELS * MEL_COLS
    ensures |r| == N_MELS
  {
    seq(N_MELS, m requires 0 <= m < N_MELS => log(Dot(mag, MelRow(fb, m)) + LOG_FLOOR))
  }

  /** Coefficient i: the log-mel vector dotted with DCT row i. */
  function Cepstrum(logMel: seq<real>, dct: seq<real>): (r: seq<real>)
    requires |logMel| == N_MELS && |dct| == N_MFCC * N_MELS
    ensures |r| == N_MFCC
  {
    seq(N_MFCC, i requires 0 <= i < N_MFCC => Dot(logMel, DctRow(dct, i)))
  }

  /** The N_MFCC coefficients of frame f: a function of the audio, the frame
      index and the (immutable) bases only. */
  function FrameMfccs(libm: Libm, fft: Fft, window: seq<real>, fb: seq<real>, dct: seq<real>,
                      audio: seq<Int16>, f: nat): (r: seq<real>)
    requires |window| == N_FFT && |fb| == N_MELS * MEL_COLS && |dct| == N_MFCC * N_MELS
    requires |audio| == AUDIO_SAMPLES
    ensures |r| == N_MFCC
  {
    var re := Windowed(audio, window, f);
    var im := Zeros(N_FFT);
    var mag := Magnitudes(libm.sqrt, SpectrumRe(fft, re, im), SpectrumIm(fft, re, im));
    Cepstrum(MelEnergies(libm.log, mag, fb), dct)
  }

  /** `(coefficient - MFCC_MEAN) / MFCC_STD` */
  function Normalized(c: real): real
  {
    (c - MFCC_MEAN) / MFCC_STD
  }

  /** With the shipped constants, frame f < N_FRAMES lies wholly inside the
      recording, so windowing never takes the zero-padding branch. */
  lemma NoFrameIsPadded(audio: seq<Int16>, window: seq<real>, f: nat)
    requires |audio| == AUDIO_SAMPLES && |window| == N_FFT && f < N_FRAMES
    ensures forall i :: 0 <= i < N_FFT ==>
              Windowed(audio, window, f)[i] == audio[FrameOffset(f) + i] as real * window[i]
  {
    assert FrameOffset(f) + N_FFT <= AUDIO_SAMPLES;
  }

  /** Normalisation is invertible, so no information is lost by it. */
  lemma NormalizedInvertible(c: real)
    ensures Normalized(c) * MFCC_STD + MFCC_MEAN == c
  {
  }

  // ---------------------------------------------------------------------------
  // The extractor: bases and scratch buffers (module state of the source)
  // ---------------------------------------------------------------------------

  class MfccExtractor {
    const libm: Libm
    const fft: Fft
    /** Scratch arrays, reused by every frame. */
    const vReal: array<real>
    const vImag: array<real>
    /** Bases, built once by the constructor. */
    const melFilterbank: array<real>
    const dctMatrix: array<real>
    const hammingWindow: array<real>

    ghost predicate Valid()
    {
      && vReal.Length == N_FFT && vImag.Length == N_FFT
      && melFilterbank.Length == N_MELS * MEL_COLS
      && dctMatrix.Length == N_MFCC * N_MELS
      && hammingWindow.Length == N_FFT
      && vReal != vImag
      && vReal != melFilterbank && vReal != dctMatrix && vReal != hammingWindow
      && vImag != melFilterbank && vImag != dctMatrix && vImag != hammingWindow
    }

    /** An output array of the extractor shares no storage with its own arrays. */
    ghost predicate Separate(out: array<real>)
    {
      out != vReal && out != vImag && out != melFilterbank && out != dctMatrix && out != hammingWindow
    }

    /** mfcc_init, given that every allocation succeeds: allocates the five
        arrays and builds the window, the filterbank (from the bin vector)
        and the DCT matrix. */
    constructor Init(libm: Libm, fft: Fft, bins: seq<int>)
      requires ValidBins(bins)
      ensures Valid() && this.libm == libm && this.fft == fft
      ensures fresh(vReal) && fresh(vImag) && fresh(melFilterbank) && fresh(dctMatrix) && fresh(hammingWindow)
      ensures forall i :: 0 <= i < N_FFT ==> hammingWindow[i] == HammingCoefficient(libm.cos, i)
      ensures forall m, k :: 0 <= m < N_MELS && 0 <= k < MEL_COLS ==>
                melFilterbank[FbIndex(m, k)] == FilterWeight(bins, m, k)
      ensures forall i, j :: 0 <= i < N_MFCC && 0 <= j < N_MELS ==>
                dctMatrix[DctIndex(i, j)] == DctCoefficient(libm, i, j)
    {
      this.libm := libm;
      this.fft := fft;
      vReal := new real[N_FFT];
      vImag := new real[N_FFT];
      melFilterbank := new real[N_MELS * MEL_COLS];
      dctMatrix := new real[N_MFCC * N_MELS];
      hammingWindow := new real[N_FFT];
      new;
      InitHammingWindow();
      InitMelFilterbank(bins);
      InitDctMatrix();
    }

    /** init_hamming_window */
    method InitHammingWindow()
      requires Valid()
      modifies hammingWindow
      ensures forall i :: 0 <= i < N_FFT ==> hammingWindow[i] == HammingCoefficient(libm.cos, i)
    {
      for i := 0 to N_FFT
        invariant forall i' :: 0 <= i' < i ==> hammingWindow[i'] == HammingCoefficient(libm.cos, i')
      {
        hammingWindow[i] := HammingCoefficient(libm.cos, i);
      }
    }

    /** init_mel_filterbank from its bin vector: the memset, then for every
        filter its rising and its falling half, skipping columns >= MEL_COLS. */
    method InitMelFilterbank(bins: seq<int>)
      requires Valid() && ValidBins(bins)
      modifies melFilterbank
      ensures forall m, k :: 0 <= m < N_MELS && 0 <= k < MEL_COLS ==>
                melFilterbank[FbIndex(m, k)] == FilterWeight(bins, m, k)
    {
      for j := 0 to N_MELS * MEL_COLS
        invariant forall j' :: 0 <= j' < j ==> melFilterbank[j'] == 0.0
      {
        melFilterbank[j] := 0.0;
      }
      assert forall m, k :: 0 <= m < N_MELS && 0 <= k < MEL_COLS ==> melFilterbank[FbIndex(m, k)] == 0.0;

      for m := 0 to N_MELS
        invariant forall m', k :: 0 <= m' < m && 0 <= k < MEL_COLS ==>
                    melFilterbank[FbIndex(m', k)] == FilterWeight(bins, m', k)
        invariant forall m', k :: m <= m' < N_MELS && 0 <= k < MEL_COLS ==>
                    melFilterbank[FbIndex(m', k)] == 0.0
      {
        FillRising(bins, m);
        FillFalling(bins, m);
        assert forall k :: 0 <= k < MEL_COLS ==> melFilterbank[FbIndex(m, k)] == FilterWeight(bins, m, k);
      }
    }

    /** The rising half of filter m: `fb[m][k] = (k - left) / (center - left)`
        for left <= k < center, k < MEL_COLS. Only row m is touched. */
    method FillRising(bins: seq<int>, m: nat)
      requires Valid() && ValidBins(bins) && m < N_MELS
      requires forall k :: 0 <= k < MEL_COLS ==> melFilterbank[FbIndex(m, k)] == 0.0
      modifies melFilterbank
      ensures forall k :: 0 <= k < MEL_COLS ==>
                melFilterbank[FbIndex(m, k)] ==
                  if bins[m] <= k < bins[m + 1] then FilterWeight(bins, m, k) else 0.0
      ensures forall j :: 0 <= j < melFilterbank.Length && (j < FbIndex(m, 0) || FbIndex(m, 0) + MEL_COLS <= j) ==>
                melFilterbank[j] == old(melFilterbank[j])
    {
      var leftBin, centerBin := bins[m], bins[m + 1];
      var k := leftBin;
      while k < centerBin
        invariant k == leftBin || leftBin < k <= centerBin
        invariant forall c :: 0 <= c < MEL_COLS ==>
                    melFilterbank[FbIndex(m, c)] == if leftBin <= c < k then FilterWeight(bins, m, c) else 0.0
        invariant forall j :: 0 <= j < melFilterbank.Length && (j < FbIndex(m, 0) || FbIndex(m, 0) + MEL_COLS <= j) ==>
                    melFilterbank[j] == old(melFilterbank[j])
        decreases centerBin - k
      {
        if k < MEL_COLS {
          melFilterbank[FbIndex(m, k)] := (k - leftBin) as real / (centerBin - leftBin) as real;
        }
        k := k + 1;
      }
    }

    /** The falling half of filter m: `fb[m][k] = (right - k) / (right - center)`
        for center <= k < right, k < MEL_COLS. Only row m is touched. */
    method FillFalling(bins: seq<int>, m: nat)
      requires Valid() && ValidBins(bins) && m < N_MELS
      requires forall k :: 0 <= k < MEL_COLS ==>
                 melFilterbank[FbIndex(m, k)] ==
                   if bins[m] <= k < bins[m + 1] then FilterWeight(bins, m, k) else 0.0
      modifies melFilterbank
      ensures forall k :: 0 <= k < MEL_COLS ==> melFilterbank[FbIndex(m, k)] == FilterWeight(bins, m, k)
      ensures forall j :: 0 <= j < melFilterbank.Length && (j < FbIndex(m, 0) || FbIndex(m, 0) + MEL_COLS <= j) ==>
                melFilterbank[j] == old(melFilterbank[j])
    {
      var leftBin, centerBin, rightBin := bins[m], bins[m + 1], bins[m + 2];
      var k := centerBin;
      while k < rightBin
        invariant k == centerBin || centerBin < k <= rightBin
        invariant forall c :: 0 <= c < MEL_COLS ==>
                    melFilterbank[FbIndex(m, c)] ==
                      if leftBin <= c < centerBin || centerBin <= c < k then FilterWeight(bins, m, c) else 0.0
        invariant forall j :: 0 <= j < melFilterbank.Length && (j < FbIndex(m, 0) || FbIndex(m, 0) + MEL_COLS <= j) ==>
                    melFilterbank[j] == old(melFilterbank[j])
        decreases rightBin - k
      {
        if k < MEL_COLS {
          melFilterbank[FbIndex(m, k)] := (rightBin - k) as real / (rightBin - centerBin) as real;
        }
        k := k + 1;
      }
    }

    /** init_dct_matrix */
    method InitDctMatrix()
      requires Valid()
      modifies dctMatrix
      ensures forall i, j :: 0 <= i < N_MFCC && 0 <= j < N_MELS ==>
                dctMatrix[DctIndex(i, j)] == DctCoefficient(libm, i, j)
    {
      for i := 0 to N_MFCC
        invariant forall i', j :: 0 <= i' < i && 0 <= j < N_MELS ==>
                    dctMatrix[DctIndex(i', j)] == DctCoefficient(libm, i', j)
      {
        for j := 0 to N_MELS
          invariant forall i', j' :: 0 <= i' < i && 0 <= j' < N_MELS ==>
                      dctMatrix[DctIndex(i', j')] == DctCoefficient(libm, i', j')
          invariant forall j' :: 0 <= j' < j ==> dctMatrix[DctIndex(i, j')] == DctCoefficient(libm, i, j')
        {
          dctMatrix[DctIndex(i, j)] := DctCoefficient(libm, i, j);
        }
      }
    }

    // -------------------------------------------------------------------------
    // extract_frame, step by step
    // -------------------------------------------------------------------------

    /** Step 1: both scratch arrays are overwritten in full: the windowed
        frame (zero past the end of the recording) and an all-zero imaginary part. */
    method LoadFrame(audio: array<Int16>, f: nat)
      requires Valid() && audio.Length == AUDIO_SAMPLES
      modifies vReal, vImag
      ensures vReal[..] == Windowed(audio[..], hammingWindow[..], f)
      ensures vImag[..] == Zeros(N_FFT)
    {
      var offset := f * HOP_LENGTH;
      for i := 0 to N_FFT
        invariant forall i' :: 0 <= i' < i ==> vReal[i'] == WindowedSample(audio[..], hammingWindow[..], f, i')
        invariant forall i' :: 0 <= i' < i ==> vImag[i'] == 0.0
      {
        if offset + i < AUDIO_SAMPLES {
          vReal[i] := audio[offset + i] as real * hammingWindow[i];
        } else {
          vReal[i] := 0.0;
        }
        vImag[i] := 0.0;
      }
      assert forall i :: 0 <= i < N_FFT ==> vReal[..][i] == Windowed(audio[..], hammingWindow[..], f)[i];
    }

    /** Step 2: `FFT.compute(vReal, vImag, N_FFT, Forward)` replaces both
        arrays by the transform of their previous contents. */
    method Transform()
      requires Valid()
      modifies vReal, vImag
      ensures vReal[..] == SpectrumRe(fft, old(vReal[..]), old(vImag[..]))
      ensures vImag[..] == SpectrumIm(fft, old(vReal[..]), old(vImag[..]))
    {
      var re, im := vReal[..], vImag[..];
      forall k | 0 <= k < N_FFT {
        vReal[k] := fft(re, im, k).0;
      }
      forall k | 0 <= k < N_FFT {
        vImag[k] := fft(re, im, k).1;
      }
      assert forall k :: 0 <= k < N_FFT ==> vReal[..][k] == SpectrumRe(fft, re, im)[k];
      assert forall k :: 0 <= k < N_FFT ==> vImag[..][k] == SpectrumIm(fft, re, im)[k];
    }

    /** Step 3: the magnitudes of the MEL_COLS one-sided bins replace the
        real parts in place; the rest of both arrays is left as it was. */
    method Magnitude()
      requires Valid()
      modifies vReal
      ensures vReal[..MEL_COLS] == Magnitudes(libm.sqrt, old(vReal[..]), vImag[..])
      ensures vReal[MEL_COLS..] == old(vReal[MEL_COLS..])
    {
      ghost var re := vReal[..];
      for i := 0 to MEL_COLS
        invariant forall i' :: 0 <= i' < i ==> vReal[i'] == BinMagnitude(libm.sqrt, re[i'], vImag[i'])
        invariant forall i' :: i <= i' < N_FFT ==> vReal[i'] == re[i']
      {
        vReal[i] := BinMagnitude(libm.sqrt, vReal[i], vImag[i]);
      }
      assert forall i :: 0 <= i < MEL_COLS ==> vReal[..MEL_COLS][i] == Magnitudes(libm.sqrt, re, vImag[..])[i];
    }

    /** Step 4: the log mel energies replace the first N_MELS imaginary slots. */
    method ApplyMelFilterbank()
      requires Valid()
      modifies vImag
      ensures vImag[..N_MELS] == MelEnergies(libm.log, vReal[..MEL_COLS], melFilterbank[..])
      ensures vImag[N_MELS..] == old(vImag[N_MELS..])
    {
      ghost var mag := vReal[..MEL_COLS];
      ghost var fb := melFilterbank[..];
      for m := 0 to N_MELS
        invariant forall m' :: 0 <= m' < m ==> vImag[m'] == libm.log(Dot(mag, MelRow(fb, m')) + LOG_FLOOR)
        invariant forall j :: N_MELS <= j < N_FFT ==> vImag[j] == old(vImag[j])
      {
        var energy := MelEnergy(m);
        vImag[m] := libm.log(energy + LOG_FLOOR);
      }
      assert forall m :: 0 <= m < N_MELS ==>
               vImag[..N_MELS][m] == MelEnergies(libm.log, mag, fb)[m];
    }

    /** The inner loop of step 4: the energy of filter m, sum_k mag[k] * fb[m][k]. */
    method MelEnergy(m: nat) returns (energy: real)
      requires Valid() && m < N_MELS
      ensures energy == Dot(vReal[..MEL_COLS], MelRow(melFilterbank[..], m))
    {
      ghost var mag := vReal[..MEL_COLS];
      ghost var row := MelRow(melFilterbank[..], m);
      energy := 0.0;
      for k := 0 to MEL_COLS
        invariant energy == Dot(mag[..k], row[..k])
      {
        assert mag[..k + 1][..k] == mag[..k];
        assert row[..k + 1][..k] == row[..k];
        energy := energy + vReal[k] * melFilterbank[FbIndex(m, k)];
      }
      assert mag[..MEL_COLS] == mag && row[..MEL_COLS] == row;
    }

    /** Step 5: coefficient i is the log-mel vector dotted with DCT row i. */
    method Dct(mfccs: array<real>)
      requires Valid() && Separate(mfccs) && mfccs.Length == N_MFCC
      modifies mfccs
      ensures mfccs[..] == Cepstrum(vImag[..N_MELS], dctMatrix[..])
    {
      ghost var logMel := vImag[..N_MELS];
      ghost var dct := dctMatrix[..];
      for i := 0 to N_MFCC
        invariant forall i' :: 0 <= i' < i ==> mfccs[i'] == Dot(logMel, DctRow(dct, i'))
      {
        var sum := DctSum(i);
        mfccs[i] := sum;
      }
      assert forall i :: 0 <= i < N_MFCC ==> mfccs[..][i] == Cepstrum(logMel, dct)[i];
    }

    /** The inner loop of step 5: sum_j logMel[j] * dct[i][j]. */
    method DctSum(i: nat) returns (sum: real)
      requires Valid() && i < N_MFCC
      ensures sum == Dot(vImag[..N_MELS], DctRow(dctMatrix[..], i))
    {
      ghost var logMel := vImag[..N_MELS];
      ghost var row := DctRow(dctMatrix[..], i);
      sum := 0.0;
      for j := 0 to N_MELS
        invariant sum == Dot(logMel[..j], row[..j])
      {
        assert logMel[..j + 1][..j] == logMel[..j];
        assert row[..j + 1][..j] == row[..j];
        sum := sum + vImag[j] * dctMatrix[DctIndex(i, j)];
      }
      assert logMel[..N_MELS] == logMel && row[..N_MELS] == row;
    }

    /** extract_frame: the coefficients of frame f. Whatever the scratch arrays
        held before, the result depends only on the audio, the frame index and
        the bases. */
    method ExtractFrame(audio: array<Int16>, f: nat, mfccs: array<real>)
      requires Valid() && Separate(mfccs) && audio.Length == AUDIO_SAMPLES && mfccs.Length == N_MFCC
      modifies vReal, vImag, mfccs
      ensures mfccs[..] == FrameMfccs(libm, fft, hammingWindow[..], melFilterbank[..], dctMatrix[..], audio[..], f)
    {
      LoadFrame(audio, f);
      Transform();
      Magnitude();
      ApplyMelFilterbank();
      Dct(mfccs);
    }

    /** mfcc_extract: every frame's coefficients, normalised, stored at
        `mfcc_out[i * N_FRAMES + frame]`; slots past FEATURE_COUNT are not written. */
    method Extract(audio: array<Int16>, mfccOut: array<real>)
      requires Valid() && Separate(mfccOut) && audio.Length == AUDIO_SAMPLES && mfccOut.Length >= FEATURE_COUNT
      modifies vReal, vImag, mfccOut
      ensures forall i, f :: 0 <= i < N_MFCC && 0 <= f < N_FRAMES ==>
                mfccOut[FeatureIndex(i, f)] ==
                  Normalized(FrameMfccs(libm, fft, hammingWindow[..], melFilterbank[..], dctMatrix[..], audio[..], f)[i])
      ensures forall j :: FEATURE_COUNT <= j < mfccOut.Length ==> mfccOut[j] == old(mfccOut[j])
    {
      ghost var window, fb, dct, samples := hammingWindow[..], melFilterbank[..], dctMatrix[..], audio[..];
      var frameMfccs := new real[N_MFCC];
      for frame := 0 to N_FRAMES
        invariant forall i, f :: 0 <= i < N_MFCC && 0 <= f < frame ==>
                    mfccOut[FeatureIndex(i, f)] == Normalized(FrameMfccs(libm, fft, window, fb, dct, samples, f)[i])
        invariant forall j :: FEATURE_COUNT <= j < mfccOut.Length ==> mfccOut[j] == old(mfccOut[j])
      {
        ExtractFrame(audio, frame, frameMfccs);
        assert hammingWindow[..] == window && melFilterbank[..] == fb && dctMatrix[..] == dct && audio[..] == samples;
        StoreFrame(frameMfccs, frame, mfccOut);
      }
      assert hammingWindow[..] == window && melFilterbank[..] == fb && dctMatrix[..] == dct && audio[..] == samples;
    }
  }

  /** The inner loop of mfcc_extract: the normalised coefficients of one frame
      go to `mfcc_out[i * N_FRAMES + frame]`; every other slot keeps its value. */
  method StoreFrame(coefficients: array<real>, frame: nat, mfccOut: array<real>)
    requires coefficients != mfccOut && coefficients.Length == N_MFCC
    requires frame < N_FRAMES && mfccOut.Length >= FEATURE_COUNT
    modifies mfccOut
    ensures forall i :: 0 <= i < N_MFCC ==> mfccOut[FeatureIndex(i, frame)] == Normalized(coefficients[i])
    ensures forall i, f :: 0 <= i < N_MFCC && 0 <= f < N_FRAMES && f != frame ==>
              mfccOut[FeatureIndex(i, f)] == old(mfccOut[FeatureIndex(i, f)])
    ensures forall j :: FEATURE_COUNT <= j < mfccOut.Length ==> mfccOut[j] == old(mfccOut[j])
  {
    FeatureIndexBijective();
    for i := 0 to N_MFCC
      invariant forall i' :: 0 <= i' < i ==> mfccOut[FeatureIndex(i', frame)] == Normalized(coefficients[i'])
      invariant forall i', f :: 0 <= i' < N_MFCC && 0 <= f < N_FRAMES && f != frame ==>
                  mfccOut[FeatureIndex(i', f)] == old(mfccOut[FeatureIndex(i', f)])
      invariant forall i' :: i <= i' < N_MFCC ==> mfccOut[FeatureIndex(i', frame)] == old(mfccOut[FeatureIndex(i', frame)])
      invariant forall j :: FEATURE_COUNT <= j < mfccOut.Length ==> mfccOut[j] == old(mfccOut[j])
    {
      mfccOut[FeatureIndex(i, frame)] := Normalized(coefficients[i]);
    }
  }
}
