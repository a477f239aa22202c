/** Build-time constants of the pipeline (src/config.h). They are fixed by the
    training data set and by the model's preprocessing, and every component of
    the pipeline shares them. */
module Config {

  // Audio, as recorded for the training data set.
  const SAMPLE_RATE: nat := 44100
  const AUDIO_DURATION_SEC: nat := 4
  const AUDIO_SAMPLES: nat := SAMPLE_RATE * AUDIO_DURATION_SEC

  // MFCC geometry.
  const N_MFCC: nat := 40
  const N_FRAMES: nat := 100
  const N_MELS: nat := 40
  const N_FFT: nat := 2048
  /** Both operands are positive, so C's truncating division and Dafny's
      Euclidean division agree here. */
  const HOP_LENGTH: nat := (AUDIO_SAMPLES - N_FFT) / (N_FRAMES - 1)

  // Feature normalisation constants of the training data set (float literals
  // in the source, taken here as the exact decimals they are written as).
  const MFCC_MEAN: real := -8.0306
  const MFCC_STD: real := 82.2183

  // Classes of the classifier, in the order of its output tensor.
  const NUM_EMOTIONS: nat := 7
  const EMOTION_LABELS: seq<string> :=
    ["anger", "disgust", "fear", "happy", "neutral", "sad", "surprise"]

  /** Number of feature values: N_MFCC coefficients for each of N_FRAMES frames. */
  const FEATURE_COUNT: nat := N_MFCC * N_FRAMES

  /** The coefficient-major layout shared by the MFCC output buffer and the
      model's input tensor: all frames of coefficient 0, then of coefficient 1, ... */
  function FeatureIndex(coefficient: nat, frame: nat): nat
  {
    coefficient * N_FRAMES + frame
  }

  lemma AudioSamplesValue()
    ensures AUDIO_SAMPLES == 176400
  {
  }

  lemma HopLengthValue()
    ensures HOP_LENGTH == 1761
  {
  }

  /** The last frame ends inside the recording, 13 samples before its end, so
      the zero-padding branch of extract_frame is never taken with these
      constants. */
  lemma LastFrameFits()
    ensures (N_FRAMES - 1) * HOP_LENGTH + N_FFT <= AUDIO_SAMPLES
    ensures AUDIO_SAMPLES - ((N_FRAMES - 1) * HOP_LENGTH + N_FFT) == 13
  {
  }

  lemma LabelsMatchEmotionCount()
    ensures |EMOTION_LABELS| == NUM_EMOTIONS
  {
  }

  lemma MfccStdPositive()
    ensures MFCC_STD > 0.0
  {
  }

  /** Every (coefficient, frame) pair has its own slot, inside the buffer, and
      every slot of the buffer belongs to exactly one pair. */
  lemma FeatureIndexBijective()
    ensures forall i, f :: 0 <= i < N_MFCC && 0 <= f < N_FRAMES ==> FeatureIndex(i, f) < FEATURE_COUNT
    ensures forall i, f, i', f' ::
              (0 <= i < N_MFCC && 0 <= f < N_FRAMES && 0 <= i' < N_MFCC && 0 <= f' < N_FRAMES &&
               FeatureIndex(i, f) == FeatureIndex(i', f')) ==> i == i' && f == f'
    ensures forall k :: 0 <= k < FEATURE_COUNT ==> FeatureIndex(k / N_FRAMES, k % N_FRAMES) == k
    ensures forall k :: 0 <= k < FEATURE_COUNT ==> k / N_FRAMES < N_MFCC && k % N_FRAMES < N_FRAMES
  {
  }
}
