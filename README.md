# Speech-emotion pipeline core, in Dafny

This project models the sequential core of an embedded speech-emotion recogniser.
The device records four seconds of 16-bit audio and peak-normalises it in place.
It cuts the recording into 100 overlapping frames and turns each frame into 40 MFCC features.
Finally it quantises the 40 × 100 feature matrix to int8, runs a TFLite classifier on it, and picks the most probable of seven emotions.

The model has five modules, one per source file plus one for the C numerics:

- `Config` (`config.dfy`): the constants of `src/config.h`, the frame geometry they imply, and the coefficient-major feature layout `i * N_FRAMES + frame`.
- `CNumerics` (`cnumerics.dfy`): the C behaviour the code relies on:
  - the int8/int16/int32/int64 ranges;
  - the wrap of an `int` stored into an `int16_t`;
  - the float-to-int conversion, which truncates toward zero;
  - C `round`, which rounds half away from zero;
  - Arduino `constrain`.
- `AudioCapture` (`audio.dfy`): `audio_normalize` and `audio_get_stats`.
  - Both are methods over an `array<Int16>`.
  - Each is proved against specification functions: `MaxAbs`, `Rescaled`, `ZeroCrossings` and `SumSquares`.
- `Mfcc` (`mfcc.dfy`): the class `MfccExtractor`.
  - Its arrays are the module-level buffers of `src/mfcc_extractor.cpp`: `vReal`, `vImag`, `melFilterbank`, `dctMatrix` and `hammingWindow`.
  - The constructor is `mfcc_init`, given that every allocation succeeds. It builds the Hamming window, the triangular filterbank (from a given bin vector) and the DCT matrix.
  - Each step of `extract_frame` is a method proved against a function of the previous state: windowing with zero padding, FFT, magnitude, mel energies, DCT.
  - `Extract` is `mfcc_extract`.
- `EmotionModel` (`emotion.dfy`): `model_predict`, seen through the engine's tensors.
  - The module state (`interpreter`, `inputTensor`, `outputTensor`, each possibly null) is a class.
  - The engine is an `Interpreter` whose `Invoke` runs an abstract function from the input tensor's contents to an outcome: failure, or the int8 values it writes to the output tensor.

Floating point is modelled as exact `real` arithmetic. `cos`, `sqrt`, `log` and `pow` are uninterpreted function values, collected in the record `CNumerics.Libm`. The FFT is an uninterpreted function giving bin `k` of the transform of `(re, im)`.

In `audio_normalize`, `abs` is applied to an `int16_t` and stored back into one.
For the sample -32768 this gives 32768, which wraps to -32768.
Such a sample therefore never raises `max_abs`.
A buffer holding only 0 and -32768 counts as silent, and a -32768 sample can overshoot the target after scaling.
The model keeps this behaviour as written. The lemmas `SilentIffOnlyZeroOrMinimum`, `MinimumPulseIsSilent` and `MinimumSampleOvershootsTarget` state it.

## Model

| member | source | states |
|---|---|---|
| Config.AudioSamplesValue | src/config.h:21-23 | AUDIO_SAMPLES = SAMPLE_RATE × AUDIO_DURATION_SEC = 176400 |
| Config.HopLengthValue | src/config.h:32 | the integer division (AUDIO_SAMPLES − N_FFT) / (N_FRAMES − 1) is 1761 |
| Config.LastFrameFits | src/config.h:28-32 | the last frame ends inside the recording, 13 samples before its end |
| Config.LabelsMatchEmotionCount | src/config.h:41-44 | there are exactly NUM_EMOTIONS = 7 labels |
| Config.MfccStdPositive | src/config.h:35-36 | MFCC_STD > 0, so the normalisation divides by a nonzero value |
| Config.FeatureIndex | src/mfcc_extractor.cpp:159 | the coefficient-major slot i · N_FRAMES + f of feature (i, f), shared with the input tensor at src/emotion_model.cpp:146; FeatureIndexBijective states its properties |
| Config.FeatureIndexBijective | src/mfcc_extractor.cpp:158-159 | `i * N_FRAMES + f` maps the 40 × 100 grid one-to-one onto [0, FEATURE_COUNT); div/mod invert it |
| CNumerics.Wrap16 | src/audio_capture.cpp:73 | the int16 wrap agrees with the value modulo 2^16, lies in range, and is the identity on in-range values |
| CNumerics.Clamp | src/audio_capture.cpp:90 | constrain yields a value in [lo, hi], the input itself when inside, and lo or hi outside |
| CNumerics.Trunc | src/audio_capture.cpp:84 | the conversion moves toward zero by less than 1 and keeps the sign |
| CNumerics.TruncShrinks | src/audio_capture.cpp:89 | truncation never increases the magnitude and keeps the sign |
| CNumerics.Round | src/emotion_model.cpp:144 | C round lands within 1/2 of its argument, with halves going away from zero |
| CNumerics.IntegralFixed | src/emotion_model.cpp:144 | truncation and rounding are the identity on integers |
| CNumerics.RoundError | src/emotion_model.cpp:144 | the rounding error is at most 1/2 |
| CNumerics.RoundMonotone | src/emotion_model.cpp:144 | rounding preserves order |
| AudioCapture.AbsSample | src/audio_capture.cpp:73 | \|x\| for every sample except −32768, which stays −32768 |
| AudioCapture.MaxAbs | src/audio_capture.cpp:71-75 | the left-to-right running maximum of the wrapped magnitudes is never negative |
| AudioCapture.MaxAbsIsLargestMagnitude | src/audio_capture.cpp:71-75 | max_abs bounds \|x\| for every sample but −32768 and is attained by one of them (or is 0) |
| AudioCapture.SilentIffOnlyZeroOrMinimum | src/audio_capture.cpp:71-80 | the silence exit is taken exactly when every sample is 0 or −32768 |
| AudioCapture.MinimumPulseIsSilent | src/audio_capture.cpp:73-77 | [0, −32768, 0] is treated as silence |
| AudioCapture.PeakMagnitude | src/audio_capture.cpp:71-75 | the first loop computes MaxAbs of the buffer |
| AudioCapture.ScaledFitsInt32 | src/audio_capture.cpp:89 | with \|gain\| ≤ 32768 the truncated product fits in int32_t |
| AudioCapture.GainBound | src/audio_capture.cpp:84-85 | target_peak / max_abs is at most 32768 in magnitude |
| AudioCapture.TargetLinear | src/audio_capture.cpp:83 | defines target_linear = pow(10, dB / 20) through the uninterpreted pow |
| AudioCapture.TargetPeak | src/audio_capture.cpp:84 | defines target_peak as the truncation of target_linear · 32767 to int16, defined only when that fits (TargetPeakRepresentable) |
| AudioCapture.TargetWithinFullScale | src/audio_capture.cpp:83-84 | any target whose linear level lies in [0, 1], the default −1 dB included, gives a defined target_peak in [0, 32767] |
| AudioCapture.ScaleSample | src/audio_capture.cpp:89-90 | defines one rewritten sample, constrain(trunc(x · gain), −32768, 32767); the ScaleSample lemmas state its properties |
| AudioCapture.Rescaled | src/audio_capture.cpp:88-91 | the rewritten buffer has the length of the original |
| AudioCapture.ApplyGain | src/audio_capture.cpp:88-91 | every sample becomes clamp(trunc(x · gain)) in place, and nothing else changes |
| AudioCapture.Normalize | src/audio_capture.cpp:69-96 | silent: gain 1, buffer unchanged; otherwise gain = trunc(10^(dB/20) · 32767) / max_abs and the buffer is Rescaled by it |
| AudioCapture.ZeroStaysZero | src/audio_capture.cpp:89-90 | a zero sample stays zero |
| AudioCapture.ScaleSampleKeepsSign | src/audio_capture.cpp:89-90 | with gain > 0 a sample keeps its sign or becomes 0 |
| AudioCapture.ScaleSampleWithinTarget | src/audio_capture.cpp:84-90 | a sample with \|x\| ≤ max_abs ends with magnitude ≤ target_peak |
| AudioCapture.ScaleSampleHitsTarget | src/audio_capture.cpp:84-90 | a sample with \|x\| = max_abs ends with magnitude exactly target_peak (exact arithmetic) |
| AudioCapture.NormalizedPeakIsTarget | src/audio_capture.cpp:71-91 | without −32768 samples, the normalised buffer's max_abs is exactly target_peak (exact arithmetic) |
| AudioCapture.MinimumSampleOvershootsTarget | src/audio_capture.cpp:71-91 | [−32768, 20000] normalised to peak 10000 gives [−16384, 10000]: the −32768 sample overshoots |
| AudioCapture.ZeroCrossingsCountsIndices | src/audio_capture.cpp:110-114 | the running count equals the number of indices i ≥ 1 where s[i−1], s[i] straddle "< 0" versus "≥ 0" |
| AudioCapture.Crosses | src/audio_capture.cpp:111 | two samples cross exactly when one is negative and the other is not (0 counts as non-negative) |
| AudioCapture.ZeroCrossings | src/audio_capture.cpp:110-114 | defines the left-to-right running count of crossings between adjacent samples, starting at the second sample |
| AudioCapture.ZeroCrossingsAtMostPairs | src/audio_capture.cpp:103-114 | N samples have at most N − 1 crossings |
| AudioCapture.AlternatingCrossesEverywhere | src/audio_capture.cpp:110-114 | +100, −100, +100, … has exactly N − 1 crossings |
| AudioCapture.SumSquares | src/audio_capture.cpp:100-105 | Σx² is between 0 and N · 2^30 |
| AudioCapture.SumSquaresFitsInt64 | src/audio_capture.cpp:100-105 | over AUDIO_SAMPLES samples Σx² stays below 2^53 and so inside int64_t |
| AudioCapture.GetStats | src/audio_capture.cpp:98-120 | peak_pos is the attained maximum, peak_neg the attained minimum, zero_crossings = ZeroCrossings, rms = sqrt(Σx² / N); the buffer is read only |
| Mfcc.MelColsValue | src/mfcc_extractor.cpp:21 | MEL_COLS = N_FFT / 2 + 1 = 1025 |
| Mfcc.FbIndex | src/mfcc_extractor.cpp:60 | defines the flat filterbank slot m · MEL_COLS + k, the index written at :60 and :66 and read at :105 |
| Mfcc.DctIndex | src/mfcc_extractor.cpp:75 | defines the flat DCT slot i · N_MELS + j, the index written at :75 and read at :114 |
| Mfcc.FilterWeight | src/mfcc_extractor.cpp:58-67 | defines the cell of row m, column k: (k − left) / (center − left) on [left, center), (right − k) / (right − center) on [center, right), 0 elsewhere and at every column ≥ MEL_COLS |
| Mfcc.HammingCoefficient | src/mfcc_extractor.cpp:29 | defines w[i] = 0.54 − 0.46 · cos(2πi / (N_FFT − 1)) |
| Mfcc.DctCoefficient | src/mfcc_extractor.cpp:75 | defines dct[i][j] = cos(πi(j + 1/2) / N_MELS) · sqrt(2 / N_MELS) |
| Mfcc.FilterWeightSupport | src/mfcc_extractor.cpp:51-69 | a nonzero weight sits below MEL_COLS in one of the two halves; with nondecreasing bins, inside [bins[m], bins[m+2]) |
| Mfcc.FilterWeightRange | src/mfcc_extractor.cpp:58-67 | every weight lies in [0, 1] |
| Mfcc.FilterWeightShape | src/mfcc_extractor.cpp:58-67 | 0 at the left edge when bins[m] < bins[m+1]; exactly 1 and maximal at the centre when bins[m+1] < bins[m+2] and bins[m+1] < MEL_COLS; 0 at the right edge when bins[m] ≤ bins[m+1] ≤ bins[m+2] |
| Mfcc.MfccExtractor.Init | src/mfcc_extractor.cpp:124-147 | the window, filterbank and DCT matrix hold the coefficients for every index, in fresh, distinct arrays |
| Mfcc.MfccExtractor.Valid | src/mfcc_extractor.cpp:128-132 | the five allocations have the sizes mfcc_init requests, and the two scratch arrays are distinct from each other and from the three bases |
| Mfcc.MfccExtractor.InitHammingWindow | src/mfcc_extractor.cpp:27-31 | w[i] = 0.54 − 0.46 cos(2πi / (N_FFT − 1)) for every i |
| Mfcc.MfccExtractor.InitMelFilterbank | src/mfcc_extractor.cpp:51-69 | after the memset and both loops, every cell of row m, column k is FilterWeight(bins, m, k) |
| Mfcc.MfccExtractor.FillRising | src/mfcc_extractor.cpp:58-62 | the rising half is written below MEL_COLS, the rest of the matrix is kept, and no division by zero happens |
| Mfcc.MfccExtractor.FillFalling | src/mfcc_extractor.cpp:64-68 | the falling half is written below MEL_COLS, the rest of the matrix is kept, and no division by zero happens |
| Mfcc.MfccExtractor.InitDctMatrix | src/mfcc_extractor.cpp:72-78 | dct[i][j] = cos(πi(j + 1/2) / N_MELS) · sqrt(2 / N_MELS) for every i, j |
| Mfcc.WindowedSample | src/mfcc_extractor.cpp:85-89 | defines slot i of a frame: audio[offset + i] · w[i] while offset + i < AUDIO_SAMPLES, else 0 |
| Mfcc.Windowed | src/mfcc_extractor.cpp:84-91 | the windowed frame has N_FFT slots |
| Mfcc.NoFrameIsPadded | src/mfcc_extractor.cpp:81-89 | with the shipped constants every frame's slot i is audio[offset + i] · w[i]; the padding branch is never taken |
| Mfcc.FrameOffset | src/mfcc_extractor.cpp:81 | defines the first sample of frame f, f · HOP_LENGTH |
| Mfcc.MfccExtractor.LoadFrame | src/mfcc_extractor.cpp:80-91 | vReal becomes the windowed frame (0 past the recording) and vImag all zeros, whatever they held before |
| Mfcc.MfccExtractor.Transform | src/mfcc_extractor.cpp:94 | both scratch arrays are replaced by the transform of their previous contents |
| Mfcc.SpectrumRe | src/mfcc_extractor.cpp:94 | defines the real array FFT.compute leaves behind: bin k's real part, for each of the N_FFT bins |
| Mfcc.SpectrumIm | src/mfcc_extractor.cpp:94 | defines the imaginary array FFT.compute leaves behind, for each of the N_FFT bins |
| Mfcc.Magnitudes | src/mfcc_extractor.cpp:97-99 | one magnitude per one-sided bin |
| Mfcc.BinMagnitude | src/mfcc_extractor.cpp:98 | defines sqrt(re² + im²) of one bin |
| Mfcc.MfccExtractor.Magnitude | src/mfcc_extractor.cpp:97-99 | vReal[..MEL_COLS] becomes the bin magnitudes and vReal[MEL_COLS..] is kept |
| Mfcc.MelRow | src/mfcc_extractor.cpp:105 | row m of the filterbank holds fb[m · MEL_COLS + k] at k |
| Mfcc.Dot | src/mfcc_extractor.cpp:103-106 | defines the left-to-right sum of products accumulated by the two inner loops (also src/mfcc_extractor.cpp:112-115) |
| Mfcc.MelEnergies | src/mfcc_extractor.cpp:102-108 | one log energy per filter |
| Mfcc.MfccExtractor.MelEnergy | src/mfcc_extractor.cpp:103-106 | the inner loop computes Σ_k mag[k] · fb[m][k] |
| Mfcc.MfccExtractor.ApplyMelFilterbank | src/mfcc_extractor.cpp:102-108 | vImag[m] = log(Σ_k mag[k] · fb[m][k] + 1e−10) for each filter; vImag[N_MELS..] is kept |
| Mfcc.DctRow | src/mfcc_extractor.cpp:114 | row i of the DCT matrix holds dct[i · N_MELS + j] at j |
| Mfcc.Cepstrum | src/mfcc_extractor.cpp:111-117 | one coefficient per DCT row |
| Mfcc.MfccExtractor.DctSum | src/mfcc_extractor.cpp:112-115 | the inner loop computes Σ_j logMel[j] · dct[i][j] |
| Mfcc.MfccExtractor.Dct | src/mfcc_extractor.cpp:111-117 | coefficient i is the dot product of the log-mel vector with DCT row i |
| Mfcc.FrameMfccs | src/mfcc_extractor.cpp:80-118 | a frame yields N_MFCC coefficients |
| Mfcc.MfccExtractor.ExtractFrame | src/mfcc_extractor.cpp:80-118 | the frame's coefficients are FrameMfccs of the audio, the frame index and the bases only; earlier frames have no influence |
| Mfcc.Normalized | src/mfcc_extractor.cpp:159 | defines (c − MFCC_MEAN) / MFCC_STD; NormalizedInvertible states it loses nothing |
| Mfcc.NormalizedInvertible | src/mfcc_extractor.cpp:159 | (c − MEAN) / STD can be undone |
| Mfcc.StoreFrame | src/mfcc_extractor.cpp:158-160 | the frame's column i · N_FRAMES + frame gets the normalised coefficients; every other slot is kept |
| Mfcc.MfccExtractor.Extract | src/mfcc_extractor.cpp:149-168 | mfcc_out[i · N_FRAMES + f] = (coef_f[i] − MEAN) / STD for every i, f; slots past FEATURE_COUNT are untouched |
| EmotionModel.ErrorResult | src/emotion_model.cpp:129-135 | label "error", confidence 0, index 0, seven zero probabilities |
| EmotionModel.Unclamped | src/emotion_model.cpp:144 | defines round(v / scale) + zero_point, before the clamp |
| EmotionModel.Dequantize | src/emotion_model.cpp:181 | defines (q − zero_point) · scale |
| EmotionModel.Quantize | src/emotion_model.cpp:144-145 | round(v / scale) + zero_point when that is in [−128, 127], else the nearer bound |
| EmotionModel.Quantized | src/emotion_model.cpp:141-148 | one int8 per feature, in the same layout |
| EmotionModel.QuantizeRoundTrip | src/emotion_model.cpp:144-145 | when the clamp does not fire, dequantising the quantised value is within scale / 2 of it |
| EmotionModel.DequantizeRoundTrip | src/emotion_model.cpp:144-145 | quantising a dequantised int8 gives it back |
| EmotionModel.QuantizeMonotone | src/emotion_model.cpp:144-145 | quantisation preserves order |
| EmotionModel.Dequantized | src/emotion_model.cpp:179-182 | one probability per output |
| EmotionModel.ScanMax | src/emotion_model.cpp:176-188 | the running maximum bounds every value and is at least the −1000 seed; its index is 0 or in range |
| EmotionModel.ScanMaxIsFirstMaximum | src/emotion_model.cpp:176-188 | if some value beats −1000, the index is the first one holding the maximum; otherwise (0, −1000) remains |
| EmotionModel.Classify | src/emotion_model.cpp:190-192 | index in [0, 7), label = EMOTION_LABELS[index], confidence = the scan's maximum, the probabilities kept |
| EmotionModel.ClassifyPicksFirstMaximum | src/emotion_model.cpp:176-192 | when some output beats −1000, confidence = probabilities[index], which is the first maximum |
| EmotionModel.Tensor.constructor | src/emotion_model.cpp:109-115 | a tensor with the given affine parameters and storage length |
| EmotionModel.Interpreter.constructor | src/emotion_model.cpp:103-106 | an interpreter over the given tensors and engine |
| EmotionModel.Interpreter.Valid | src/emotion_model.cpp:138-146 | the tensor shapes model_predict relies on: 4000 input and 7 output slots, a positive input scale, and engine outputs of length 7 |
| EmotionModel.Interpreter.Invoke | src/emotion_model.cpp:159 | the status and, on success, the output tensor are the engine's outcome on the input tensor as it was on entry; on failure the output tensor is kept; the input tensor may be overwritten |
| EmotionModel.EmotionModel.Unloaded | src/emotion_model.cpp:32-34 | the state before loading: no engine, so not ready |
| EmotionModel.EmotionModel.Loaded | src/emotion_model.cpp:106-115 | the state after loading: the tensors are the interpreter's own |
| EmotionModel.EmotionModel.Ready | src/emotion_model.cpp:131 | the guard of model_predict: the interpreter and both tensors are present |
| EmotionModel.EmotionModel.Valid | src/emotion_model.cpp:114-115 | whenever the model is loaded, the module's tensors are the interpreter's input(0) and output(0), and the interpreter is Valid |
| EmotionModel.EmotionModel.QuantizeInput | src/emotion_model.cpp:138-148 | slot k of the input tensor holds the quantised feature k, for every k |
| EmotionModel.EmotionModel.ReadOutput | src/emotion_model.cpp:173-192 | the result is Classify of the dequantised outputs |
| EmotionModel.EmotionModel.Predict | src/emotion_model.cpp:128-195 | not loaded: the error sentinel and no tensor written; else the engine runs on the quantised features in the feature layout, and the result is the sentinel on engine failure or Classify of the dequantised outputs, which the output tensor then holds |

## Left out

- `audio_init` and `audio_capture`: I2S hardware reads in a timed loop and serial progress output.
- All serial logging, the watchdog re-configuration, the cache write-back and the delay around `Invoke`: these are platform side effects.
- Floating point: every float is an exact real. `cos`, `sqrt`, `log` and `pow` are uninterpreted, so no numeric value of a window, DCT or MFCC coefficient is claimed.
- `FFT.compute` is an uninterpreted function of the two input arrays. The library's internals are not modelled.
- The float mel-scale bin computation of `init_mel_filterbank` (`hzToMel`, `melToHz`, `floor`): the model builds the filterbank from a given non-negative bin vector.
- Mfcc.MfccExtractor.Init: allocation failure in `mfcc_init` is not modelled. Every allocation is taken to succeed. `mfcc_deinit` is not modelled.
- `model_load` and `model_unload` (file reading, schema check, op resolver, tensor arena) are not modelled. Only the resulting "loaded or not" state is, through the constructors `Unloaded` and `Loaded`.
- EmotionModel.Interpreter.Invoke: the engine's status and outputs are a function of the input tensor's contents. Failures that depend on the interpreter's history are not captured. A failed invocation is taken not to write the output tensor.
- EmotionModel.Interpreter.Valid: the input tensor's scale is taken to be positive, as TFLite int8 quantisation guarantees. The source divides by it without a check.
- EmotionModel.Quantize: the `(int32_t)` conversion of `round(value / scale)` is treated as exact. For features so large that the rounded quotient leaves the int32 range the C conversion is undefined; the model clamps the unbounded value instead.
- AudioCapture.Normalize: requires that `trunc(10^(dB/20) · 32767)` fits in int16, because the conversion is undefined behaviour otherwise. This holds for every target of 0 dBFS or below (AudioCapture.TargetWithinFullScale, for a `pow` that gives 10^(dB/20) in [0, 1]).
- AudioCapture.DEFAULT_TARGET_DB: the default argument `target_db = -1.0` of `audio_normalize` (src/audio_capture.h:29) is this constant, the default of `Normalize`'s `targetDb`. The caller in `src/main.cpp` is not modelled, and that the uninterpreted `pow` gives 10^(−1/20) in [0, 1] is not proved.
- AudioCapture.GetStats: the `sqrt` of the RMS is a parameter, and the `double` division before it is taken as exact.
- EmotionModel.Classify: confidence is not claimed to lie in [0, 1]. The header comment says so, but the code reports the raw dequantised maximum.
- Mfcc.StoreFrame: that every slot is written exactly once is stated by the layout bijection plus the final contents. The count of writes is not tracked.
- `src/main.cpp` (setup/loop orchestration, heap queries, fatal halts), `src/profiler.cpp` (CSV logging), `lib/Mylibrary/pin_config.h` (pin numbers) and `MODEL_PATH` are not part of this model.
