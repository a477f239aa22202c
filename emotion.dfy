/** Affine int8 adapter around the emotion classifier (model_predict): the
    normalised MFCC features are quantised into the engine's input tensor, the
    engine is invoked, and its int8 outputs are dequantised and scanned for the
    most probable emotion. */

module EmotionModel {
  import opened Config
  import opened CNumerics

  /** Seed of the argmax scan: any probability must beat it to be chosen. */
  const SCAN_SEED: real := -1000.0

  /** The value model_predict returns. */
  datatype EmotionResult = EmotionResult(emotionLabel: string, confidence: real, index: int, probabilities: seq<real>)

  /** The sentinel returned when the engine is not loaded or inference fails. */
  function ErrorResult(): (r: EmotionResult)
    ensures r.emotionLabel == "error" && r.confidence == 0.0 && r.index == 0
    ensures |r.probabilities| == NUM_EMOTIONS
    ensures forall i :: 0 <= i < |r.probabilities| ==> r.probabilities[i] == 0.0
  {
    EmotionResult("error", 0.0, 0, seq(NUM_EMOTIONS, _ => 0.0))
  }

  // ---------------------------------------------------------------------------
  // Affine quantisation
  // ---------------------------------------------------------------------------

  /** The quantised value before the clamp: round(v / scale) + zero point. */
  function Unclamped(v: real, scale: real, zeroPoint: int): int
    requires scale > 0.0
  {
    Round(v / scale) + zeroPoint
  }

  /** One feature quantised into the int8 range. */
  function Quantize(v: real, scale: real, zeroPoint: int): (q: Int8)
    requires scale > 0.0
    ensures INT8_MIN <= Unclamped(v, scale, zeroPoint) <= INT8_MAX ==> q == Unclamped(v, scale, zeroPoint)
    ensures Unclamped(v, scale, zeroPoint) < INT8_MIN ==> q == INT8_MIN
    ensures Unclamped(v, scale, zeroPoint) > INT8_MAX ==> q == INT8_MAX
  {
    Clamp(Unclamped(v, scale, zeroPoint), INT8_MIN, INT8_MAX)
  }

  /** One int8 value mapped back to the real line. */
  function Dequantize(q: Int8, scale: real, zeroPoint: int): real
  {
    (q - zeroPoint) as real * scale
  }

  /** The whole feature buffer quantised, element by element, in the same layout. */
  function Quantized(features: seq<real>, scale: real, zeroPoint: int): (r: seq<Int8>)
    requires scale > 0.0
    ensures |r| == |features|
  {
    seq(|features|, k requires 0 <= k < |features| => Quantize(features[k], scale, zeroPoint))
  }

  /** The engine's outputs dequantised, element by element. */
  function Dequantized(outputs: seq<Int8>, scale: real, zeroPoint: int): (r: seq<real>)
    ensures |r| == |outputs|
  {
    seq(|outputs|, i requires 0 <= i < |outputs| => Dequantize(outputs[i], scale, zeroPoint))
  }

  /** When the clamp does not fire, dequantising a quantised feature lands
      within half a quantisation step of the feature. */
  lemma QuantizeRoundTrip(v: real, scale: real, zeroPoint: int)
    requires scale > 0.0
    requires INT8_MIN <= Unclamped(v, scale, zeroPoint) <= INT8_MAX
    ensures -scale / 2.0 <= Dequantize(Quantize(v, scale, zeroPoint), scale, zeroPoint) - v <= scale / 2.0
  {
    var x := v / scale;
    var e := Round(x) as real - x;
    RoundError(x);
    assert Dequantize(Quantize(v, scale, zeroPoint), scale, zeroPoint) == Round(x) as real * scale;
    assert Round(x) as real * scale - v == e * scale by {
      assert x * scale == v;
    }
    ScaleBound(e, scale);
  }

  /** |e| <= 1/2 scales to |e * s| <= s/2 for a positive step s. */
  lemma ScaleBound(e: real, s: real)
    requires s > 0.0 && -0.5 <= e <= 0.5
    ensures -s / 2.0 <= e * s <= s / 2.0
  {
    assert (e + 0.5) * s >= 0.0;
    assert (0.5 - e) * s >= 0.0;
  }

  /** Every int8 value survives dequantisation followed by quantisation. */
  lemma DequantizeRoundTrip(q: Int8, scale: real, zeroPoint: int)
    requires scale > 0.0
    ensures Quantize(Dequantize(q, scale, zeroPoint), scale, zeroPoint) == q
  {
    var n := q - zeroPoint;
    assert Dequantize(q, scale, zeroPoint) / scale == n as real by {
      assert Dequantize(q, scale, zeroPoint) == n as real * scale;
    }
    IntegralFixed(n);
    assert Unclamped(Dequantize(q, scale, zeroPoint), scale, zeroPoint) == q;
  }

  /** Quantisation preserves order (not strictly: nearby features can share a code). */
  lemma QuantizeMonotone(v: real, w: real, scale: real, zeroPoint: int)
    requires scale > 0.0 && v <= w
    ensures Quantize(v, scale, zeroPoint) <= Quantize(w, scale, zeroPoint)
  {
    DivideMonotone(v, w, scale);
    RoundMonotone(v / scale, w / scale);
  }

  lemma DivideMonotone(v: real, w: real, s: real)
    requires s > 0.0 && v <= w
    ensures v / s <= w / s
  {
    assert w / s - v / s == (w - v) / s;
  }

  // ---------------------------------------------------------------------------
  // Argmax over the dequantised outputs
  // ---------------------------------------------------------------------------

  /** The scan of model_predict over a prefix: the index and value of the
      running maximum, seeded with (0, SCAN_SEED), replaced only by a strictly
      larger value. */
  function ScanMax(probs: seq<real>): (r: (nat, real))
    ensures r.0 == 0 || r.0 < |probs|
    ensures SCAN_SEED <= r.1
    ensures forall j :: 0 <= j < |probs| ==> probs[j] <= r.1
  {
    if |probs| == 0 then (0, SCAN_SEED)
    else
      var (i, m) := ScanMax(probs[..|probs| - 1]);
      assert forall j :: 0 <= j < |probs| - 1 ==> probs[..|probs| - 1][j] == probs[j];
      if probs[|probs| - 1] > m then (|probs| - 1, probs[|probs| - 1]) else (i, m)
  }

  /** The scan picks the FIRST index holding the maximum when any value
      beats the seed, and leaves the seed (0, SCAN_SEED) in place otherwise. */
  lemma {:induction false} ScanMaxIsFirstMaximum(probs: seq<real>)
    ensures (exists j :: 0 <= j < |probs| && probs[j] > SCAN_SEED) ==>
              var (i, m) := ScanMax(probs);
              && i < |probs| && probs[i] == m
              && (forall j :: 0 <= j < i ==> probs[j] < m)
    ensures (forall j :: 0 <= j < |probs| ==> probs[j] <= SCAN_SEED) ==> ScanMax(probs) == (0, SCAN_SEED)
  {
    if |probs| > 0 {
      var init := probs[..|probs| - 1];
      ScanMaxIsFirstMaximum(init);
      assert forall j :: 0 <= j < |init| ==> init[j] == probs[j];
      if forall j :: 0 <= j < |probs| ==> probs[j] <= SCAN_SEED {
        assert forall j :: 0 <= j < |init| ==> init[j] <= SCAN_SEED;
      } else if exists j :: 0 <= j < |init| && init[j] > SCAN_SEED {
      } else {
        assert forall j :: 0 <= j < |init| ==> init[j] <= SCAN_SEED;
        assert ScanMax(init) == (0, SCAN_SEED);
      }
    }
  }

  /** The result built from NUM_EMOTIONS dequantised outputs. */
  function Classify(probs: seq<real>): (r: EmotionResult)
    requires |probs| == NUM_EMOTIONS
    ensures 0 <= r.index < NUM_EMOTIONS
    ensures r.probabilities == probs
    ensures r.emotionLabel == EMOTION_LABELS[r.index]
    ensures r.confidence == ScanMax(probs).1
  {
    LabelsMatchEmotionCount();
    var (i, m) := ScanMax(probs);
    EmotionResult(EMOTION_LABELS[i], m, i, probs)
  }

  /** What the classification promises: when some output beats the seed, the
      index is the first maximum and the confidence is its probability. */
  lemma ClassifyPicksFirstMaximum(probs: seq<real>)
    requires |probs| == NUM_EMOTIONS
    requires exists j :: 0 <= j < |probs| && probs[j] > SCAN_SEED
    ensures var r := Classify(probs);
            && r.confidence == probs[r.index]
            && (forall j :: 0 <= j < |probs| ==> probs[j] <= r.confidence)
            && (forall j :: 0 <= j < r.index ==> probs[j] < r.confidence)
  {
    ScanMaxIsFirstMaximum(probs);
  }

  // ---------------------------------------------------------------------------
  // The inference engine, seen through its tensors
  // ---------------------------------------------------------------------------

  /** The outcome of one invocation: failure, or the int8 values written to
      the output tensor. */
  datatype Inference = Failed | Succeeded(outputs: seq<Int8>)

  /** A quantised tensor: its affine parameters and its int8 storage. */
  class Tensor {
    const scale: real
    const zeroPoint: int
    const data: array<Int8>

    constructor (scale: real, zeroPoint: int, length: nat)
      ensures this.scale == scale && this.zeroPoint == zeroPoint
      ensures data.Length == length && fresh(data)
    {
      this.scale := scale;
      this.zeroPoint := zeroPoint;
      data := new Int8[length](_ => 0);
    }
  }

  /** The interpreter: one input and one output tensor and an engine that maps
      the input tensor's contents to an inference outcome. */
  class Interpreter {
    const input: Tensor
    const output: Tensor
    const engine: seq<Int8> -> Inference

    /** The shape model_predict relies on: a feature-sized input with a
        positive scale and an output per emotion. */
    ghost predicate Valid()
    {
      && input.data.Length == FEATURE_COUNT
      && output.data.Length == NUM_EMOTIONS
      && input.scale > 0.0
      && forall x :: engine(x).Succeeded? ==> |engine(x).outputs| == NUM_EMOTIONS
    }

    constructor (input: Tensor, output: Tensor, engine: seq<Int8> -> Inference)
      ensures this.input == input && this.output == output && this.engine == engine
    {
      this.input := input;
      this.output := output;
      this.engine := engine;
    }

    /** Invoke: runs the engine on the input tensor as it was on entry; on
        success the outputs are written to the output tensor, on failure the
        output tensor is kept. The engine may reuse the input tensor's memory,
        so nothing is promised about its contents afterwards. */
    method Invoke() returns (ok: bool)
      requires Valid()
      modifies input.data, output.data
      ensures ok == engine(old(input.data[..])).Succeeded?
      ensures ok ==> output.data[..] == engine(old(input.data[..])).outputs
      ensures !ok ==> output.data[..] == old(output.data[..])
    {
      var outcome := engine(input.data[..]);
      ok := outcome.Succeeded?;
      if ok {
        forall i | 0 <= i < NUM_EMOTIONS {
          output.data[i] := outcome.outputs[i];
        }
        assert output.data[..] == outcome.outputs;
      }
    }
  }

  // ---------------------------------------------------------------------------
  // model_predict
  // ---------------------------------------------------------------------------

  /** The module state model_load leaves behind: the interpreter and its two
      tensors, or nothing. */
  class EmotionModel {
    var interpreter: Interpreter?
    var inputTensor: Tensor?
    var outputTensor: Tensor?

    /** Whenever all three are present, the tensors are the interpreter's own. */
    ghost predicate Valid()
      reads this, interpreter
    {
      Ready() ==> inputTensor == interpreter.input && outputTensor == interpreter.output && interpreter.Valid()
    }

    /** The guard at the top of model_predict. */
    predicate Ready()
      reads this
    {
      interpreter != null && inputTensor != null && outputTensor != null
    }

    /** The state before model_load (or after model_unload). */
    constructor Unloaded()
      ensures Valid() && !Ready()
    {
      interpreter, inputTensor, outputTensor := null, null, null;
    }

    /** The state after a successful model_load. */
    constructor Loaded(interpreter: Interpreter)
      requires interpreter.Valid()
      ensures Valid() && Ready()
      ensures this.interpreter == interpreter
    {
      this.interpreter := interpreter;
      inputTensor := interpreter.input;
      outputTensor := interpreter.output;
    }

    /** model_predict. Without a loaded engine it returns the sentinel and
        writes nothing. Otherwise the engine runs on the quantised features in
        the feature layout, and the result is the sentinel when it fails or the
        classification of the dequantised outputs. */
    method Predict(mfccIn: array<real>) returns (result: EmotionResult)
      requires Valid() && mfccIn.Length == FEATURE_COUNT
      modifies if Ready() then {inputTensor.data, outputTensor.data} else {}
      ensures !Ready() ==> result == ErrorResult()
      ensures Ready() ==>
                var inputs := Quantized(mfccIn[..], inputTensor.scale, inputTensor.zeroPoint);
                match interpreter.engine(inputs)
                   case Failed => result == ErrorResult()
                   case Succeeded(outputs) =>
                     && outputTensor.data[..] == outputs
                     && result == Classify(Dequantized(outputs, outputTensor.scale, outputTensor.zeroPoint))
    {
      if !Ready() {
        return ErrorResult();
      }
      QuantizeInput(mfccIn, inputTensor);
      var ok := interpreter.Invoke();
      if !ok {
        return ErrorResult();
      }
      result := ReadOutput(outputTensor);
    }

    /** The quantisation loop of model_predict: feature k of the coefficient-major
        buffer goes, quantised, to slot k of the input tensor. */
    method QuantizeInput(mfccIn: array<real>, tensor: Tensor)
      requires tensor.scale > 0.0 && mfccIn.Length == FEATURE_COUNT && tensor.data.Length == FEATURE_COUNT
      modifies tensor.data
      ensures tensor.data[..] == Quantized(mfccIn[..], tensor.scale, tensor.zeroPoint)
    {
      var inputScale := tensor.scale;
      var inputZeroPoint := tensor.zeroPoint;
      ghost var inputs := Quantized(mfccIn[..], inputScale, inputZeroPoint);
      FeatureIndexBijective();
      for mfccIdx := 0 to N_MFCC
        invariant forall i, f :: 0 <= i < mfccIdx && 0 <= f < N_FRAMES ==>
                    tensor.data[FeatureIndex(i, f)] == inputs[FeatureIndex(i, f)]
      {
        for frameIdx := 0 to N_FRAMES
          invariant forall i, f :: 0 <= i < mfccIdx && 0 <= f < N_FRAMES ==>
                      tensor.data[FeatureIndex(i, f)] == inputs[FeatureIndex(i, f)]
          invariant forall f :: 0 <= f < frameIdx ==>
                      tensor.data[FeatureIndex(mfccIdx, f)] == inputs[FeatureIndex(mfccIdx, f)]
        {
          var value := mfccIn[FeatureIndex(mfccIdx, frameIdx)];
          var quantized := Round(value / inputScale) + inputZeroPoint;
          quantized := Clamp(quantized, INT8_MIN, INT8_MAX);
          tensor.data[FeatureIndex(mfccIdx, frameIdx)] := quantized;
        }
      }
      forall k | 0 <= k < FEATURE_COUNT
        ensures tensor.data[k] == inputs[k]
      {
        assert FeatureIndex(k / N_FRAMES, k % N_FRAMES) == k;
      }
      assert tensor.data[..] == inputs;
    }

    /** The output stage of model_predict: dequantise every output and pick
        the running maximum, as Classify describes. */
    method ReadOutput(tensor: Tensor) returns (result: EmotionResult)
      requires tensor.data.Length == NUM_EMOTIONS
      ensures result == Classify(Dequantized(tensor.data[..], tensor.scale, tensor.zeroPoint))
    {
      var outputScale := tensor.scale;
      var outputZeroPoint := tensor.zeroPoint;
      ghost var probs := Dequantized(tensor.data[..], outputScale, outputZeroPoint);
      var probabilities := seq(NUM_EMOTIONS, _ => 0.0);
      var maxProb := SCAN_SEED;
      var maxIdx := 0;
      for i := 0 to NUM_EMOTIONS
        invariant |probabilities| == NUM_EMOTIONS
        invariant probabilities[..i] == probs[..i]
        invariant (maxIdx, maxProb) == ScanMax(probs[..i])
      {
        var quantValue := tensor.data[i];
        var prob := Dequantize(quantValue, outputScale, outputZeroPoint);
        probabilities := probabilities[i := prob];
        assert probs[..i + 1][..i] == probs[..i];
        if prob > maxProb {
          maxProb := prob;
          maxIdx := i;
        }
      }
      assert probabilities == probs[..NUM_EMOTIONS] == probs;
      LabelsMatchEmotionCount();
      result := EmotionResult(EMOTION_LABELS[maxIdx], maxProb, maxIdx, probabilities);
    }
  }
}
