# TFLite inference engine core of the YOLO detection app, in Dafny

This project models the two pieces of pure logic inside the app's TFLite
layer and proves properties about them:

- **Delegate tier filtering** (`AIHubDefaults`). A delegate priority order is
  a list of tiers, most preferred first. Each tier is the set of delegates
  (QNN NPU, GPUv2) that must all initialise together. The empty last tier
  means CPU only (XNNPack). `delegatePriorityOrderForDelegates` keeps only
  the tiers whose delegates are all enabled. The filter is modelled for any
  order as `TierFilter.Filter`, then applied to the app's constants.
- **Tensor marshalling** (`TFLiteInferenceEngine`). The model covers:
  - the tensor descriptors (`TensorInfo`) read once from the interpreter;
  - output quantization normalisation (scale and zero point both below
    0.0001 become the identity transform (1, 0));
  - `dequantize` of unsigned and signed 8-bit buffers;
  - the per-element-type dispatch in `predict`;
  - the release order in `close`, modelled as a trace of release events.

Modules:

- `Wrappers` holds `Option` and `Result`.
- `TierFilter` holds the generic filter.
- `AIHubDefaults` holds the delegate catalogue and the default orders.
- `Quantization` holds the parameters, the byte readings, `Dequantize` and
  its properties.
- `InferenceEngine` holds the descriptors, construction, `Predict` and
  `Close`.

Modelling choices:

- Java `float` is `real`.
- A Java `byte` is an integer in [-128, 127].
- `b & 0xFF` is `b % 256`. Dafny's modulus is Euclidean, so this is the value
  in [0, 255] with the same low eight bits.
- The TFLite zero point is an `int`, converted to `real` when stored.
- Everything the TFLite runtime computes is an input:
  - tensor metadata;
  - output bytes;
  - the float view of a FLOAT32 buffer;
  - whether the native run failed.
- `close` iterates the values of a `Map` whose iteration order this source
  does not fix. It is modelled by choosing the next key nondeterministically,
  which covers every order.

The zero-point test is signed, not a magnitude test. A tiny scale with a
negative zero point (for example 0.00005 and -128) is therefore also
replaced by the identity. `Quantization.NormalizeNegativeZeroPoint` records
this. The heuristic is kept exactly as written.

## Model

| member | source | states |
|---|---|---|
| TierFilter.Filter | app/src/main/java/com/quic/yolodetection/tflite/AIHubDefaults.java:60 | a tier is in the result exactly when it is in the input order and all its delegates are enabled; the result is never longer than the input |
| TierFilter.FilterSelectsAllowedPositions | app/src/main/java/com/quic/yolodetection/tflite/AIHubDefaults.java:60 | the result is the input restricted to exactly the positions whose tier is allowed, at strictly increasing positions: a subsequence that keeps relative order and adds nothing |
| TierFilter.FilterAppend | app/src/main/java/com/quic/yolodetection/tflite/AIHubDefaults.java:60 | filtering a concatenation equals concatenating the filtered parts (the stream judges each tier on its own) |
| TierFilter.FilterKeepsAllowedOrder | app/src/main/java/com/quic/yolodetection/tflite/AIHubDefaults.java:60 | an order whose tiers are all allowed comes back unchanged |
| TierFilter.FilterKeepsAllIff | app/src/main/java/com/quic/yolodetection/tflite/AIHubDefaults.java:60 | the filter returns its input exactly when every tier is allowed |
| TierFilter.FilterIdempotent | app/src/main/java/com/quic/yolodetection/tflite/AIHubDefaults.java:60 | filtering an already filtered order with the same set changes nothing |
| TierFilter.FilterKeepsCpuFallback | app/src/main/java/com/quic/yolodetection/tflite/AIHubDefaults.java:38-41 | an order ending with the empty CPU tier still ends with it after filtering, for any enabled set, so the result is non-empty |
| AIHubDefaults.DelegatePriorityOrderForDelegates | app/src/main/java/com/quic/yolodetection/tflite/AIHubDefaults.java:58-61 | for any enabled set the restricted default order has 1 to 3 tiers, ends with the empty tier, and holds exactly the default tiers whose delegates are all enabled |
| AIHubDefaults.DefaultOrdersEndWithCpuTier | app/src/main/java/com/quic/yolodetection/tflite/AIHubDefaults.java:25-55 | both the default order and the GPU order end with the empty CPU-only tier |
| AIHubDefaults.DefaultRestrictionByCase | app/src/main/java/com/quic/yolodetection/tflite/AIHubDefaults.java:25-61 | for every enabled set: NPU and GPU keep all three tiers; GPU alone gives the GPU order [{GPUv2}, {}]; without the GPU only [{}] remains |
| AIHubDefaults.DefaultEnabledKeepsAllTiers | app/src/main/java/com/quic/yolodetection/tflite/AIHubDefaults.java:13-61 | the default enabled set {QNN_NPU, GPUv2} keeps the whole default order; the empty set leaves exactly [{}] |
| Quantization.Normalize | app/src/main/java/com/quic/yolodetection/tflite/TFLiteInferenceEngine.java:138-143 | the stored pair is never degenerate (both below 0.0001); it is either the read pair or the identity (1, 0), and it is the read pair whenever that pair is not degenerate |
| Quantization.NormalizeIdempotent | app/src/main/java/com/quic/yolodetection/tflite/TFLiteInferenceEngine.java:139-142 | normalising a normalised pair changes nothing |
| Quantization.NormalizeNegativeZeroPoint | app/src/main/java/com/quic/yolodetection/tflite/TFLiteInferenceEngine.java:139 | the test is signed: scale 0.00005 with zero point -128 is replaced by the identity |
| Quantization.ToUnsigned | app/src/main/java/com/quic/yolodetection/tflite/TFLiteInferenceEngine.java:208 | `& 0xFF` yields a value in [0, 255]; non-negative bytes are unchanged and negative bytes gain 256 |
| Quantization.UnsignedRoundTrip | app/src/main/java/com/quic/yolodetection/tflite/TFLiteInferenceEngine.java:205-208 | the unsigned reading is a bijection between Java bytes and [0, 255] |
| Quantization.Dequantize | app/src/main/java/com/quic/yolodetection/tflite/TFLiteInferenceEngine.java:197-218 | after rewinding, the output has one element per byte of the buffer, whatever its read position, and element i is (value of byte i - offset) * scale; the caller's buffer is left with the same bytes and its position at the limit |
| Quantization.UnsignedExceedsSigned | app/src/main/java/com/quic/yolodetection/tflite/TFLiteInferenceEngine.java:204-214 | the two modes agree on bytes 0..127; for a negative byte the unsigned result is 256 * scale higher |
| Quantization.DequantizeDistributes | app/src/main/java/com/quic/yolodetection/tflite/TFLiteInferenceEngine.java:204-214 | dequantization is element-wise: it distributes over concatenation of byte sequences |
| Quantization.DequantizeExamples | app/src/main/java/com/quic/yolodetection/tflite/TFLiteInferenceEngine.java:206-213 | unsigned identity maps stored byte -56 to 200 and 0 to 0; signed maps -56 to -56; with parameters normalised from (0, 0) byte 10 gives 10 |
| Quantization.DequantizeInvertsQuantize | app/src/main/java/com/quic/yolodetection/tflite/TFLiteInferenceEngine.java:209-213 | a float quantized by rounding to the nearest step within the byte range is recovered by dequantization to within half a step |
| InferenceEngine.GetInputDetails | app/src/main/java/com/quic/yolodetection/tflite/TFLiteInferenceEngine.java:149-165 | one descriptor per input tensor in native order, with name, shape, type and index copied, buffer index i, no quantization and no data |
| InferenceEngine.GetOutputDetails | app/src/main/java/com/quic/yolodetection/tflite/TFLiteInferenceEngine.java:126-147 | one descriptor per output tensor in native order, buffer index i, carrying the normalised (scale, zero point) |
| InferenceEngine.Open | app/src/main/java/com/quic/yolodetection/tflite/TFLiteInferenceEngine.java:87-107 | construction keeps the interpreter and delegate store and yields a well-formed engine; input i describes native input i with no quantization; output i describes native output i, reads buffer i and carries the normalised (scale, zero point) of that tensor |
| InferenceEngine.ConvertOutputs | app/src/main/java/com/quic/yolodetection/tflite/TFLiteInferenceEngine.java:174-193 | FLOAT32 gets the float view of its buffer; UINT8 gets unsigned and INT8 signed dequantization with its own parameters; other types are untouched; length, order and all fields but data are preserved |
| InferenceEngine.Predict | app/src/main/java/com/quic/yolodetection/tflite/TFLiteInferenceEngine.java:167-195 | a failed native run surfaces its error; a successful one changes only the output list and keeps the engine well formed; output i keeps every field but data; FLOAT32 gets the floats of buffer i, UINT8 unsigned and INT8 signed dequantization of buffer i with its own parameters, and any other type is unchanged |
| InferenceEngine.IterationOrder | app/src/main/java/com/quic/yolodetection/tflite/TFLiteInferenceEngine.java:115 | iterating the delegate store visits every key exactly once, in an order the source does not fix |
| InferenceEngine.Close | app/src/main/java/com/quic/yolodetection/tflite/TFLiteInferenceEngine.java:112-118 | the interpreter is released first, then each stored delegate exactly once, with no other events |

## Left out

- The tier-by-tier fallback that creates the interpreter and delegates
  (`TFLiteHelpers.CreateInterpreterAndDelegatesFromOptions`). TFLiteHelpers.java
  is not part of this model, so its result is an input to `InferenceEngine.Open`.
- The full `DelegateType` enumeration is declared in TFLiteHelpers.java, which
  is not part of this model. Only the two delegates used here (QNN_NPU and
  GPUv2) are modelled. The filter itself is generic.
- Model loading and hashing (`TFLiteHelpers.loadModelFile`): asset I/O.
- The native inference call and the interpreter's tensor queries are foreign
  calls. Their results are inputs (`Interpreter`, `RunOutcome`,
  `OutputBuffer`). Binding the input image buffer is not modelled.
- Inference timing, `getLastInferenceTime` formatting and `Log.e`: telemetry.
- `numCPUThreads` comes from the platform's processor count. It only feeds
  the fallback algorithm.
- IEEE single-precision rounding and the byte-to-float reinterpretation of
  FLOAT32 buffers. Arithmetic is exact over `real`, and the float view of a
  buffer is an opaque input.
- `ByteBuffer` limit and capacity: a buffer is the bytes up to its limit,
  plus a read position.
- Use after close: the engine has no closed flag. A second `close` would
  release everything again, and `predict` after `close` relies on the TFLite
  runtime to reject the call. Neither is modelled beyond `Close`'s trace.
- The TAG field set to the model path: used only for logging.
- Aliasing of results: `predict` writes the data into the engine's own
  descriptor objects and returns that same list, so a list returned by an
  earlier call is overwritten by the next one. `Predict` returns a new engine
  value instead, and earlier results stay intact. Callers must not rely on
  that.
- Close: releases that throw are not modelled. `close` has no try/finally,
  so if the interpreter's or one delegate's `close()` throws, the remaining
  releases are skipped. `Close` always emits the full trace, because the
  foreign `close()` calls are assumed to return normally.
