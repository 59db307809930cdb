/** The inference session of `TFLiteInferenceEngine`: tensor descriptors read
    once from the interpreter, the per-type conversion of output buffers after
    each inference, and the release order on close. Everything the TFLite
    runtime computes (tensor metadata, output bytes, the float view of an
    output buffer, whether the native run succeeded) is an input here. */
module InferenceEngine {
  import opened Wrappers
  import opened Quantization
  import AIHubDefaults

  /** Element types of a tensor. The engine distinguishes FLOAT32, UINT8 and
      INT8; every other TFLite type is an `OtherType`, told apart only by an
      opaque code that never denotes one of those three. */
  datatype DataType = Float32 | UInt8 | Int8 | OtherType(code: nat)

  /** What the interpreter reports for one input or output tensor. The zero
      point is an integer in TFLite. */
  datatype NativeTensor = NativeTensor(
    name: string,
    shape: seq<int>,
    dataType: DataType,
    index: int,
    scale: real,
    zeroPoint: int)

  /** `TensorInfo`: a tensor descriptor and the data last written to it.
      `quant` is set on output descriptors only; `data` stays absent until a
      prediction writes it. */
  datatype TensorInfo = TensorInfo(
    name: string,
    shape: seq<int>,
    dataType: DataType,
    bufferIndex: int,
    id: int,
    quant: Option<QuantParams>,
    data: Option<seq<real>>)

  /** `info` is the descriptor built for native tensor `t` at position `i`:
      name, shape, type and tensor index copied, buffer index `i`, no data. */
  predicate Describes(info: TensorInfo, t: NativeTensor, i: int)
  {
    && info.name == t.name
    && info.shape == t.shape
    && info.dataType == t.dataType
    && info.id == t.index
    && info.bufferIndex == i
    && info.data == None
  }

  /** The quantization parameters stored for an output tensor. */
  function OutputQuant(t: NativeTensor): QuantParams
  {
    Normalize(t.scale, t.zeroPoint as real)
  }

  /** `getInputDetails`: one descriptor per input tensor, in native order. */
  method GetInputDetails(inputs: seq<NativeTensor>) returns (infos: seq<TensorInfo>)
    ensures |infos| == |inputs|
    ensures forall i :: 0 <= i < |infos| ==> Describes(infos[i], inputs[i], i) && infos[i].quant == None
  {
    infos := [];
    for i := 0 to |inputs|
      invariant |infos| == i
      invariant forall k :: 0 <= k < i ==> Describes(infos[k], inputs[k], k) && infos[k].quant == None
    {
      var t := inputs[i];
      infos := infos + [TensorInfo(t.name, t.shape, t.dataType, i, t.index, None, None)];
    }
  }

  /** `getOutputDetails`: one descriptor per output tensor, in native order,
      each carrying its normalised quantization parameters. */
  method GetOutputDetails(outputs: seq<NativeTensor>) returns (infos: seq<TensorInfo>)
    ensures |infos| == |outputs|
    ensures forall i :: 0 <= i < |infos| ==>
      Describes(infos[i], outputs[i], i) && infos[i].quant == Some(OutputQuant(outputs[i]))
  {
    infos := [];
    for i := 0 to |outputs|
      invariant |infos| == i
      invariant forall k :: 0 <= k < i ==>
        Describes(infos[k], outputs[k], k) && infos[k].quant == Some(OutputQuant(outputs[k]))
    {
      var t := outputs[i];
      var scaleOffset := QuantParams(t.scale, t.zeroPoint as real);
      if scaleOffset.scale < Threshold && scaleOffset.offset < Threshold {
        scaleOffset := Identity;
      }
      infos := infos + [TensorInfo(t.name, t.shape, t.dataType, i, t.index, Some(scaleOffset), None)];
    }
  }

  /** An opaque native handle. */
  datatype InterpreterHandle = InterpreterHandle(id: nat)
  datatype DelegateHandle = DelegateHandle(id: nat)

  /** The interpreter chosen by the delegate fallback, with the tensors it
      reports. */
  datatype Interpreter = Interpreter(
    handle: InterpreterHandle,
    inputs: seq<NativeTensor>,
    outputs: seq<NativeTensor>)

  /** An engine: the interpreter, the delegates created for it, and the
      descriptor lists built at construction. */
  datatype Engine = Engine(
    interpreter: Interpreter,
    delegateStore: map<AIHubDefaults.DelegateType, DelegateHandle>,
    inputList: seq<TensorInfo>,
    outputList: seq<TensorInfo>)

  /** What construction establishes and every prediction keeps: one output
      descriptor per output tensor, whose buffer index is its position and
      which carries normalised quantization parameters. */
  predicate WellFormed(e: Engine)
  {
    && |e.inputList| == |e.interpreter.inputs|
    && |e.outputList| == |e.interpreter.outputs|
    && forall i :: 0 <= i < |e.outputList| ==>
         && e.outputList[i].bufferIndex == i
         && e.outputList[i].quant.Some?
         && !Degenerate(e.outputList[i].quant.value)
  }

  /** The constructor after the interpreter and delegates exist: it reads
      the input and output descriptors once. */
  method Open(interpreter: Interpreter, delegateStore: map<AIHubDefaults.DelegateType, DelegateHandle>)
    returns (e: Engine)
    ensures WellFormed(e)
    ensures e.interpreter == interpreter && e.delegateStore == delegateStore
    ensures forall i :: 0 <= i < |e.outputList| ==>
      Describes(e.outputList[i], interpreter.outputs[i], i)
      && e.outputList[i].quant == Some(OutputQuant(interpreter.outputs[i]))
    ensures forall i :: 0 <= i < |e.inputList| ==>
      Describes(e.inputList[i], interpreter.inputs[i], i) && e.inputList[i].quant == None
  {
    var inputList := GetInputDetails(interpreter.inputs);
    var outputList := GetOutputDetails(interpreter.outputs);
    e := Engine(interpreter, delegateStore, inputList, outputList);
  }

  /** An output tensor's buffer after a run: its raw bytes and, for a
      FLOAT32 tensor, the floats those bytes encode. */
  datatype OutputBuffer = OutputBuffer(bytes: ByteBuffer, floats: seq<real>)

  /** Outcome of the native inference call. */
  datatype RunOutcome = Ran(buffers: seq<OutputBuffer>) | RunFailed(reason: string)

  /** Every descriptor names an existing buffer, and every 8-bit descriptor
      has quantization parameters. */
  predicate Dispatchable(outputs: seq<TensorInfo>, buffers: seq<OutputBuffer>)
  {
    forall i :: 0 <= i < |outputs| ==>
      && 0 <= outputs[i].bufferIndex < |buffers|
      && (outputs[i].dataType == UInt8 || outputs[i].dataType == Int8 ==> outputs[i].quant.Some?)
  }

  /** The loop of `predict` over the output descriptors: FLOAT32 receives
      the float view of its buffer, UINT8 and INT8 receive their bytes
      dequantized with the descriptor's parameters, any other type keeps
      its previous data; nothing but `data` changes, and the list keeps its
      length and order. */
  method ConvertOutputs(outputs: seq<TensorInfo>, buffers: seq<OutputBuffer>)
    returns (r: seq<TensorInfo>)
    requires Dispatchable(outputs, buffers)
    ensures |r| == |outputs|
    ensures forall i :: 0 <= i < |r| ==> r[i].(data := outputs[i].data) == outputs[i]
    ensures forall i :: 0 <= i < |r| && outputs[i].dataType == Float32 ==>
      r[i].data == Some(buffers[outputs[i].bufferIndex].floats)
    ensures forall i :: 0 <= i < |r| && outputs[i].dataType == UInt8 ==>
      r[i].data == Some(DequantizedValues(buffers[outputs[i].bufferIndex].bytes.content,
                                          outputs[i].quant.value.scale, outputs[i].quant.value.offset, true))
    ensures forall i :: 0 <= i < |r| && outputs[i].dataType == Int8 ==>
      r[i].data == Some(DequantizedValues(buffers[outputs[i].bufferIndex].bytes.content,
                                          outputs[i].quant.value.scale, outputs[i].quant.value.offset, false))
    ensures forall i :: 0 <= i < |r| && outputs[i].dataType.OtherType? ==> r[i] == outputs[i]
  {
    r := outputs;
    for i := 0 to |outputs|
      invariant |r| == |outputs|
      invariant forall k :: i <= k < |r| ==> r[k] == outputs[k]
      invariant forall k :: 0 <= k < i ==> r[k].(data := outputs[k].data) == outputs[k]
      invariant forall k :: 0 <= k < i && outputs[k].dataType == Float32 ==>
        r[k].data == Some(buffers[outputs[k].bufferIndex].floats)
      invariant forall k :: 0 <= k < i && outputs[k].dataType == UInt8 ==>
        r[k].data == Some(DequantizedValues(buffers[outputs[k].bufferIndex].bytes.content,
                                            outputs[k].quant.value.scale, outputs[k].quant.value.offset, true))
      invariant forall k :: 0 <= k < i && outputs[k].dataType == Int8 ==>
        r[k].data == Some(DequantizedValues(buffers[outputs[k].bufferIndex].bytes.content,
                                            outputs[k].quant.value.scale, outputs[k].quant.value.offset, false))
      invariant forall k :: 0 <= k < i && outputs[k].dataType.OtherType? ==> r[k] == outputs[k]
    {
      var info := r[i];
      var buffer := buffers[info.bufferIndex];
      if info.dataType == Float32 {
        r := r[i := info.(data := Some(buffer.floats))];
      } else if info.dataType == UInt8 {
        var values, _ := Dequantize(buffer.bytes, info.quant.value.scale, info.quant.value.offset, true);
        r := r[i := info.(data := Some(values))];
      } else if info.dataType == Int8 {
        var values, _ := Dequantize(buffer.bytes, info.quant.value.scale, info.quant.value.offset, false);
        r := r[i := info.(data := Some(values))];
      }
    }
  }

  /** `predict`: a failed native run surfaces its error and changes nothing;
      a successful one writes every output descriptor's data by its element
      type, leaving the engine well formed and everything else as it was. */
  method Predict(e: Engine, run: RunOutcome) returns (r: Result<Engine, string>)
    requires WellFormed(e)
    requires run.Ran? ==> |run.buffers| == |e.interpreter.outputs|
    ensures run.RunFailed? ==> r == Failure(run.reason)
    ensures run.Ran? ==> r.Success?
    ensures r.Success? ==> WellFormed(r.value)
    ensures r.Success? ==> r.value.(outputList := e.outputList) == e
    ensures r.Success? ==> |r.value.outputList| == |e.outputList|
    ensures r.Success? ==> forall i :: 0 <= i < |e.outputList| ==>
      r.value.outputList[i].(data := e.outputList[i].data) == e.outputList[i]
    ensures r.Success? ==> forall i :: 0 <= i < |e.outputList| && e.outputList[i].dataType == Float32 ==>
      r.value.outputList[i].data == Some(run.buffers[i].floats)
    ensures r.Success? ==> forall i :: 0 <= i < |e.outputList| && e.outputList[i].dataType == UInt8 ==>
      r.value.outputList[i].data == Some(DequantizedValues(run.buffers[i].bytes.content,
        e.outputList[i].quant.value.scale, e.outputList[i].quant.value.offset, true))
    ensures r.Success? ==> forall i :: 0 <= i < |e.outputList| && e.outputList[i].dataType == Int8 ==>
      r.value.outputList[i].data == Some(DequantizedValues(run.buffers[i].bytes.content,
        e.outputList[i].quant.value.scale, e.outputList[i].quant.value.offset, false))
    ensures r.Success? ==> forall i :: 0 <= i < |e.outputList| && e.outputList[i].dataType.OtherType? ==>
      r.value.outputList[i] == e.outputList[i]
  {
    if run.RunFailed? {
      return Failure(run.reason);
    }
    var outputList := ConvertOutputs(e.outputList, run.buffers);
    r := Success(e.(outputList := outputList));
  }

  /** One release of a native resource. */
  datatype ReleaseEvent =
    | ReleaseInterpreter(interpreter: InterpreterHandle)
    | ReleaseDelegate(kind: AIHubDefaults.DelegateType, delegate: DelegateHandle)

  /** The keys of a map in some order, each exactly once: the (unspecified)
      iteration order of a Java `Map`. */
  method IterationOrder<K, V>(m: map<K, V>) returns (keys: seq<K>)
    ensures |keys| == |m|
    ensures forall k :: k in keys <==> k in m
    ensures forall i, j :: 0 <= i < j < |keys| ==> keys[i] != keys[j]
  {
    keys := [];
    var pending := m.Keys;
    while pending != {}
      invariant pending !! (set k | k in keys) && pending + (set k | k in keys) == m.Keys
      invariant |keys| == |set k | k in keys|
      invariant forall i, j :: 0 <= i < j < |keys| ==> keys[i] != keys[j]
      decreases pending
    {
      var k :| k in pending;
      assert (set x | x in keys + [k]) == (set x | x in keys) + {k};
      keys := keys + [k];
      pending := pending - {k};
    }
    assert (set k | k in keys) == m.Keys;
  }

  /** `close`: the interpreter is released first, then the delegate of every
      entry of the store exactly once, in the store's (unspecified)
      iteration order. */
  method Close(e: Engine) returns (trace: seq<ReleaseEvent>)
    ensures |trace| == 1 + |e.delegateStore|
    ensures trace[0] == ReleaseInterpreter(e.interpreter.handle)
    ensures forall i :: 1 <= i < |trace| ==>
      trace[i].ReleaseDelegate? && trace[i].kind in e.delegateStore
      && trace[i].delegate == e.delegateStore[trace[i].kind]
    ensures forall i, j :: 1 <= i < j < |trace| ==> trace[i].kind != trace[j].kind
    ensures forall k :: k in e.delegateStore ==> ReleaseDelegate(k, e.delegateStore[k]) in trace
  {
    var store := e.delegateStore;
    var kinds := IterationOrder(store);
    trace := [ReleaseInterpreter(e.interpreter.handle)];
    for n := 0 to |kinds|
      invariant |trace| == 1 + n
      invariant trace[0] == ReleaseInterpreter(e.interpreter.handle)
      invariant forall i :: 1 <= i < |trace| ==> trace[i] == ReleaseDelegate(kinds[i - 1], store[kinds[i - 1]])
    {
      trace := trace + [ReleaseDelegate(kinds[n], store[kinds[n]])];
    }
    forall k | k in store
      ensures ReleaseDelegate(k, store[k]) in trace
    {
      var i :| 0 <= i < |kinds| && kinds[i] == k;
      assert trace[i + 1] == ReleaseDelegate(k, store[k]);
    }
  }
}
