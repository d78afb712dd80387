/**
 * Model loading (app/model/loader.py): the configuration helpers and the lazy,
 * process-wide cache of the processor and the model. The two `from_pretrained`
 * calls and the environment are parameters; `BitsAndBytesConfig` is a record.
 */
module Loader {
  import opened Wrappers
  import opened Config

  datatype DType = Float16 | BFloat16

  /** `_torch_dtype`: bfloat16 for exactly the name "bfloat16", float16 for any other. */
  function TorchDtype(name: string): (d: DType)
    ensures d == BFloat16 <==> name == "bfloat16"
    ensures d == Float16 <==> name != "bfloat16"
  {
    if name == "bfloat16" then BFloat16 else Float16
  }

  /** The arguments of the two `BitsAndBytesConfig` constructions. */
  datatype QuantConfig =
    | EightBit                                                          // load_in_8bit=True
    | FourBit(quantType: string, doubleQuant: bool, computeDtype: DType) // load_in_4bit=True, ...

  /** `_make_quant`: no config, an 8-bit config, the 4-bit nf4 config, or
      `ValueError(q)` for a name it does not know. */
  function MakeQuant(q: string): (r: Result<Option<QuantConfig>, string>)
    ensures r == Ok(None) <==> q == "none"
    ensures r == Ok(Some(EightBit)) <==> q == "int8"
    ensures r == Ok(Some(FourBit("nf4", true, BFloat16))) <==> q == "int4"
    ensures r.Err? <==> q !in {"none", "int8", "int4"}
    ensures r.Err? ==> r.error == q
  {
    if q == "none" then Ok(None)
    else if q == "int8" then Ok(Some(EightBit))
    else if q == "int4" then Ok(Some(FourBit("nf4", true, BFloat16)))
    else Err(q)
  }

  /** A key of the `max_memory` dict: "cpu" or a GPU index. */
  datatype Device = Cpu | Gpu(index: int)

  function GpuKeys(gpuCount: int): set<Device>
  {
    set i | 0 <= i < gpuCount :: Gpu(i)
  }

  /** The reference for `_make_max_memory`: "cpu" and the GPU indices below
      `gpuCount`, the first mapped to `cpu`, the others to `perGpu`. */
  function MaxMemory(gpuCount: int, perGpu: string, cpu: string): map<Device, string>
  {
    map d | d in {Cpu} + GpuKeys(gpuCount) :: if d == Cpu then cpu else perGpu
  }

  lemma {:induction false} GpuKeysCount(gpuCount: int)
    ensures |GpuKeys(gpuCount)| == if gpuCount < 0 then 0 else gpuCount
    decreases if gpuCount < 0 then 0 else gpuCount
  {
    if gpuCount <= 0 {
      assert GpuKeys(gpuCount) == {};
    } else {
      assert GpuKeys(gpuCount) == GpuKeys(gpuCount - 1) + {Gpu(gpuCount - 1)};
      GpuKeysCount(gpuCount - 1);
    }
  }

  /** `max_memory` always maps "cpu" to the cpu budget, each index in
      `0..gpuCount-1` to the per-GPU budget, and has no other key: it has
      `1 + max(0, gpuCount)` entries. */
  lemma MaxMemoryShape(gpuCount: int, perGpu: string, cpu: string)
    ensures var mm := MaxMemory(gpuCount, perGpu, cpu);
      && Cpu in mm && mm[Cpu] == cpu
      && (forall i :: Gpu(i) in mm <==> 0 <= i < gpuCount)
      && (forall i :: Gpu(i) in mm ==> mm[Gpu(i)] == perGpu)
      && |mm| == 1 + (if gpuCount < 0 then 0 else gpuCount)
  {
    var mm := MaxMemory(gpuCount, perGpu, cpu);
    assert mm.Keys == {Cpu} + GpuKeys(gpuCount);
    GpuKeysCount(gpuCount);
    assert Cpu !in GpuKeys(gpuCount);
    assert |mm| == |mm.Keys|;
  }

  /** `_make_max_memory`: the dict built key by key in a loop. */
  method MakeMaxMemory(gpuCount: int, perGpu: string, cpu: string) returns (mm: map<Device, string>)
    ensures mm == MaxMemory(gpuCount, perGpu, cpu)
  {
    mm := map[Cpu := cpu];
    var n := if gpuCount < 0 then 0 else gpuCount;
    for i := 0 to n
      invariant mm.Keys == {Cpu} + GpuKeys(i)
      invariant forall d :: d in mm ==> mm[d] == if d == Cpu then cpu else perGpu
    {
      assert GpuKeys(i + 1) == GpuKeys(i) + {Gpu(i)};
      mm := mm[Gpu(i) := perGpu];
    }
    assert GpuKeys(n) == GpuKeys(gpuCount);
  }

  /** Opaque handles for what `from_pretrained` returns. */
  datatype Processor = Processor(handle: nat)
  datatype Model = Model(handle: nat)

  /** The arguments of `AutoProcessor.from_pretrained`. */
  datatype ProcessorArgs = ProcessorArgs(id: string, token: string, trustRemoteCode: bool)

  /** The arguments of `AutoModelForImageTextToText.from_pretrained`;
      `quantizationConfig` is None when the keyword is absent. */
  datatype ModelArgs = ModelArgs(
    id: string,
    token: string,
    deviceMap: string,
    maxMemory: map<Device, string>,
    torchDtype: DType,
    offloadFolder: string,
    trustRemoteCode: bool,
    quantizationConfig: Option<QuantConfig>)

  datatype LoadError = RuntimeError(message: string) | ValueError(message: string) | LibraryError(message: string)

  /** `os.getenv(name)` seen through `if not token`: absent and empty are alike. */
  function Token(env: map<string, string>, name: string): (t: Option<string>)
    ensures t.Some? <==> name in env && env[name] != ""
    ensures t.Some? ==> t.value == env[name]
  {
    if name in env && env[name] != "" then Some(env[name]) else None
  }

  /** The model load arguments, or the `ValueError` of `_make_quant`;
      `quantization_config` is present exactly for "int8" and "int4". */
  function ModelLoadArgs(cfg: ModelCfg, token: string): (r: Result<ModelArgs, LoadError>)
    ensures r.Err? <==> cfg.quantization !in {"none", "int8", "int4"}
    ensures r.Err? ==> r == Err(ValueError(cfg.quantization))
    ensures r.Ok? ==> (r.value.quantizationConfig.Some? <==> cfg.quantization in {"int8", "int4"})
    ensures r.Ok? ==> r.value.maxMemory == MaxMemory(cfg.gpuCount, cfg.maxMemoryPerGpu, cfg.maxMemoryCpu)
    ensures r.Ok? ==> r.value.token == token && r.value.id == cfg.id
    ensures r.Ok? ==> r.value.deviceMap == cfg.deviceMap && r.value.offloadFolder == cfg.offloadFolder &&
                      r.value.trustRemoteCode == cfg.trustRemoteCode
    ensures r.Ok? ==> (r.value.torchDtype == BFloat16 <==> cfg.dtype == "bfloat16")
    ensures cfg.quantization == "int8" ==> r.Ok? && r.value.quantizationConfig == Some(EightBit)
    ensures cfg.quantization == "int4" ==> r.Ok? && r.value.quantizationConfig == Some(FourBit("nf4", true, BFloat16))
  {
    match MakeQuant(cfg.quantization)
    case Err(q) => Err(ValueError(q))
    case Ok(quant) =>
      Ok(ModelArgs(cfg.id, token, cfg.deviceMap, MaxMemory(cfg.gpuCount, cfg.maxMemoryPerGpu, cfg.maxMemoryCpu),
                   TorchDtype(cfg.dtype), cfg.offloadFolder, cfg.trustRemoteCode, quant))
  }

  /** The module globals `processor` and `model`. */
  class Cache {
    var processor: Option<Processor>
    var model: Option<Model>

    /** The model is only ever assigned after the processor. */
    ghost predicate Valid()
      reads this
    {
      model.Some? ==> processor.Some?
    }

    constructor ()
      ensures Valid() && processor == None && model == None
    {
      processor := None;
      model := None;
    }

    /** `ensure_loaded`: return the cached pair once the model is set; otherwise
        read the token, load the processor (assigning it at once), build the
        load arguments and load the model. A raised exception is an `Err`. */
    method EnsureLoaded(cfg: ModelCfg, env: map<string, string>,
                        loadProcessor: ProcessorArgs -> Result<Processor, string>,
                        loadModel: ModelArgs -> Result<Model, string>)
      returns (r: Result<(Processor, Model), LoadError>)
      requires Valid()
      modifies this
      ensures Valid()
      // cached: neither the token nor the loaders are consulted
      ensures old(model).Some? ==>
        r == Ok((old(processor).value, old(model).value)) && processor == old(processor) && model == old(model)
      // no token: RuntimeError before anything is loaded
      ensures old(model).None? && Token(env, cfg.hfTokenEnv).None? ==>
        r == Err(RuntimeError(cfg.hfTokenEnv + " not set")) && processor == old(processor) && model == None
      // a token: the processor is loaded again whatever `processor` held
      ensures old(model).None? && Token(env, cfg.hfTokenEnv).Some? ==>
        var token := Token(env, cfg.hfTokenEnv).value;
        var p := loadProcessor(ProcessorArgs(cfg.id, token, cfg.trustRemoteCode));
        var args := ModelLoadArgs(cfg, token);
        && (p.Err? ==> r == Err(LibraryError(p.error)) && processor == old(processor) && model == None)
        && (p.Ok? ==> processor == Some(p.value))
        && (p.Ok? && args.Err? ==> r == Err(args.error) && model == None)
        && (p.Ok? && args.Ok? && loadModel(args.value).Err? ==>
              r == Err(LibraryError(loadModel(args.value).error)) && model == None)
        && (p.Ok? && args.Ok? && loadModel(args.value).Ok? ==>
              model == Some(loadModel(args.value).value) && r == Ok((p.value, loadModel(args.value).value)))
    {
      if model.Some? {
        return Ok((processor.value, model.value));
      }
      var token := Token(env, cfg.hfTokenEnv);
      if token.None? {
        return Err(RuntimeError(cfg.hfTokenEnv + " not set"));
      }
      var p := loadProcessor(ProcessorArgs(cfg.id, token.value, cfg.trustRemoteCode));
      if p.Err? {
        return Err(LibraryError(p.error));
      }
      processor := Some(p.value);
      var maxMemory := MakeMaxMemory(cfg.gpuCount, cfg.maxMemoryPerGpu, cfg.maxMemoryCpu);
      var dtype := TorchDtype(cfg.dtype);
      var quant := MakeQuant(cfg.quantization);
      if quant.Err? {
        return Err(ValueError(quant.error));
      }
      var args := ModelArgs(cfg.id, token.value, cfg.deviceMap, maxMemory, dtype, cfg.offloadFolder,
                            cfg.trustRemoteCode, quant.value);
      var m := loadModel(args);
      if m.Err? {
        return Err(LibraryError(m.error));
      }
      model := Some(m.value);
      return Ok((p.value, m.value));
    }
  }

  /** After a successful load the next call is served from the cache. */
  method LoadTwice(loader: Cache, cfg: ModelCfg, env: map<string, string>,
                   loadProcessor: ProcessorArgs -> Result<Processor, string>,
                   loadModel: ModelArgs -> Result<Model, string>)
    returns (first: Result<(Processor, Model), LoadError>, second: Result<(Processor, Model), LoadError>)
    requires loader.Valid()
    modifies loader
    ensures first.Ok? ==> second == first
  {
    first := loader.EnsureLoaded(cfg, env, loadProcessor, loadModel);
    second := loader.EnsureLoaded(cfg, env, loadProcessor, loadModel);
  }
}
