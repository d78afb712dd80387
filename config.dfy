/**
 * The settings the core reads (app/core/config.py). Loading them from YAML and
 * the environment is not modelled; only the record shapes and their defaults are.
 */
module Config {

  /** `ModelCfg`: `dtype` and `quantization` stay strings, because the helpers
      that read them also decide what happens to a value outside the literal type. */
  datatype ModelCfg = ModelCfg(
    id: string,
    hfTokenEnv: string,
    dtype: string,
    quantization: string,
    deviceMap: string,
    gpuCount: int,
    maxMemoryPerGpu: string,
    maxMemoryCpu: string,
    offloadFolder: string,
    trustRemoteCode: bool)

  /** `ServiceCfg`: only the concurrency limit matters to the core. */
  datatype ServiceCfg = ServiceCfg(maxConcurrent: int)

  /** `GenerationCfg`: sampling values are only passed through. */
  datatype GenerationCfg = GenerationCfg(
    defaultMaxNewTokens: int,
    maxNewTokensLimit: int,
    doSample: bool,
    temperature: real,
    topP: real)

  const DefaultModel := ModelCfg("google/translategemma-12b-it", "HF_TOKEN", "bfloat16", "none",
                                 "auto", 1, "23GiB", "64GiB", "./offload", false)

  const DefaultService := ServiceCfg(1)

  const DefaultGeneration := GenerationCfg(200, 1024, false, 1.0, 1.0)
}
