/**
 * The per-user paths under `~/.moose`, the model-file sanity check and the
 * startup snapshot the frontend asks for on launch.
 */
module Startup {
  import opened Common
  import opened ProjectRoot
  import opened ConfigStore
  import Gateway

  const MODEL_FILENAME: string := "Ministral-3-14B-Reasoning-2512-Q4_K_M.gguf"
  /** A model file must be larger than this to count as present (about 7.5 GB). */
  const MODEL_MIN_SIZE: nat := 7_500_000_000

  /** `Path::file_name`: the last component, none for the root or a trailing `..`. */
  function FileName(p: Path): Option<string> {
    if p == [] || p[|p| - 1] == ".." then None else Some(p[|p| - 1])
  }

  /** `get_moose_dir`: `~/.moose`. */
  function MooseDir(home: Path): (p: Path)
    ensures |p| == |home| + 1 && p[..|home|] == home
    ensures FileName(p) == Some(".moose")
  {
    Join(home, [".moose"])
  }

  /** `get_config_path`: `~/.moose/config.json`, whose parent is the directory `update_config` creates. */
  function ConfigPath(home: Path): (p: Path)
    ensures |p| > 0 && p[..|p| - 1] == MooseDir(home)
    ensures FileName(p) == Some("config.json")
  {
    Join(MooseDir(home), ["config.json"])
  }

  /** `get_model_path`: `~/.moose/models/llama-cpp/<MODEL_FILENAME>`. */
  function ModelPath(home: Path): (p: Path)
    ensures |p| > |MooseDir(home)| && p[..|MooseDir(home)|] == MooseDir(home)
    ensures FileName(p) == Some(MODEL_FILENAME)
    ensures p == MooseDir(home) + ["models", "llama-cpp", MODEL_FILENAME]
  {
    Join(MooseDir(home), ["models", "llama-cpp", MODEL_FILENAME])
  }

  /**
   * `check_model_exists_internal`: `files` maps each existing file to its
   * length; the model counts as present only when strictly larger than
   * MODEL_MIN_SIZE.
   */
  predicate CheckModelExists(home: Path, files: map<Path, nat>): (b: bool)
    ensures b ==> ModelPath(home) in files && files[ModelPath(home)] > MODEL_MIN_SIZE
    ensures ModelPath(home) !in files ==> !b
  {
    var p := ModelPath(home);
    p in files && files[p] > MODEL_MIN_SIZE
  }

  /** A file of exactly MODEL_MIN_SIZE bytes, or a missing one, is reported absent. */
  lemma ModelCheckIsStrict(home: Path, files: map<Path, nat>)
    ensures ModelPath(home) !in files ==> !CheckModelExists(home, files)
    ensures ModelPath(home) in files && files[ModelPath(home)] == MODEL_MIN_SIZE ==> !CheckModelExists(home, files)
    ensures CheckModelExists(home, files[ModelPath(home) := MODEL_MIN_SIZE + 1])
  {
  }

  datatype StartupInfo = StartupInfo(
    config: AppConfig,
    modelExists: bool,
    modelSize: nat,
    modelName: string,
    gatewayPort: nat)

  /**
   * `get_startup_info`: the config (its error aborts), the model check, the
   * model's name and size (its size only when present), and the gateway port.
   */
  function GetStartupInfo(home: Path, config: ConfigFile, files: map<Path, nat>, portVar: Option<string>)
    : (r: Result<StartupInfo, ConfigError>)
    ensures r.Err? <==> GetConfig(config).Err?
    ensures r.Err? ==> r.error == GetConfig(config).error
    ensures r.Ok? ==> r.value.config == GetConfig(config).value
    ensures r.Ok? ==> r.value.modelExists == CheckModelExists(home, files)
    ensures r.Ok? ==> r.value.modelName == MODEL_FILENAME
    ensures r.Ok? ==> (r.value.modelExists <==> r.value.modelSize > MODEL_MIN_SIZE)
    ensures r.Ok? && r.value.modelExists ==>
      ModelPath(home) in files && r.value.modelSize == files[ModelPath(home)]
    ensures r.Ok? && !r.value.modelExists ==> r.value.modelSize == 0
    ensures r.Ok? ==> r.value.gatewayPort == Gateway.GatewayPort(portVar) && r.value.gatewayPort < Gateway.U16_LIMIT
  {
    match GetConfig(config)
    case Err(e) => Err(e)
    case Ok(cfg) =>
      var present := CheckModelExists(home, files);
      var path := ModelPath(home);
      var name := if present then (match FileName(path) case Some(n) => n case None => "Unknown") else MODEL_FILENAME;
      // the second metadata read sees the same snapshot as the check, so it cannot fail here
      var size := if present then files[path] else 0;
      Ok(StartupInfo(cfg, present, size, name, Gateway.GatewayPort(portVar)))
  }
}
