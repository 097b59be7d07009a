/**
 * The config store of the desktop app: `~/.moose/config.json` read as an
 * untyped JSON value, viewed through the two fields the app owns
 * (`setup_complete`, `theme`), and written back by a read-modify-write that
 * inserts exactly those two keys.
 */
module ConfigStore {
  import opened Common
  import opened Json

  const SETUP_COMPLETE_KEY: string := "setup_complete"
  const THEME_KEY: string := "theme"
  /** `default_theme()`. */
  const DEFAULT_THEME: string := "dark"

  /** The typed view `AppConfig`. */
  datatype AppConfig = AppConfig(setupComplete: bool, theme: string)

  /** The value serde builds when neither owned key is present. */
  function DefaultConfig(): AppConfig {
    AppConfig(false, DEFAULT_THEME)
  }

  /** Why a config operation failed; the Rust code turns each into a message string. */
  datatype ConfigError =
    | IoError(cause: string)        // a file or directory operation failed
    | ParseError(cause: string)     // the file is not valid JSON
    | InvalidField(key: string)     // an owned key holds a value of the wrong JSON type
    | NotAnObject                   // "config.json is not a JSON object"

  /** What is on disk at the config path, already through `read_to_string` and `from_str`. */
  datatype ConfigFile =
    | Missing
    | Unreadable(cause: string)
    | Malformed(cause: string)
    | Stored(doc: Json)

  /** `read_config_raw`: an absent file reads as the empty object. */
  function ReadConfigRaw(file: ConfigFile): (r: Result<Json, ConfigError>)
    ensures file.Missing? ==> r == Ok(JObject(map[]))
    ensures file.Stored? ==> r == Ok(file.doc)
    ensures r.Err? <==> file.Unreadable? || file.Malformed?
    ensures file.Unreadable? ==> r == Err(IoError(file.cause))
    ensures file.Malformed? ==> r == Err(ParseError(file.cause))
  {
    match file
    case Missing => Ok(JObject(map[]))
    case Unreadable(e) => Err(IoError(e))
    case Malformed(e) => Err(ParseError(e))
    case Stored(doc) => Ok(doc)
  }

  /** Each owned key, when present, holds the JSON type its field expects. */
  predicate OwnedFieldsTyped(fields: map<string, Json>) {
    && (SETUP_COMPLETE_KEY in fields ==> fields[SETUP_COMPLETE_KEY].JBool?)
    && (THEME_KEY in fields ==> fields[THEME_KEY].JString?)
  }

  /**
   * `serde_json::from_value::<AppConfig>`: missing owned keys take their
   * defaults, other keys are ignored, a mistyped owned key is an error.
   */
  function Decode(doc: Json): (r: Result<AppConfig, ConfigError>)
    ensures r.Ok? <==> doc.JObject? && OwnedFieldsTyped(doc.fields)
    ensures r.Ok? ==> (r.value.setupComplete <==>
      SETUP_COMPLETE_KEY in doc.fields && doc.fields[SETUP_COMPLETE_KEY] == JBool(true))
    ensures r.Ok? && THEME_KEY in doc.fields ==> r.value.theme == doc.fields[THEME_KEY].s
    ensures r.Ok? && THEME_KEY !in doc.fields ==> r.value.theme == DEFAULT_THEME
  {
    match doc
    case JObject(fields) =>
      if SETUP_COMPLETE_KEY in fields && !fields[SETUP_COMPLETE_KEY].JBool? then
        Err(InvalidField(SETUP_COMPLETE_KEY))
      else if THEME_KEY in fields && !fields[THEME_KEY].JString? then
        Err(InvalidField(THEME_KEY))
      else
        var setup := if SETUP_COMPLETE_KEY in fields then fields[SETUP_COMPLETE_KEY].b else false;
        var theme := if THEME_KEY in fields then fields[THEME_KEY].s else DEFAULT_THEME;
        Ok(AppConfig(setup, theme))
    case _ => Err(NotAnObject)
  }

  /** The typed view never depends on keys other than the two owned ones. */
  lemma DecodeIgnoresOtherKeys(a: map<string, Json>, b: map<string, Json>)
    requires SETUP_COMPLETE_KEY in a <==> SETUP_COMPLETE_KEY in b
    requires THEME_KEY in a <==> THEME_KEY in b
    requires SETUP_COMPLETE_KEY in a ==> a[SETUP_COMPLETE_KEY] == b[SETUP_COMPLETE_KEY]
    requires THEME_KEY in a ==> a[THEME_KEY] == b[THEME_KEY]
    ensures Decode(JObject(a)) == Decode(JObject(b))
  {
  }

  /** `get_config_internal`: the raw read followed by the typed decode. */
  function GetConfig(file: ConfigFile): (r: Result<AppConfig, ConfigError>)
    ensures file.Missing? ==> r == Ok(DefaultConfig())
    ensures file.Unreadable? || file.Malformed? ==> r.Err?
    ensures ReadConfigRaw(file).Err? ==> r == Err(ReadConfigRaw(file).error)
    ensures file.Stored? ==> r == Decode(file.doc)
  {
    match ReadConfigRaw(file)
    case Err(e) => Err(e)
    case Ok(raw) => Decode(raw)
  }

  /**
   * The modify step of `update_config`: insert the two owned keys into the
   * existing object; a document whose root is not an object is refused.
   */
  function Merge(doc: Json, cfg: AppConfig): (r: Result<Json, ConfigError>)
    ensures r.Err? <==> !doc.JObject?
    ensures r.Err? ==> r.error == NotAnObject
    ensures r.Ok? ==> r.value.JObject?
    ensures r.Ok? ==> r.value.fields.Keys == doc.fields.Keys + {SETUP_COMPLETE_KEY, THEME_KEY}
    ensures r.Ok? ==> r.value.fields[SETUP_COMPLETE_KEY] == JBool(cfg.setupComplete)
    ensures r.Ok? ==> r.value.fields[THEME_KEY] == JString(cfg.theme)
    ensures r.Ok? ==> forall k :: k in doc.fields && k != SETUP_COMPLETE_KEY && k != THEME_KEY ==>
      r.value.fields[k] == doc.fields[k]
    ensures r.Ok? ==> Decode(r.value) == Ok(cfg)
  {
    match doc
    case JObject(fields) =>
      Ok(JObject(fields[SETUP_COMPLETE_KEY := JBool(cfg.setupComplete)][THEME_KEY := JString(cfg.theme)]))
    case _ => Err(NotAnObject)
  }

  /** A second update overrides the first one completely: the last write wins, and writing twice is writing once. */
  lemma MergeLastWriteWins(doc: Json, first: AppConfig, second: AppConfig)
    requires doc.JObject?
    ensures Merge(Merge(doc, first).value, second) == Merge(doc, second)
  {
    var once := Merge(doc, second).value.fields;
    var twice := Merge(Merge(doc, first).value, second).value.fields;
    assert twice.Keys == once.Keys;
    forall k | k in twice ensures twice[k] == once[k] {
    }
    assert twice == once;
  }

  /** The store holding the config file; `update_config` rewrites it in place. */
  class ConfigStore {
    var file: ConfigFile

    constructor (file: ConfigFile)
      ensures this.file == file
    {
      this.file := file;
    }

    /**
     * `update_config`. `mkdir` and `write` are the outcomes of
     * `create_dir_all` and `fs::write`. Nothing is written unless the
     * existing root reads as an object.
     */
    method Update(cfg: AppConfig, mkdir: Result<(), string>, write: Result<(), string>)
      returns (r: Result<(), ConfigError>)
      modifies this
      ensures mkdir.Err? ==> r == Err(IoError(mkdir.error))
      ensures mkdir.Ok? && ReadConfigRaw(old(file)).Err? ==> r == Err(ReadConfigRaw(old(file)).error)
      ensures mkdir.Ok? && ReadConfigRaw(old(file)).Ok? && !ReadConfigRaw(old(file)).value.JObject? ==>
        r == Err(NotAnObject)
      ensures mkdir.Ok? && ReadConfigRaw(old(file)).Ok? && ReadConfigRaw(old(file)).value.JObject? ==>
        r == (if write.Ok? then Ok(()) else Err(IoError(write.error)))
      ensures r.Err? ==> file == old(file)
      ensures r.Ok? ==> file == Stored(Merge(ReadConfigRaw(old(file)).value, cfg).value)
      ensures r.Ok? ==> GetConfig(file) == Ok(cfg)
    {
      if mkdir.Err? {
        return Err(IoError(mkdir.error));
      }
      var raw := ReadConfigRaw(file);
      if raw.Err? {
        return Err(raw.error);
      }
      var existing := raw.value;
      if !existing.JObject? {
        return Err(NotAnObject);
      }
      var obj := existing.fields;
      obj := obj[SETUP_COMPLETE_KEY := JBool(cfg.setupComplete)];
      obj := obj[THEME_KEY := JString(cfg.theme)];
      if write.Err? {
        return Err(IoError(write.error));
      }
      file := Stored(JObject(obj));
      r := Ok(());
    }
  }
}
