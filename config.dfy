/**
 * The configuration (internal/config/config.go). The environment is a map from variable names to
 * values, the home directory an input, and a configuration file is either unreadable (absent from
 * the file map), not JSON (`None`) or a decoded document: the fields it mentions, by their JSON
 * tags, with the values it gives them.
 */
module Config {
  import opened Basics
  import opened Text

  const Second: int := 1_000_000_000

  /** `Config`; durations are `time.Duration` nanosecond counts. */
  datatype Config = Config(
    sampleRate: int, channels: int, bufferSize: int,
    modelPath: string, wakeWord: string, wakeGrammar: string, silenceDelay: int, maxListenTime: int,
    ollamaURL: string, ollamaModel: string, ollamaTimeout: int,
    visionModel: string, visionEnabled: bool,
    vaultPath: string, notePrefix: string,
    ttsEnabled: bool, ttsCommand: string,
    logLevel: string)

  /** The fields of `Config`, one per JSON tag. */
  datatype Field =
    | SampleRate | Channels | BufferSize
    | ModelPath | WakeWord | WakeGrammar | SilenceDelay | MaxListenTime
    | OllamaURL | OllamaModel | OllamaTimeout
    | VisionModel | VisionEnabled
    | VaultPath | NotePrefix
    | TTSEnabled | TTSCommand
    | LogLevel

  const AllFields: seq<Field> := [SampleRate] + [Channels] + [BufferSize] + [ModelPath] + [WakeWord] +
    [WakeGrammar] + [SilenceDelay] + [MaxListenTime] + [OllamaURL] + [OllamaModel] + [OllamaTimeout] +
    [VisionModel] + [VisionEnabled] + [VaultPath] + [NotePrefix] + [TTSEnabled] + [TTSCommand] + [LogLevel]

  /** The JSON tag of each field. */
  function Tag(f: Field): string {
    match f
    case SampleRate => "sample_rate"
    case Channels => "channels"
    case BufferSize => "buffer_size"
    case ModelPath => "model_path"
    case WakeWord => "wake_word"
    case WakeGrammar => "wake_grammar"
    case SilenceDelay => "silence_delay"
    case MaxListenTime => "max_listen_time"
    case OllamaURL => "ollama_url"
    case OllamaModel => "ollama_model"
    case OllamaTimeout => "ollama_timeout"
    case VisionModel => "vision_model"
    case VisionEnabled => "vision_enabled"
    case VaultPath => "vault_path"
    case NotePrefix => "note_prefix"
    case TTSEnabled => "tts_enabled"
    case TTSCommand => "tts_command"
    case LogLevel => "log_level"
  }

  /** A decoded JSON value. */
  datatype JValue = JInt(i: int) | JStr(s: string) | JBool(b: bool)

  /** A decoded configuration file: the fields it mentions and their values. */
  type Doc = map<Field, JValue>

  /** The value of one field. */
  function Get(c: Config, f: Field): JValue {
    match f
    case SampleRate => JInt(c.sampleRate)
    case Channels => JInt(c.channels)
    case BufferSize => JInt(c.bufferSize)
    case ModelPath => JStr(c.modelPath)
    case WakeWord => JStr(c.wakeWord)
    case WakeGrammar => JStr(c.wakeGrammar)
    case SilenceDelay => JInt(c.silenceDelay)
    case MaxListenTime => JInt(c.maxListenTime)
    case OllamaURL => JStr(c.ollamaURL)
    case OllamaModel => JStr(c.ollamaModel)
    case OllamaTimeout => JInt(c.ollamaTimeout)
    case VisionModel => JStr(c.visionModel)
    case VisionEnabled => JBool(c.visionEnabled)
    case VaultPath => JStr(c.vaultPath)
    case NotePrefix => JStr(c.notePrefix)
    case TTSEnabled => JBool(c.ttsEnabled)
    case TTSCommand => JStr(c.ttsCommand)
    case LogLevel => JStr(c.logLevel)
  }

  /** A value of the field's Go type: decoding anything else is an error. */
  predicate Fits(f: Field, v: JValue) {
    match f
    case SampleRate | Channels | BufferSize | SilenceDelay | MaxListenTime | OllamaTimeout => v.JInt?
    case VisionEnabled | TTSEnabled => v.JBool?
    case _ => v.JStr?
  }

  /** The configuration with one field replaced. */
  function Set(c: Config, f: Field, v: JValue): (r: Config)
    requires Fits(f, v)
    ensures Get(r, f) == v
  {
    match f
    case SampleRate => c.(sampleRate := v.i)
    case Channels => c.(channels := v.i)
    case BufferSize => c.(bufferSize := v.i)
    case ModelPath => c.(modelPath := v.s)
    case WakeWord => c.(wakeWord := v.s)
    case WakeGrammar => c.(wakeGrammar := v.s)
    case SilenceDelay => c.(silenceDelay := v.i)
    case MaxListenTime => c.(maxListenTime := v.i)
    case OllamaURL => c.(ollamaURL := v.s)
    case OllamaModel => c.(ollamaModel := v.s)
    case OllamaTimeout => c.(ollamaTimeout := v.i)
    case VisionModel => c.(visionModel := v.s)
    case VisionEnabled => c.(visionEnabled := v.b)
    case VaultPath => c.(vaultPath := v.s)
    case NotePrefix => c.(notePrefix := v.s)
    case TTSEnabled => c.(ttsEnabled := v.b)
    case TTSCommand => c.(ttsCommand := v.s)
    case LogLevel => c.(logLevel := v.s)
  }

  /** Setting one field leaves every other field as it was. */
  lemma SetOther(c: Config, f: Field, v: JValue, g: Field)
    requires Fits(f, v) && g != f
    ensures Get(Set(c, f, v), g) == Get(c, g)
  {
    match f
    case SampleRate =>
    case Channels =>
    case BufferSize =>
    case ModelPath =>
    case WakeWord =>
    case WakeGrammar =>
    case SilenceDelay =>
    case MaxListenTime =>
    case OllamaURL =>
    case OllamaModel =>
    case OllamaTimeout =>
    case VisionModel =>
    case VisionEnabled =>
    case VaultPath =>
    case NotePrefix =>
    case TTSEnabled =>
    case TTSCommand =>
    case LogLevel =>
  }

  /** Setting a field to the value it has changes nothing. */
  lemma SetSame(c: Config, f: Field)
    ensures Fits(f, Get(c, f)) && Set(c, f, Get(c, f)) == c
  {
    match f
    case SampleRate =>
    case Channels =>
    case BufferSize =>
    case ModelPath =>
    case WakeWord =>
    case WakeGrammar =>
    case SilenceDelay =>
    case MaxListenTime =>
    case OllamaURL =>
    case OllamaModel =>
    case OllamaTimeout =>
    case VisionModel =>
    case VisionEnabled =>
    case VaultPath =>
    case NotePrefix =>
    case TTSEnabled =>
    case TTSCommand =>
    case LogLevel =>
  }

  /** Two configurations with the same value in every field are the same. */
  lemma SameFields(a: Config, b: Config)
    requires forall f :: Get(a, f) == Get(b, f)
    ensures a == b
  {
    assert a.sampleRate == b.sampleRate by { assert Get(a, SampleRate) == Get(b, SampleRate); }
    assert a.channels == b.channels by { assert Get(a, Channels) == Get(b, Channels); }
    assert a.bufferSize == b.bufferSize by { assert Get(a, BufferSize) == Get(b, BufferSize); }
    assert a.modelPath == b.modelPath by { assert Get(a, ModelPath) == Get(b, ModelPath); }
    assert a.wakeWord == b.wakeWord by { assert Get(a, WakeWord) == Get(b, WakeWord); }
    assert a.wakeGrammar == b.wakeGrammar by { assert Get(a, WakeGrammar) == Get(b, WakeGrammar); }
    assert a.silenceDelay == b.silenceDelay by { assert Get(a, SilenceDelay) == Get(b, SilenceDelay); }
    assert a.maxListenTime == b.maxListenTime by { assert Get(a, MaxListenTime) == Get(b, MaxListenTime); }
    assert a.ollamaURL == b.ollamaURL by { assert Get(a, OllamaURL) == Get(b, OllamaURL); }
    assert a.ollamaModel == b.ollamaModel by { assert Get(a, OllamaModel) == Get(b, OllamaModel); }
    assert a.ollamaTimeout == b.ollamaTimeout by { assert Get(a, OllamaTimeout) == Get(b, OllamaTimeout); }
    assert a.visionModel == b.visionModel by { assert Get(a, VisionModel) == Get(b, VisionModel); }
    assert a.visionEnabled == b.visionEnabled by { assert Get(a, VisionEnabled) == Get(b, VisionEnabled); }
    assert a.vaultPath == b.vaultPath by { assert Get(a, VaultPath) == Get(b, VaultPath); }
    assert a.notePrefix == b.notePrefix by { assert Get(a, NotePrefix) == Get(b, NotePrefix); }
    assert a.ttsEnabled == b.ttsEnabled by { assert Get(a, TTSEnabled) == Get(b, TTSEnabled); }
    assert a.ttsCommand == b.ttsCommand by { assert Get(a, TTSCommand) == Get(b, TTSCommand); }
    assert a.logLevel == b.logLevel by { assert Get(a, LogLevel) == Get(b, LogLevel); }
  }

  /** `Default`, with the home directory as an input (empty when Go cannot find it). */
  function Default(home: string): (c: Config)
    ensures c.sampleRate == 16000 && c.channels == 1
    ensures c.ollamaModel == "qwen3:8b" && c.wakeWord == "эй бобик"
  {
    Config(
      16000, 1, 4000,
      "models/vosk-model-small-ru-0.22", "эй бобик",
      "[\"эй бобик\", \"бобик\", \"запиши\", \"сделай\", \"напомни\", \"поставь\", \"[unk]\"]",
      1 * Second, 7 * Second,
      "http://localhost:11434", "qwen3:8b", 60 * Second,
      "llava", false,
      PathJoin(PathJoin(home, "SECOND_BRAIN"), "SECOND_BRAIN"), "",
      false, "espeak-ng",
      "info")
  }

  // ---------------------------------------------------------------------------------------------
  // Decoding a file over the defaults

  /** A document decodes iff every value it gives fits its field's type. */
  predicate WellTyped(doc: Doc) {
    forall f :: f in doc ==> Fits(f, doc[f])
  }

  /** The fields of `fs` that `doc` mentions, set one after the other. */
  function Overlay(c: Config, doc: Doc, fs: seq<Field>): Config
    requires WellTyped(doc)
    decreases |fs|
  {
    if fs == [] then c
    else Overlay(if fs[0] in doc then Set(c, fs[0], doc[fs[0]]) else c, doc, fs[1..])
  }

  lemma {:induction false} OverlayFields(c: Config, doc: Doc, fs: seq<Field>, g: Field)
    requires WellTyped(doc)
    ensures Get(Overlay(c, doc, fs), g) == if g in fs && g in doc then doc[g] else Get(c, g)
    decreases |fs|
  {
    if fs != [] {
      var c' := if fs[0] in doc then Set(c, fs[0], doc[fs[0]]) else c;
      OverlayFields(c', doc, fs[1..], g);
      if fs[0] in doc && fs[0] != g {
        SetOther(c, fs[0], doc[fs[0]], g);
      }
      if g !in fs[1..] && g in fs {
        assert g == fs[0];
      }
    }
  }

  /** `json.Unmarshal` into `c`: `None` is a decoding error. */
  function Decode(c: Config, content: Option<Doc>): Option<Config> {
    if content.None? || !WellTyped(content.value) then None
    else Some(Overlay(c, content.value, AllFields))
  }

  /** Every field is one of `AllFields`. */
  lemma InAllFields(g: Field)
    ensures g in AllFields
  {
    match g
    case SampleRate =>
    case Channels =>
    case BufferSize =>
    case ModelPath =>
    case WakeWord =>
    case WakeGrammar =>
    case SilenceDelay =>
    case MaxListenTime =>
    case OllamaURL =>
    case OllamaModel =>
    case OllamaTimeout =>
    case VisionModel =>
    case VisionEnabled =>
    case VaultPath =>
    case NotePrefix =>
    case TTSEnabled =>
    case TTSCommand =>
    case LogLevel =>
  }

  /** Every field holds a value of its own type. */
  lemma GetFits(c: Config, f: Field)
    ensures Fits(f, Get(c, f))
  {
  }

  /** Decoding fails exactly on text that is not JSON or on a value of the wrong type. */
  lemma DecodeFails(c: Config, content: Option<Doc>)
    ensures Decode(c, content).None? <==> content.None? || exists f :: f in content.value && !Fits(f, content.value[f])
  {
  }

  /**
   * A decoded file keeps the current value of every field it does not mention and takes its own
   * value for every field it does.
   */
  lemma DecodeField(c: Config, doc: Doc, g: Field)
    requires WellTyped(doc)
    ensures Decode(c, Some(doc)).Some?
    ensures Get(Decode(c, Some(doc)).value, g) == if g in doc then doc[g] else Get(c, g)
  {
    InAllFields(g);
    OverlayFields(c, doc, AllFields, g);
  }

  /** What `Save` writes: every field with its value. */
  function Saved(c: Config): Doc {
    map f | f in AllFields :: Get(c, f)
  }

  lemma SavedField(c: Config, f: Field)
    ensures f in Saved(c) && Saved(c)[f] == Get(c, f)
  {
    InAllFields(f);
  }

  /** Decoding what was saved gives back the saved configuration, whatever it is decoded over. */
  lemma DecodeSaved(base: Config, c: Config)
    ensures Decode(base, Some(Saved(c))) == Some(c)
  {
    var doc := Saved(c);
    assert WellTyped(doc) by {
      forall f | f in doc
        ensures Fits(f, doc[f])
      {
        SavedField(c, f);
        GetFits(c, f);
      }
    }
    var r := Overlay(base, doc, AllFields);
    forall g
      ensures Get(r, g) == Get(c, g)
    {
      SavedField(c, g);
      DecodeField(base, doc, g);
    }
    SameFields(r, c);
  }

  // ---------------------------------------------------------------------------------------------
  // Environment overrides

  /** `os.Getenv`: the empty string for an unset variable. */
  function Getenv(env: map<string, string>, name: string): string {
    if name in env then env[name] else ""
  }

  predicate IsOn(v: string) {
    v == "true" || v == "1"
  }

  /**
   * The variable `applyEnvOverrides` reads for a field: BOBIK_ and the upper-case JSON tag. The
   * fields without a variable have none (the empty name is never consulted for them).
   */
  function VarName(f: Field): string {
    match f
    case ModelPath => "BOBIK_MODEL_PATH"
    case OllamaURL => "BOBIK_OLLAMA_URL"
    case OllamaModel => "BOBIK_OLLAMA_MODEL"
    case VaultPath => "BOBIK_VAULT_PATH"
    case NotePrefix => "BOBIK_NOTE_PREFIX"
    case TTSEnabled => "BOBIK_TTS_ENABLED"
    case TTSCommand => "BOBIK_TTS_COMMAND"
    case LogLevel => "BOBIK_LOG_LEVEL"
    case WakeWord => "BOBIK_WAKE_WORD"
    case VisionModel => "BOBIK_VISION_MODEL"
    case VisionEnabled => "BOBIK_VISION_ENABLED"
    case _ => ""
  }

  /**
   * The fields `applyEnvOverrides` looks at, in its order. (Written as a concatenation, the list is
   * not a literal the verifier unfolds every fold over in full.)
   */
  const EnvFields: seq<Field> := [ModelPath] + [OllamaURL] + [OllamaModel] + [VaultPath] + [NotePrefix] + [TTSEnabled] +
    [TTSCommand] + [LogLevel] + [WakeWord] + [VisionModel] + [VisionEnabled]

  /**
   * One `if` of `applyEnvOverrides`, by the field's type: a flag is switched on when its variable
   * is "true" or "1", a string replaced by its variable when that is non-empty; no variable sets a
   * number.
   */
  function Overridden(v: JValue, env: map<string, string>, f: Field): (r: JValue)
    ensures Fits(f, v) ==> Fits(f, r)
  {
    var x := Getenv(env, VarName(f));
    if Fits(f, JBool(true)) then (if IsOn(x) then JBool(true) else v)
    else if Fits(f, JStr("")) then (if x != "" then JStr(x) else v)
    else v
  }

  /** One `if` applied. */
  function Step(c: Config, env: map<string, string>, f: Field): (r: Config)
    ensures Get(r, f) == Overridden(Get(c, f), env, f)
  {
    GetFits(c, f);
    Set(c, f, Overridden(Get(c, f), env, f))
  }

  /** The `if`s for `fs` one after the other. */
  function ApplyAll(c: Config, env: map<string, string>, fs: seq<Field>): Config
    decreases |fs|
  {
    if fs == [] then c else ApplyAll(Step(c, env, fs[0]), env, fs[1..])
  }

  /** `applyEnvOverrides`. */
  function ApplyEnvOverrides(c: Config, env: map<string, string>): Config {
    ApplyAll(c, env, EnvFields)
  }

  /** An override applied to its own result changes nothing. */
  lemma OverriddenIdempotent(v: JValue, env: map<string, string>, f: Field)
    ensures Overridden(Overridden(v, env, f), env, f) == Overridden(v, env, f)
  {
  }

  /** The `if` of one field leaves every other field as it is. */
  lemma StepOther(c: Config, env: map<string, string>, f: Field, g: Field)
    requires g != f
    ensures Get(Step(c, env, f), g) == Get(c, g)
  {
    GetFits(c, f);
    var v := Overridden(Get(c, f), env, f);
    if v != Get(c, f) {
      SetOther(c, f, v, g);
    }
  }

  /** A field is overridden when it is in the list, however often, and kept otherwise. */
  lemma {:induction false} ApplyAllField(c: Config, env: map<string, string>, fs: seq<Field>, g: Field)
    ensures Get(ApplyAll(c, env, fs), g) == if g in fs then Overridden(Get(c, g), env, g) else Get(c, g)
    decreases |fs|
  {
    if fs != [] {
      var c' := Step(c, env, fs[0]);
      ApplyAllField(c', env, fs[1..], g);
      if fs[0] == g {
        OverriddenIdempotent(Get(c, g), env, g);
      } else {
        StepOther(c, env, fs[0], g);
      }
      assert g in fs <==> g == fs[0] || g in fs[1..] by {
        assert fs == [fs[0]] + fs[1..];
      }
    }
  }

  /**
   * Each field keeps its value unless its own variable says otherwise: a non-empty value replaces a
   * string field, "true" or "1" switches a flag on, and nothing switches a flag off.
   */
  lemma EnvOverrideField(c: Config, env: map<string, string>, f: Field)
    ensures Get(ApplyEnvOverrides(c, env), f) == if f in EnvFields then Overridden(Get(c, f), env, f) else Get(c, f)
  {
    ApplyAllField(c, env, EnvFields, f);
  }

  /** No variable sets a number. */
  lemma NumberKept(c: Config, env: map<string, string>, fs: seq<Field>, f: Field)
    requires Get(c, f).JInt?
    ensures Get(ApplyAll(c, env, fs), f) == Get(c, f)
  {
    ApplyAllField(c, env, fs, f);
  }

  /** No variable switches a flag off. */
  lemma FlagKept(c: Config, env: map<string, string>, fs: seq<Field>, f: Field)
    requires Get(c, f) == JBool(true)
    ensures Get(ApplyAll(c, env, fs), f) == JBool(true)
  {
    ApplyAllField(c, env, fs, f);
  }

  /** The numbers are never overridden. */
  lemma EnvKeepsNumbers(c: Config, env: map<string, string>)
    ensures var r := ApplyEnvOverrides(c, env);
            r.sampleRate == c.sampleRate && r.channels == c.channels && r.bufferSize == c.bufferSize
            && r.silenceDelay == c.silenceDelay && r.maxListenTime == c.maxListenTime
            && r.ollamaTimeout == c.ollamaTimeout
  {
    NumberKept(c, env, EnvFields, SampleRate);
    NumberKept(c, env, EnvFields, Channels);
    NumberKept(c, env, EnvFields, BufferSize);
    NumberKept(c, env, EnvFields, SilenceDelay);
    NumberKept(c, env, EnvFields, MaxListenTime);
    NumberKept(c, env, EnvFields, OllamaTimeout);
  }

  /** A flag that is on stays on. */
  lemma EnvNeverClears(c: Config, env: map<string, string>)
    ensures c.ttsEnabled ==> ApplyEnvOverrides(c, env).ttsEnabled
    ensures c.visionEnabled ==> ApplyEnvOverrides(c, env).visionEnabled
  {
    if c.ttsEnabled {
      FlagKept(c, env, EnvFields, TTSEnabled);
    }
    if c.visionEnabled {
      FlagKept(c, env, EnvFields, VisionEnabled);
    }
  }

  /** Overrides that leave every field of theirs as it is leave the configuration as it is. */
  lemma {:induction false} ApplyAllUnchanged(c: Config, env: map<string, string>, fs: seq<Field>)
    requires forall k :: 0 <= k < |fs| ==> Overridden(Get(c, fs[k]), env, fs[k]) == Get(c, fs[k])
    ensures ApplyAll(c, env, fs) == c
    decreases |fs|
  {
    if fs != [] {
      SetSame(c, fs[0]);
      assert forall k :: 0 <= k < |fs[1..]| ==> fs[1..][k] == fs[k + 1];
      ApplyAllUnchanged(c, env, fs[1..]);
    }
  }

  /** An empty environment changes nothing. */
  lemma EnvEmpty(c: Config)
    ensures ApplyEnvOverrides(c, map[]) == c
  {
    ApplyAllUnchanged(c, map[], EnvFields);
  }

  /** Applying a list of overrides twice is applying it once. */
  lemma ApplyAllTwice(c: Config, env: map<string, string>, fs: seq<Field>)
    ensures ApplyAll(ApplyAll(c, env, fs), env, fs) == ApplyAll(c, env, fs)
  {
    var once := ApplyAll(c, env, fs);
    forall k | 0 <= k < |fs|
      ensures Overridden(Get(once, fs[k]), env, fs[k]) == Get(once, fs[k])
    {
      ApplyAllField(c, env, fs, fs[k]);
      OverriddenIdempotent(Get(c, fs[k]), env, fs[k]);
    }
    ApplyAllUnchanged(once, env, fs);
  }

  /** Applying the same environment twice is applying it once. */
  lemma EnvIdempotent(c: Config, env: map<string, string>)
    ensures ApplyEnvOverrides(ApplyEnvOverrides(c, env), env) == ApplyEnvOverrides(c, env)
  {
    ApplyAllTwice(c, env, EnvFields);
  }

  // ---------------------------------------------------------------------------------------------
  // Loading

  /** The search order when no path is given. */
  function DefaultPaths(home: string): seq<string> {
    [PathJoin(PathJoin(PathJoin(home, ".config"), "bobik"), "config.json"), PathJoin(home, ".bobik.json"), "bobik.json"]
  }

  /** The configuration before the environment is applied; `None` is a decoding error. */
  function FromFiles(path: string, home: string, files: map<string, Option<Doc>>): Option<Config> {
    if path != "" then
      if path in files then Decode(Default(home), files[path]) else Some(Default(home))
    else
      match FirstIn(DefaultPaths(home), files.Keys)
      case None => Some(Default(home))
      case Some(i) => Decode(Default(home), files[DefaultPaths(home)[i]])
  }

  /** `Load`: `None` is the error result. */
  function Loaded(path: string, home: string, env: map<string, string>, files: map<string, Option<Doc>>): Option<Config> {
    var base := FromFiles(path, home, files);
    if base.None? then None else Some(ApplyEnvOverrides(base.value, env))
  }

  /** `Load` with the readable files as a map. */
  method Load(path: string, home: string, env: map<string, string>, files: map<string, Option<Doc>>)
    returns (cfg: Option<Config>)
    ensures cfg == Loaded(path, home, env, files)
  {
    var c := Default(home);
    if path != "" {
      if path in files {
        var decoded := Decode(c, files[path]);
        if decoded.None? {
          return None;
        }
        c := decoded.value;
      }
    } else {
      var paths := DefaultPaths(home);
      var i := 0;
      while i < |paths|
        invariant 0 <= i <= |paths|
        invariant forall j :: 0 <= j < i ==> paths[j] !in files
        invariant c == Default(home)
      {
        if paths[i] in files {
          assert FirstIn(paths, files.Keys) == Some(i);
          var decoded := Decode(c, files[paths[i]]);
          if decoded.None? {
            return None;
          }
          c := decoded.value;
          break;
        }
        i := i + 1;
      }
    }
    c := ApplyEnvOverrides(c, env);
    return Some(c);
  }

  /** An explicit path that cannot be read leaves the defaults, with the environment applied and no error. */
  lemma LoadUnreadable(path: string, home: string, env: map<string, string>, files: map<string, Option<Doc>>)
    requires path != "" && path !in files
    ensures Loaded(path, home, env, files) == Some(ApplyEnvOverrides(Default(home), env))
  {
  }

  /**
   * Without a path the first readable file of the search order is decoded and the later ones are
   * ignored; a decoding error is the result.
   */
  lemma LoadSearchOrder(home: string, env: map<string, string>, files: map<string, Option<Doc>>, i: nat)
    requires i < |DefaultPaths(home)| && DefaultPaths(home)[i] in files
    requires forall j :: 0 <= j < i ==> DefaultPaths(home)[j] !in files
    ensures var d := Decode(Default(home), files[DefaultPaths(home)[i]]);
            Loaded("", home, env, files) == if d.None? then None else Some(ApplyEnvOverrides(d.value, env))
  {
    assert FirstIn(DefaultPaths(home), files.Keys) == Some(i);
  }

  /** A configuration saved to the path it is loaded from comes back, in an empty environment. */
  lemma LoadSaved(path: string, home: string, files: map<string, Option<Doc>>, c: Config)
    requires path != "" && path in files && files[path] == Some(Saved(c))
    ensures Loaded(path, home, map[], files) == Some(c)
  {
    DecodeSaved(Default(home), c);
    assert FromFiles(path, home, files) == Some(c);
    EnvEmpty(c);
  }
}
