/**
 * The dynamic-configuration handlers of LocalAI's startup code
 * (core/startup/config_file_watcher.go): a registry from file names to
 * handlers, the two built-in handlers for `api_keys.json` and
 * `external_backends.json`, and the test that decides which file event runs
 * which handler.
 *
 * `os.ReadFile` is a `FileSystem` parameter, `json.Unmarshal` and
 * `mergo.Merge` are the functions of a `Codec` parameter, and the fsnotify
 * watcher is reduced to the events it delivers.
 */
module ConfigFileWatcher {
  import opened Wrappers
  import GoStrings

  type Bytes = seq<bv8>

  /**
   * `json.Unmarshal` into a `[]string` and into a `map[string]string`, and
   * `mergo.Merge(&dst, &src)`, which yields the merged destination or an error.
   */
  datatype Codec = Codec(
    decodeKeys: Bytes -> Result<seq<string>, string>,
    decodeBackends: Bytes -> Result<map<string, string>, string>,
    merge: (map<string, string>, map<string, string>) -> Result<map<string, string>, string>)

  /**
   * A path as `os.ReadFile` sees it: a missing file yields no bytes; a read
   * error yields whatever was read before it.
   */
  datatype FileState = Absent | Present(content: Bytes) | Unreadable(partial: Bytes)

  type FileSystem = string -> FileState

  /** The bytes `callHandler` passes on: read errors are only logged. */
  function Content(f: FileState): Bytes {
    match f
    case Absent => []
    case Present(content) => content
    case Unreadable(partial) => partial
  }

  /** The two settings the handlers maintain: `ApiKeys` and `ExternalGRPCBackends`. */
  datatype Settings = Settings(apiKeys: seq<string>, backends: map<string, string>)

  /**
   * A registered handler: each built-in handler closes over the value its
   * setting had when it was created (the startup snapshot).
   */
  datatype FileHandler =
    | ApiKeysJson(startupKeys: seq<string>)
    | ExternalBackendsJson(startupBackends: map<string, string>)

  const ApiKeysFile: string := "api_keys.json"
  const BackendsFile: string := "external_backends.json"

  // ---------------------------------------------------------------------------
  // api_keys.json (config_file_watcher.go:123-144)
  // ---------------------------------------------------------------------------

  /** The keys a file contributes: none when it is empty, else its decoded list. */
  function FileKeys(content: Bytes, codec: Codec): Result<seq<string>, string> {
    if |content| > 0 then codec.decodeKeys(content) else Success([])
  }

  /**
   * The `api_keys.json` handler: the new `ApiKeys` and the error it returns.
   * On success the startup keys come first and the file's keys follow; on a
   * decode error the keys are left as they were.
   */
  function ApiKeysHandler(startup: seq<string>, content: Bytes, codec: Codec, current: seq<string>)
    : (r: (seq<string>, Option<string>))
    ensures r.1.None? <==> FileKeys(content, codec).Success?
    ensures r.1.None? ==> startup <= r.0 && r.0[|startup|..] == FileKeys(content, codec).value
    ensures r.1.Some? ==> r.0 == current
    ensures content == [] ==> r == (startup, None)
    ensures content != [] && codec.decodeKeys(content).Failure? ==> r.1 == Some(codec.decodeKeys(content).error)
  {
    match FileKeys(content, codec)
    case Success(keys) =>
      assert keys == [] ==> startup + keys == startup;
      (startup + keys, None)
    case Failure(e) => (current, Some(e))
  }

  /** A successful run forgets whatever keys were set before it. */
  lemma ApiKeysForgetPast(startup: seq<string>, content: Bytes, codec: Codec, a: seq<string>, b: seq<string>)
    requires ApiKeysHandler(startup, content, codec, a).1.None?
    ensures ApiKeysHandler(startup, content, codec, a) == ApiKeysHandler(startup, content, codec, b)
  {
  }

  /** Running the handler twice on the same content is running it once. */
  lemma ApiKeysIdempotent(startup: seq<string>, content: Bytes, codec: Codec, current: seq<string>)
    ensures var once := ApiKeysHandler(startup, content, codec, current);
            ApiKeysHandler(startup, content, codec, once.0) == once
  {
  }

  /** `ApiKeys` after the handler has seen each of `contents` in turn. */
  function KeysAfterWrites(startup: seq<string>, contents: seq<Bytes>, codec: Codec, current: seq<string>): seq<string>
    decreases |contents|
  {
    if contents == [] then current
    else
      var before := KeysAfterWrites(startup, contents[..|contents| - 1], codec, current);
      ApiKeysHandler(startup, contents[|contents| - 1], codec, before).0
  }

  /**
   * Keys never accumulate across file versions: after a series of writes,
   * `ApiKeys` is the startup keys followed by the keys of the last version
   * that decoded, and later versions that failed to decode change nothing.
   */
  lemma {:induction false} KeysFromLastAccepted(startup: seq<string>, contents: seq<Bytes>, codec: Codec,
                                               current: seq<string>, i: nat)
    requires i < |contents| && FileKeys(contents[i], codec).Success?
    requires forall j :: i < j < |contents| ==> FileKeys(contents[j], codec).Failure?
    ensures KeysAfterWrites(startup, contents, codec, current) == startup + FileKeys(contents[i], codec).value
    decreases |contents|
  {
    var init := contents[..|contents| - 1];
    if i < |contents| - 1 {
      assert forall j :: i < j < |init| ==> init[j] == contents[j];
      KeysFromLastAccepted(startup, init, codec, current, i);
    }
  }

  /** When no version decodes, the keys stay what they were. */
  lemma {:induction false} KeysWhenAllRejected(startup: seq<string>, contents: seq<Bytes>, codec: Codec,
                                              current: seq<string>)
    requires forall j :: 0 <= j < |contents| ==> FileKeys(contents[j], codec).Failure?
    ensures KeysAfterWrites(startup, contents, codec, current) == current
    decreases |contents|
  {
    if contents != [] {
      var init := contents[..|contents| - 1];
      assert forall j :: 0 <= j < |init| ==> init[j] == contents[j];
      KeysWhenAllRejected(startup, init, codec, current);
    }
  }

  // ---------------------------------------------------------------------------
  // external_backends.json (config_file_watcher.go:146-169)
  // ---------------------------------------------------------------------------

  /**
   * The `external_backends.json` handler: the new `ExternalGRPCBackends` and
   * the error it returns. Empty content restores the startup map; a decode
   * error leaves the map alone; otherwise the map is reset to the startup map
   * and the file's entries are merged into it, and a failing merge leaves the
   * reset map behind.
   */
  function BackendsHandler(startup: map<string, string>, content: Bytes, codec: Codec, current: map<string, string>)
    : (r: (map<string, string>, Option<string>))
    ensures content == [] ==> r == (startup, None)
    ensures content != [] && codec.decodeBackends(content).Failure? ==>
              r == (current, Some(codec.decodeBackends(content).error))
    ensures r.1.None? && content != [] ==>
              codec.merge(startup, codec.decodeBackends(content).value) == Success(r.0)
    ensures content != [] && codec.decodeBackends(content).Success? &&
            codec.merge(startup, codec.decodeBackends(content).value).Success? ==>
              r == (codec.merge(startup, codec.decodeBackends(content).value).value, None)
    ensures content != [] && codec.decodeBackends(content).Success? &&
            codec.merge(startup, codec.decodeBackends(content).value).Failure? ==>
              r == (startup, Some(codec.merge(startup, codec.decodeBackends(content).value).error))
  {
    if |content| > 0 then
      match codec.decodeBackends(content)
      case Failure(e) => (current, Some(e))
      case Success(file) =>
        match codec.merge(startup, file)
        case Success(merged) => (merged, None)
        case Failure(e) => (startup, Some(e))
    else (startup, None)
  }

  /**
   * Only a decode error lets the previous map survive: in every other case
   * the result does not depend on it.
   */
  lemma BackendsForgetPast(startup: map<string, string>, content: Bytes, codec: Codec,
                           a: map<string, string>, b: map<string, string>)
    requires content == [] || codec.decodeBackends(content).Success?
    ensures BackendsHandler(startup, content, codec, a) == BackendsHandler(startup, content, codec, b)
  {
  }

  /** Running the handler twice on the same content is running it once. */
  lemma BackendsIdempotent(startup: map<string, string>, content: Bytes, codec: Codec, current: map<string, string>)
    ensures var once := BackendsHandler(startup, content, codec, current);
            BackendsHandler(startup, content, codec, once.0) == once
  {
  }

  // ---------------------------------------------------------------------------
  // Handlers over the whole settings
  // ---------------------------------------------------------------------------

  /** A handler applied to the settings: each handler changes only its own setting. */
  function Handle(h: FileHandler, content: Bytes, codec: Codec, s: Settings): (r: (Settings, Option<string>))
    ensures h.ApiKeysJson? ==>
              r.0.backends == s.backends && (r.0.apiKeys, r.1) == ApiKeysHandler(h.startupKeys, content, codec, s.apiKeys)
    ensures h.ExternalBackendsJson? ==>
              r.0.apiKeys == s.apiKeys && (r.0.backends, r.1) == BackendsHandler(h.startupBackends, content, codec, s.backends)
  {
    match h
    case ApiKeysJson(startup) =>
      var (keys, err) := ApiKeysHandler(startup, content, codec, s.apiKeys);
      (s.(apiKeys := keys), err)
    case ExternalBackendsJson(startup) =>
      var (backends, err) := BackendsHandler(startup, content, codec, s.backends);
      (s.(backends := backends), err)
  }

  /**
   * At startup, a handler run on a missing file leaves the settings exactly
   * as they were, since it resets its setting to the snapshot just taken.
   */
  lemma MissingFileAtStartup(s: Settings, codec: Codec)
    ensures Handle(ApiKeysJson(s.apiKeys), Content(Absent), codec, s) == (s, None)
    ensures Handle(ExternalBackendsJson(s.backends), Content(Absent), codec, s) == (s, None)
  {
  }

  // ---------------------------------------------------------------------------
  // Event dispatch (config_file_watcher.go:84-98)
  // ---------------------------------------------------------------------------

  /** The fsnotify operations; an event may carry several of them. */
  datatype Op = Create | Write | Remove | Rename | Chmod

  datatype Event = Event(name: string, ops: set<Op>)

  /** `event.Has(Write | Create | Remove)`: the event carries at least one of the three. */
  predicate Watched(e: Event) {
    e.ops * {Write, Create, Remove} != {}
  }

  /** The handler an event runs, if any: the one registered under the base name of its path. */
  function Dispatch(handlers: map<string, FileHandler>, e: Event): Option<FileHandler> {
    var file := GoStrings.Base(e.name);
    if Watched(e) && file in handlers then Some(handlers[file]) else None
  }

  /**
   * An event on `dir/file`, for a plain file name, runs the handler of `file`
   * exactly when it carries a write, a create or a remove and `file` has a
   * handler.
   */
  lemma DispatchOfFile(handlers: map<string, FileHandler>, dir: string, file: string, ops: set<Op>)
    requires file != [] && '/' !in file
    ensures Dispatch(handlers, Event(GoStrings.Join(dir, file), ops)).Some? <==>
              (Write in ops || Create in ops || Remove in ops) && file in handlers
    ensures Dispatch(handlers, Event(GoStrings.Join(dir, file), ops)).Some? ==>
              Dispatch(handlers, Event(GoStrings.Join(dir, file), ops)).value == handlers[file]
  {
    GoStrings.BaseOfJoin(dir, file);
    WatchedOps(Event(GoStrings.Join(dir, file), ops));
  }

  /** `Watched` spelled out operation by operation. */
  lemma WatchedOps(e: Event)
    ensures Watched(e) <==> Write in e.ops || Create in e.ops || Remove in e.ops
  {
    if Write in e.ops {
      assert Write in e.ops * {Write, Create, Remove};
    } else if Create in e.ops {
      assert Create in e.ops * {Write, Create, Remove};
    } else if Remove in e.ops {
      assert Remove in e.ops * {Write, Create, Remove};
    }
  }

  /** Renames and permission changes alone never run a handler. */
  lemma RenameOrChmodIgnored(handlers: map<string, FileHandler>, e: Event)
    requires forall o :: o in e.ops ==> o == Rename || o == Chmod
    ensures Dispatch(handlers, e) == None
  {
    WatchedOps(e);
    assert !Watched(e);
  }

  /** The settings after one watcher event; handler errors are only logged. */
  function EventEffect(handlers: map<string, FileHandler>, e: Event, fs: FileSystem, codec: Codec, s: Settings)
    : (r: Settings)
    ensures !Watched(e) ==> r == s
  {
    match Dispatch(handlers, e)
    case None => s
    case Some(h) => Handle(h, Content(fs(e.name)), codec, s).0
  }

  /**
   * Deleting `api_keys.json` from the watched directory puts `ApiKeys` back
   * to the startup keys and leaves the backends alone.
   */
  lemma RemovingKeysFileReverts(handlers: map<string, FileHandler>, dir: string, startup: seq<string>,
                                fs: FileSystem, codec: Codec, s: Settings)
    requires ApiKeysFile in handlers && handlers[ApiKeysFile] == ApiKeysJson(startup)
    requires fs(GoStrings.Join(dir, ApiKeysFile)) == Absent
    ensures EventEffect(handlers, Event(GoStrings.Join(dir, ApiKeysFile), {Remove}), fs, codec, s) ==
              s.(apiKeys := startup)
  {
    DispatchOfFile(handlers, dir, ApiKeysFile, {Remove});
  }

  // ---------------------------------------------------------------------------
  // The configuration object and the handler registry
  // ---------------------------------------------------------------------------

  /** The fields of `config.ApplicationConfig` the handlers use. */
  class ApplicationConfig {
    var apiKeys: seq<string>
    var externalBackends: map<string, string>
    const dynamicConfigsDir: string

    constructor (keys: seq<string>, backends: map<string, string>, dir: string)
      ensures apiKeys == keys && externalBackends == backends && dynamicConfigsDir == dir
    {
      apiKeys := keys;
      externalBackends := backends;
      dynamicConfigsDir := dir;
    }

    function Current(): Settings
      reads this
    {
      Settings(apiKeys, externalBackends)
    }
  }

  /** The body of the `readApiKeysJson` closure, run on `appConfig`. */
  method ReadApiKeysJson(startup: seq<string>, content: Bytes, codec: Codec, appConfig: ApplicationConfig)
    returns (err: Option<string>)
    modifies appConfig`apiKeys
    ensures (appConfig.apiKeys, err) == ApiKeysHandler(startup, content, codec, old(appConfig.apiKeys))
  {
    if |content| > 0 {
      var decoded := codec.decodeKeys(content);
      if decoded.Failure? {
        return Some(decoded.error);
      }
      appConfig.apiKeys := startup + decoded.value;
    } else {
      appConfig.apiKeys := startup;
    }
    return None;
  }

  /** The body of the `readExternalBackendsJson` closure, run on `appConfig`. */
  method ReadExternalBackendsJson(startup: map<string, string>, content: Bytes, codec: Codec, appConfig: ApplicationConfig)
    returns (err: Option<string>)
    modifies appConfig`externalBackends
    ensures (appConfig.externalBackends, err) ==
              BackendsHandler(startup, content, codec, old(appConfig.externalBackends))
  {
    if |content| > 0 {
      var decoded := codec.decodeBackends(content);
      if decoded.Failure? {
        return Some(decoded.error);
      }
      appConfig.externalBackends := startup;
      var merged := codec.merge(appConfig.externalBackends, decoded.value);
      if merged.Failure? {
        return Some(merged.error);
      }
      appConfig.externalBackends := merged.value;
    } else {
      appConfig.externalBackends := startup;
    }
    return None;
  }

  /** Calling a registered handler on `appConfig`. */
  method RunHandler(h: FileHandler, content: Bytes, codec: Codec, appConfig: ApplicationConfig)
    returns (err: Option<string>)
    modifies appConfig`apiKeys, appConfig`externalBackends
    ensures (appConfig.Current(), err) == Handle(h, content, codec, old(appConfig.Current()))
  {
    match h
    case ApiKeysJson(startup) =>
      err := ReadApiKeysJson(startup, content, codec, appConfig);
    case ExternalBackendsJson(startup) =>
      err := ReadExternalBackendsJson(startup, content, codec, appConfig);
  }

  /** `configFileHandler`: the registered handlers and the configuration they update. */
  class ConfigFileHandler {
    var handlers: map<string, FileHandler>
    const configDir: string
    const appConfig: ApplicationConfig

    /**
     * `newConfigFileHandler`: registers the two built-in handlers, each over
     * a snapshot of its setting, and runs each once on its file.
     */
    constructor (appConfig: ApplicationConfig, fs: FileSystem, codec: Codec)
      modifies appConfig`apiKeys, appConfig`externalBackends
      ensures this.appConfig == appConfig && configDir == appConfig.dynamicConfigsDir
      ensures handlers == map[ApiKeysFile := ApiKeysJson(old(appConfig.apiKeys)),
                              BackendsFile := ExternalBackendsJson(old(appConfig.externalBackends))]
      ensures appConfig.apiKeys ==
                ApiKeysHandler(old(appConfig.apiKeys), Content(fs(GoStrings.Join(appConfig.dynamicConfigsDir, ApiKeysFile))),
                               codec, old(appConfig.apiKeys)).0
      ensures appConfig.externalBackends ==
                BackendsHandler(old(appConfig.externalBackends),
                                Content(fs(GoStrings.Join(appConfig.dynamicConfigsDir, BackendsFile))),
                                codec, old(appConfig.externalBackends)).0
    {
      this.appConfig := appConfig;
      configDir := appConfig.dynamicConfigsDir;
      handlers := map[];
      new;
      var _ := Register(ApiKeysFile, ApiKeysJson(appConfig.apiKeys), true, fs, codec);
      var _ := Register(BackendsFile, ExternalBackendsJson(appConfig.externalBackends), true, fs, codec);
    }

    /**
     * `Register`: a file name that already has a handler is refused with an
     * error and nothing changes; otherwise exactly that one entry is added
     * and, when asked, the handler is run once on the file in the
     * configuration directory.
     */
    method Register(filename: string, handler: FileHandler, runNow: bool, fs: FileSystem, codec: Codec)
      returns (err: Option<string>)
      modifies this`handlers, appConfig`apiKeys, appConfig`externalBackends
      ensures filename in old(handlers) ==>
                && err == Some("handler already registered for file " + filename)
                && handlers == old(handlers)
                && appConfig.Current() == old(appConfig.Current())
      ensures filename !in old(handlers) ==>
                && err == None
                && handlers == old(handlers)[filename := handler]
                && appConfig.Current() ==
                     if runNow then
                       Handle(handler, Content(fs(GoStrings.Join(appConfig.dynamicConfigsDir, filename))), codec,
                              old(appConfig.Current())).0
                     else old(appConfig.Current())
    {
      if filename in handlers {
        return Some("handler already registered for file " + filename);
      }
      handlers := handlers[filename := handler];
      if runNow {
        CallHandler(GoStrings.Join(appConfig.dynamicConfigsDir, filename), handler, fs, codec);
      }
      return None;
    }

    /** `callHandler`: read the file and run the handler; errors are only logged. */
    method CallHandler(filename: string, handler: FileHandler, fs: FileSystem, codec: Codec)
      modifies appConfig`apiKeys, appConfig`externalBackends
      ensures appConfig.Current() == Handle(handler, Content(fs(filename)), codec, old(appConfig.Current())).0
    {
      var content := Content(fs(filename));
      var _ := RunHandler(handler, content, codec, appConfig);
    }

    /**
     * One event of the `Watch` loop: a write, create or remove of a file
     * whose base name has a handler runs that handler on the event's path;
     * every other event is skipped.
     */
    method OnEvent(e: Event, fs: FileSystem, codec: Codec) returns (handled: bool)
      modifies appConfig`apiKeys, appConfig`externalBackends
      ensures handled <==> Dispatch(handlers, e).Some?
      ensures appConfig.Current() == EventEffect(handlers, e, fs, codec, old(appConfig.Current()))
    {
      if e.ops * {Write, Create, Remove} != {} {
        var file := GoStrings.Base(e.name);
        if file in handlers {
          CallHandler(e.name, handlers[file], fs, codec);
          return true;
        }
      }
      return false;
    }
  }
}
