/** The HTTP boundary of the proxy: the `/tts` handler's duplicate-request
    gate, parameter collection, validation and `prompt_text` resolution, the
    mapping from a task's result to the response, and the `/api/files`
    directory dispatch. */
module Routes {
  import opened Wrappers
  import opened Text
  import opened Params
  import Paths
  import Cache
  import Engine
  import Ssh

  /** The parameters `/tts` forwards when the configuration names none. */
  const DefaultAllowedParams: seq<string> :=
    ["prompt_audio", "prompt_text", "text", "text_file", "gender", "pitch", "speed", "emotion"]

  /** `config['tts'].get('allowed_params', ...)` */
  function AllowedParams(configured: Option<seq<string>>): seq<string> {
    configured.GetOr(DefaultAllowedParams)
  }

  /** Seconds a request fingerprint blocks identical requests. */
  const DedupTtl: real := 3.0

  /** The `local` section of the configuration: the directories behind
      `/api/files` and the prompt texts. */
  datatype LocalConfig = LocalConfig(promptAudioPath: string, textFilePath: string, promptTextPath: string)

  /** The local file system as the handlers see it: `os.path.exists`,
      `os.listdir`, `os.path.isfile` and the raw content of a readable file. */
  datatype LocalFs = LocalFs(
    exists_: string -> bool,
    listdir: string -> seq<string>,
    isFile: string -> bool,
    read: Cache.FileReader)

  /** `read_text_file`: the stripped content, or `None` when it cannot be read. */
  function ReadTextFile(fs: LocalFs, path: string): Option<string> {
    match fs.read(path)
    case Some(content) => Some(Strip(content))
    case None => None
  }

  datatype Reason = Duplicate | MissingText | MissingVoice | GenerationFailed

  /** What `/tts` answers: the audio file, or an `abort` with its status. */
  datatype Response = SendFile(path: string) | Abort(status: nat, reason: Reason)

  // ---------------------------------------------------------------------
  // Duplicate-request gate

  /** The fingerprint of a request: the first value of each query argument,
      sorted by name (the JSON text of that list is a one-to-one encoding of
      it). It answers every lookup as the query string does, and as a sorted
      list it is the only one that does. */
  function DedupKey(args: Params): (key: Params)
    ensures SortedByKey(key)
    ensures SameLookups(key, args)
  {
    var firsts := FirstPerKey(args);
    var key := SortByKey(firsts);
    FirstPerKeyGet(args);
    SortByKeySorted(firsts);
    SortedDistinct(key);
    forall k ensures Get(key, k) == Get(firsts, k) {
      SameEntriesSameGet(key, firsts, k);
    }
    key
  }

  /** The fingerprint is still in the TTL cache at time `now`. */
  predicate Live(recent: map<Params, real>, key: Params, now: real) {
    key in recent && now < recent[key] + DedupTtl
  }

  /** Two requests share a fingerprint exactly when every query argument has
      the same first value in both: neither argument order nor a repeated
      argument's later values matter. */
  lemma DedupKeySameIff(args1: Params, args2: Params)
    ensures DedupKey(args1) == DedupKey(args2) <==> SameLookups(args1, args2)
  {
    var key1, key2 := DedupKey(args1), DedupKey(args2);
    if SameLookups(args1, args2) {
      assert SameLookups(key1, key2);
      SortedDistinct(key1);
      SortedDistinct(key2);
      SameGetSameEntries(key1, key2);
      SortedUnique(key1, key2);
    }
  }

  /** A repeated argument counts with its first value only. */
  lemma RepeatedArgumentFirstValue()
    ensures DedupKey([Entry("text", "a"), Entry("gender", "m"), Entry("text", "b")])
         == DedupKey([Entry("gender", "m"), Entry("text", "a"), Entry("text", "c")])
  {
    var args1 := [Entry("text", "a"), Entry("gender", "m"), Entry("text", "b")];
    var args2 := [Entry("gender", "m"), Entry("text", "a"), Entry("text", "c")];
    forall k ensures Get(args1, k) == Get(args2, k) {
      assert args1[1..][1..] == [Entry("text", "b")];
      assert args2[1..][1..] == [Entry("text", "c")];
    }
    assert SameLookups(args1, args2);
    DedupKeySameIff(args1, args2);
  }

  /** A request recorded at `t1` blocks every request whose arguments have
      the same first values, in any order, until `t1 + 3` and no longer. */
  lemma RepeatBlockedWithinTtl(recent: map<Params, real>, args1: Params, args2: Params, t1: real, t2: real)
    requires SameLookups(args1, args2)
    ensures Live(recent[DedupKey(args1) := t1], DedupKey(args2), t2) <==> t2 < t1 + DedupTtl
  {
    DedupKeySameIff(args1, args2);
  }

  // ---------------------------------------------------------------------
  // Parameter collection and validation

  /** The parameters collected from `args` for the names in `allowed`, in that
      order: each name with a non-empty value, URL-decoded. */
  function Collected(allowed: seq<string>, args: Params, unquote: string -> string): Params {
    if allowed == [] then []
    else
      var acc := Collected(allowed[..|allowed| - 1], args, unquote);
      var k := allowed[|allowed| - 1];
      if HasValue(args, k) then Set(acc, k, unquote(Get(args, k).value)) else acc
  }

  /** Exactly the allowed names with non-empty values are collected, each
      with its decoded value. */
  lemma {:induction false} CollectedSpec(allowed: seq<string>, args: Params, unquote: string -> string, k: string)
    ensures Get(Collected(allowed, args, unquote), k) ==
            if k in allowed && HasValue(args, k) then Some(unquote(Get(args, k).value)) else None
  {
    if allowed != [] {
      var init := allowed[..|allowed| - 1];
      var last := allowed[|allowed| - 1];
      CollectedSpec(init, args, unquote, k);
      var acc := Collected(init, args, unquote);
      if HasValue(args, last) {
        SetSpec(acc, last, unquote(Get(args, last).value));
      }
      assert k in allowed <==> k in init || k == last by {
        assert allowed == init + [last];
      }
    }
  }

  /** Why a request is refused before it reaches the engine, if it is. */
  function Validation(p: Params): Option<Reason> {
    if !Has(p, "text") && !Has(p, "text_file") then Some(MissingText)
    else if !Has(p, "prompt_audio") && !Has(p, "gender") then Some(MissingVoice)
    else None
  }

  // ---------------------------------------------------------------------
  // prompt_text resolution

  /** Listing entry `i` is a prompt text for `baseName` that can be read. */
  predicate ReadableMatch(fs: LocalFs, dir: string, listing: seq<string>, baseName: string, i: int)
    requires 0 <= i < |listing|
  {
    Paths.Stem(listing[i]) == baseName && ReadTextFile(fs, Paths.Join(dir, listing[i])).Some?
  }

  /** The position of the first listed file, from `from` on, whose stem is
      `baseName` and that can be read, or `|listing|` when there is none. */
  function FirstMatch(fs: LocalFs, dir: string, listing: seq<string>, baseName: string, from: nat): (i: nat)
    requires from <= |listing|
    ensures from <= i <= |listing|
    ensures i < |listing| ==> ReadableMatch(fs, dir, listing, baseName, i)
    ensures forall j :: from <= j < i ==> !ReadableMatch(fs, dir, listing, baseName, j)
    decreases |listing| - from
  {
    if from == |listing| || ReadableMatch(fs, dir, listing, baseName, from) then from
    else FirstMatch(fs, dir, listing, baseName, from + 1)
  }

  /** The text of the first listed file whose stem is `baseName` and that
      can be read. */
  function FirstPromptText(fs: LocalFs, dir: string, listing: seq<string>, baseName: string): Option<string> {
    var i := FirstMatch(fs, dir, listing, baseName, 0);
    if i < |listing| then ReadTextFile(fs, Paths.Join(dir, listing[i])) else None
  }

  /** The `prompt_audio` branch of `/tts`: without a `prompt_text`, the text
      of the prompt audio's namesake in the prompt-text directory; with a
      `prompt_text` naming a `.txt` file there, that file's text. */
  function AutoFill(p: Params, dir: string, fs: LocalFs): Params {
    if !Has(p, "prompt_audio") || !fs.exists_(dir) then p
    else if !Has(p, "prompt_text") then
      var baseName := Paths.Stem(Get(p, "prompt_audio").value);
      match FirstPromptText(fs, dir, fs.listdir(dir), baseName)
      case Some(content) => Set(p, "prompt_text", content)
      case None => p
    else
      var value := Get(p, "prompt_text").value;
      var path := Paths.Join(dir, value);
      if EndsWithIgnoringCase(value, ".txt") && fs.isFile(path) then
        match ReadTextFile(fs, path)
        case Some(content) => Set(p, "prompt_text", content)
        case None => p
      else p
  }

  /** Resolution touches `prompt_text` only, and sets it to a file's text or
      leaves it as it was. */
  lemma AutoFillOnlyPromptText(p: Params, dir: string, fs: LocalFs)
    ensures forall k :: k != "prompt_text" ==> Get(AutoFill(p, dir, fs), k) == Get(p, k)
    ensures var t := Get(AutoFill(p, dir, fs), "prompt_text");
      t == Get(p, "prompt_text") || exists path :: t == ReadTextFile(fs, path)
  {
    if !Has(p, "prompt_audio") || !fs.exists_(dir) {
    } else if !Has(p, "prompt_text") {
      var listing := fs.listdir(dir);
      var baseName := Paths.Stem(Get(p, "prompt_audio").value);
      match FirstPromptText(fs, dir, listing, baseName)
      case Some(content) =>
        SetSpec(p, "prompt_text", content);
        var i := FirstMatch(fs, dir, listing, baseName, 0);
        assert Get(AutoFill(p, dir, fs), "prompt_text") == ReadTextFile(fs, Paths.Join(dir, listing[i]));
      case None =>
    } else {
      var path := Paths.Join(dir, Get(p, "prompt_text").value);
      if EndsWithIgnoringCase(Get(p, "prompt_text").value, ".txt") && fs.isFile(path) {
        match ReadTextFile(fs, path)
        case Some(content) =>
          SetSpec(p, "prompt_text", content);
          assert Get(AutoFill(p, dir, fs), "prompt_text") == ReadTextFile(fs, path);
        case None =>
      }
    }
  }

  /** A `prompt_text` that does not end in `.txt` is passed on unchanged. */
  lemma PlainPromptTextKept(p: Params, dir: string, fs: LocalFs)
    requires Has(p, "prompt_text") && !EndsWithIgnoringCase(Get(p, "prompt_text").value, ".txt")
    ensures AutoFill(p, dir, fs) == p
  {
  }

  /** What the handler decides before submitting: a refusal with its reason,
      or the parameters it submits. */
  datatype Decision = Reject(reason: Reason) | Accept(params: Params)

  function Prepare(args: Params, allowed: seq<string>, unquote: string -> string, dir: string, fs: LocalFs): Decision {
    var p := Collected(allowed, args, unquote);
    match Validation(p)
    case Some(r) => Reject(r)
    case None => Accept(AutoFill(p, dir, fs))
  }

  /** A request reaches the engine only when it carries an allowed, non-empty
      `text` or `text_file` and an allowed, non-empty `prompt_audio` or
      `gender`; the text check comes first. */
  lemma PrepareSpec(args: Params, allowed: seq<string>, unquote: string -> string, dir: string, fs: LocalFs)
    ensures var textOk := ("text" in allowed && HasValue(args, "text")) || ("text_file" in allowed && HasValue(args, "text_file"));
      var voiceOk := ("prompt_audio" in allowed && HasValue(args, "prompt_audio")) || ("gender" in allowed && HasValue(args, "gender"));
      Prepare(args, allowed, unquote, dir, fs) ==
        if !textOk then Reject(MissingText)
        else if !voiceOk then Reject(MissingVoice)
        else Accept(AutoFill(Collected(allowed, args, unquote), dir, fs))
  {
    CollectedSpec(allowed, args, unquote, "text");
    CollectedSpec(allowed, args, unquote, "text_file");
    CollectedSpec(allowed, args, unquote, "prompt_audio");
    CollectedSpec(allowed, args, unquote, "gender");
  }

  /** The parameters submitted to the engine keep the text and voice that
      passed validation. */
  lemma AcceptedHasTextAndVoice(args: Params, allowed: seq<string>, unquote: string -> string, dir: string, fs: LocalFs)
    requires Prepare(args, allowed, unquote, dir, fs).Accept?
    ensures var q := Prepare(args, allowed, unquote, dir, fs).params;
      (Has(q, "text") || Has(q, "text_file")) && (Has(q, "prompt_audio") || Has(q, "gender"))
  {
    var p := Collected(allowed, args, unquote);
    var q := AutoFill(p, dir, fs);
    AutoFillOnlyPromptText(p, dir, fs);
    assert Get(q, "text") == Get(p, "text") && Get(q, "text_file") == Get(p, "text_file");
    assert Get(q, "prompt_audio") == Get(p, "prompt_audio") && Get(q, "gender") == Get(p, "gender");
  }

  // ---------------------------------------------------------------------
  // Result to response

  /** A truthy result is sent as the audio file; anything else is a 500. */
  function Respond(result: Option<string>): (r: Response)
    ensures r.SendFile? <==> result.Some? && result.value != ""
    ensures r.SendFile? ==> r.path == result.value
    ensures r.Abort? ==> r == Abort(500, GenerationFailed)
  {
    if result.Some? && result.value != "" then SendFile(result.value) else Abort(500, GenerationFailed)
  }

  /** Every answer to a task that ran is the cache file or a 500, and the
      file is sent exactly when the TTS task produced one. */
  lemma RespondToOutcome(cfg: Engine.TtsConfig, cachePath: string, disk: set<string>, client: Option<Ssh.Client>,
                         python: string, p: Params, w: Engine.World)
    requires cachePath != ""
    ensures var result := Engine.TaskOutcome(cfg, cachePath, disk, client, python, p, w).result;
      Respond(result) == if result.Some? then SendFile(cachePath) else Abort(500, GenerationFailed)
  {
    Engine.TaskResultIsCachePath(cfg, cachePath, disk, client, python, p, w);
  }

  // ---------------------------------------------------------------------
  // /api/files/<file_type>

  datatype FileList = Files(names: seq<string>) | ListError(status: nat)

  /** The directory a listable file type lives in. */
  function FileTypeDir(local: LocalConfig, fileType: string): Option<string> {
    if fileType == "prompt_audio" then Some(local.promptAudioPath)
    else if fileType == "text_file" then Some(local.textFilePath)
    else if fileType == "prompt_text" then Some(local.promptTextPath)
    else None
  }

  /** The entries of `names` that are regular files in `dir`, in order. */
  function OnlyFiles(fs: LocalFs, dir: string, names: seq<string>): (r: seq<string>)
    ensures |r| <= |names|
    ensures forall x :: x in r <==> x in names && fs.isFile(Paths.Join(dir, x))
  {
    if names == [] then []
    else if fs.isFile(Paths.Join(dir, names[0])) then [names[0]] + OnlyFiles(fs, dir, names[1..])
    else OnlyFiles(fs, dir, names[1..])
  }

  /** `list_files` */
  function ListFiles(local: LocalConfig, fs: LocalFs, fileType: string): FileList {
    match FileTypeDir(local, fileType)
    case None => ListError(400)
    case Some(dir) =>
      if fs.exists_(dir) then Files(OnlyFiles(fs, dir, fs.listdir(dir))) else ListError(404)
  }

  /** Only the three file types are listed, each from its own directory; a
      missing directory, and only that, is a 404; the list holds regular
      files of the directory. */
  lemma ListFilesSpec(local: LocalConfig, fs: LocalFs, fileType: string)
    ensures var r := ListFiles(local, fs, fileType);
      && (r == ListError(400) <==> fileType !in {"prompt_audio", "text_file", "prompt_text"})
      && (r == ListError(404) <==> FileTypeDir(local, fileType).Some? && !fs.exists_(FileTypeDir(local, fileType).value))
      && (r.Files? ==> forall x :: x in r.names ==>
            var dir := FileTypeDir(local, fileType).value;
            x in fs.listdir(dir) && fs.isFile(Paths.Join(dir, x)))
  {
  }

  // ---------------------------------------------------------------------
  // The /tts handler

  /** The state `create_app` builds: the engine, the forwarded parameter
      names, the local directories and the 3-second request cache. */
  class App {
    const engine: Engine.TtsEngine
    const allowed: seq<string>
    const local: LocalConfig
    var recent: map<Params, real>

    constructor (engine: Engine.TtsEngine, configured: Option<seq<string>>, local: LocalConfig)
      ensures this.engine == engine && allowed == AllowedParams(configured) && this.local == local
      ensures recent == map[]
    {
      this.engine := engine;
      allowed := AllowedParams(configured);
      this.local := local;
      recent := map[];
    }

    /** The loop collecting the allowed parameters. */
    method CollectParams(args: Params, unquote: string -> string) returns (params: Params)
      ensures params == Collected(allowed, args, unquote)
    {
      params := [];
      var i := 0;
      while i < |allowed|
        invariant 0 <= i <= |allowed|
        invariant params == Collected(allowed[..i], args, unquote)
      {
        assert allowed[..i + 1][..i] == allowed[..i];
        var value := Get(args, allowed[i]);
        if value.Some? && value.value != "" {
          params := Set(params, allowed[i], unquote(value.value));
        }
        i := i + 1;
      }
      assert allowed[..i] == allowed;
    }

    /** The scan of the prompt-text directory, stopping at the first readable
        namesake. */
    method FindPromptText(fs: LocalFs, dir: string, baseName: string) returns (content: Option<string>)
      ensures content == FirstPromptText(fs, dir, fs.listdir(dir), baseName)
    {
      var listing := fs.listdir(dir);
      var found := false;
      content := None;
      var i := 0;
      while i < |listing|
        invariant 0 <= i <= |listing|
        invariant !found && content == None
        invariant FirstMatch(fs, dir, listing, baseName, 0) == FirstMatch(fs, dir, listing, baseName, i)
      {
        if Paths.Stem(listing[i]) == baseName {
          var text := ReadTextFile(fs, Paths.Join(dir, listing[i]));
          if text.Some? {
            content := text;
            found := true;
            break;
          }
        }
        i := i + 1;
      }
    }

    /** The `prompt_audio` branch of the handler. */
    method ResolvePromptText(p: Params, fs: LocalFs) returns (params: Params)
      ensures params == AutoFill(p, local.promptTextPath, fs)
    {
      params := p;
      if Has(params, "prompt_audio") {
        var dir := local.promptTextPath;
        if fs.exists_(dir) {
          if !Has(params, "prompt_text") {
            var baseName := Paths.Stem(Get(params, "prompt_audio").value);
            var content := FindPromptText(fs, dir, baseName);
            if content.Some? {
              params := Set(params, "prompt_text", content.value);
            }
          } else {
            var value := Get(params, "prompt_text").value;
            if EndsWithIgnoringCase(value, ".txt") {
              var path := Paths.Join(dir, value);
              if fs.isFile(path) {
                var content := ReadTextFile(fs, path);
                if content.Some? {
                  params := Set(params, "prompt_text", content.value);
                }
              }
            }
          }
        }
      }
    }

    /** `tts_proxy`. Waiting on the TTS task's event is modelled by letting the
        single worker take tasks from the queue until the request's own task
        has been served. */
    method TtsProxy(args: Params, now: real, unquote: string -> string, fs: LocalFs, w: Engine.World)
      returns (response: Response)
      requires engine.Valid()
      modifies this`recent, engine, engine.ssh, engine.Events()
      ensures engine.Valid()
      ensures var key := DedupKey(args);
        recent == if Live(old(recent), key, now) then old(recent) else old(recent)[key := now]
      ensures old(engine.disk) <= engine.disk
      ensures response.SendFile? ==> response.path in engine.disk
      ensures response.Abort? && response.status != 500 ==>
        && engine.queue == old(engine.queue) && engine.disk == old(engine.disk)
        && engine.ssh.client == old(engine.ssh.client) && engine.ssh.remotePythonPath == old(engine.ssh.remotePythonPath)
      ensures Live(old(recent), DedupKey(args), now) ==> response == Abort(429, Duplicate)
      ensures !Live(old(recent), DedupKey(args), now) ==>
        match Prepare(args, allowed, unquote, local.promptTextPath, fs)
        case Reject(reason) => response == Abort(400, reason)
        case Accept(q) =>
          var cachePath := engine.cache.CachePath(w.md5, q, Some(Cache.GenerateHash(w.md5, q)), w.read);
          var o := Engine.TaskOutcome(engine.cfg, cachePath, old(engine.disk), old(engine.ssh.client),
                                      old(engine.ssh.remotePythonPath), q, w);
          old(engine.queue) == [] ==>
            && response == Respond(o.result)
            && engine.disk == old(engine.disk) + (if o.result.Some? then {o.result.value} else {})
            && engine.ssh.client == Engine.TaskClient(cachePath, old(engine.disk), old(engine.ssh.client), w)
            && engine.ssh.remotePythonPath ==
                 Engine.TaskPython(engine.cfg, cachePath, old(engine.disk), old(engine.ssh.client), old(engine.ssh.remotePythonPath), w)
    {
      var key := DedupKey(args);
      if key in recent && now < recent[key] + DedupTtl {
        return Abort(429, Duplicate);
      }
      recent := recent[key := now];
      var decision := Decide(args, unquote, fs);
      match decision
      case Reject(reason) =>
        response := Abort(400, reason);
      case Accept(q) =>
        response := Serve(q, w);
    }

    /** Collection, the two required-parameter checks and `prompt_text`
        resolution. */
    method Decide(args: Params, unquote: string -> string, fs: LocalFs) returns (decision: Decision)
      ensures decision == Prepare(args, allowed, unquote, local.promptTextPath, fs)
    {
      var params := CollectParams(args, unquote);
      if !Has(params, "text") && !Has(params, "text_file") {
        return Reject(MissingText);
      }
      if !Has(params, "prompt_audio") && !Has(params, "gender") {
        return Reject(MissingVoice);
      }
      params := ResolvePromptText(params, fs);
      return Accept(params);
    }

    /** `submit_task`, the wait and the answer. */
    method Serve(q: Params, w: Engine.World) returns (response: Response)
      requires engine.Valid()
      modifies engine, engine.ssh, engine.Events()
      ensures engine.Valid()
      ensures old(engine.disk) <= engine.disk
      ensures response.SendFile? ==> response.path in engine.disk
      ensures response.Abort? ==> response == Abort(500, GenerationFailed)
      ensures var cachePath := engine.cache.CachePath(w.md5, q, Some(Cache.GenerateHash(w.md5, q)), w.read);
        old(engine.queue) == [] ==>
          response == Respond(Engine.TaskOutcome(engine.cfg, cachePath, old(engine.disk), old(engine.ssh.client),
                                                 old(engine.ssh.remotePythonPath), q, w).result)
      ensures var cachePath := engine.cache.CachePath(w.md5, q, Some(Cache.GenerateHash(w.md5, q)), w.read);
        var o := Engine.TaskOutcome(engine.cfg, cachePath, old(engine.disk), old(engine.ssh.client),
                                    old(engine.ssh.remotePythonPath), q, w);
        old(engine.queue) == [] ==>
          && engine.disk == old(engine.disk) + (if o.result.Some? then {o.result.value} else {})
          && engine.ssh.client == Engine.TaskClient(cachePath, old(engine.disk), old(engine.ssh.client), w)
          && engine.ssh.remotePythonPath ==
               Engine.TaskPython(engine.cfg, cachePath, old(engine.disk), old(engine.ssh.client), old(engine.ssh.remotePythonPath), w)
    {
      ghost var queue0 := engine.queue;
      ghost var disk0 := engine.disk;
      ghost var client0 := engine.ssh.client;
      ghost var python0 := engine.ssh.remotePythonPath;
      var ev, hashValue := engine.Submit(q, w);
      ghost var cachePath := engine.cache.CachePath(w.md5, q, Some(hashValue), w.read);
      if !ev.isSet {
        WaitFor(ev, q, hashValue, w, queue0, disk0, client0, python0);
      } else {
        Engine.CacheHitSkipsBridge(engine.cfg, cachePath, disk0, client0, python0, q, w);
      }
      response := Respond(ev.result);
    }

    /** `result_event.wait()`: the worker serves the queue, oldest first,
        until the TTS task just appended has been served. */
    method WaitFor(ev: Engine.ResultEvent, params: Params, hashValue: string, w: Engine.World,
                   ghost queue0: seq<Engine.Task>, ghost disk0: set<string>,
                   ghost client0: Option<Ssh.Client>, ghost python0: string)
      requires engine.Valid()
      requires engine.queue == queue0 + [Engine.Task(params, hashValue, ev)]
      requires engine.disk == disk0 && engine.ssh.client == client0 && engine.ssh.remotePythonPath == python0
      modifies engine, engine.ssh, engine.Events()
      ensures engine.Valid() && ev.isSet && engine.queue == []
      ensures disk0 <= engine.disk
      ensures ev.result.Some? ==> ev.result.value in engine.disk
      ensures queue0 == [] ==>
        ev.result == Engine.TaskOutcome(engine.cfg, engine.cache.CachePath(w.md5, params, Some(hashValue), w.read),
                                        disk0, client0, python0, params, w).result
      ensures queue0 == [] ==> engine.disk == disk0 + (if ev.result.Some? then {ev.result.value} else {})
      ensures var cachePath := engine.cache.CachePath(w.md5, params, Some(hashValue), w.read);
        queue0 == [] ==>
          && engine.ssh.client == Engine.TaskClient(cachePath, disk0, client0, w)
          && engine.ssh.remotePythonPath == Engine.TaskPython(engine.cfg, cachePath, disk0, client0, python0, w)
    {
      ghost var all := engine.queue;
      ghost var k := 0;
      ghost var cachePath := engine.cache.CachePath(w.md5, params, Some(hashValue), w.read);
      ghost var o := Engine.TaskOutcome(engine.cfg, cachePath, disk0, client0, python0, params, w);
      while !ev.isSet
        invariant engine.Valid()
        invariant 0 <= k <= |all| && engine.queue == all[k..]
        invariant all[|all| - 1].event == ev
        invariant k == |all| ==> ev.isSet
        invariant k < |all| ==> !ev.isSet
        invariant forall i :: 0 <= i < |engine.queue| ==> engine.queue[i].event in old(engine.Events())
        invariant k == 0 ==> engine.disk == disk0 && engine.ssh.client == client0 && engine.ssh.remotePythonPath == python0
        invariant disk0 <= engine.disk
        invariant ev.isSet && ev.result.Some? ==> ev.result.value in engine.disk
        invariant queue0 == [] && ev.isSet ==> ev.result == o.result
        invariant queue0 == [] && ev.isSet ==> engine.disk == disk0 + (if o.result.Some? then {o.result.value} else {})
        invariant queue0 == [] && ev.isSet ==> engine.ssh.client == Engine.TaskClient(cachePath, disk0, client0, w)
        invariant queue0 == [] && ev.isSet ==>
          engine.ssh.remotePythonPath == Engine.TaskPython(engine.cfg, cachePath, disk0, client0, python0, w)
        decreases |engine.queue|
      {
        assert engine.queue[0] == all[k];
        engine.WorkerStep(w);
        k := k + 1;
      }
    }
  }
}
