/** The generation engine: builds the remote command, resolves the files a
    request names on the host, runs the command, finds the produced clip in
    its output and fetches it into the result cache; requests wait in a FIFO
    queue served by one worker. */
module Engine {
  import opened Wrappers
  import opened Text
  import opened Params
  import Paths
  import Cache
  import Ssh

  /** The `tts` section of the configuration. */
  datatype TtsConfig = TtsConfig(
    workdir: string,
    command: string,
    condaEnv: Option<string>,
    remotePromptAudioPath: string,
    remoteTextFilePath: string)
  {
    /** `config['tts'].get('conda_env', 'sparktts')` */
    function CondaEnv(): string {
      condaEnv.GetOr("sparktts")
    }
  }

  /** Extensions a prompt audio may have on the host, in probing order. */
  const AudioExtensions: seq<string> := [".wav", ".mp3", ".ogg"]

  /** Extensions a text file may have on the host. */
  const TextExtensions: seq<string> := [".txt"]

  /** Everything outside the model that a task consults: the digest and the
      local text files behind the cache name, whether the existing session's
      transport is still active, the outcome of opening a new session, the
      remote host, and the SFTP transfer and removal. */
  datatype World = World(
    md5: Cache.Digest,
    read: Cache.FileReader,
    alive: bool,
    dial: Option<Ssh.Client>,
    run: Ssh.Executor,
    fetch: (string, string) -> bool,
    unlink: string -> bool)

  // ---------------------------------------------------------------------
  // The command line

  /** Parameters whose values are put in double quotes. */
  predicate IsQuoted(key: string) {
    key == "text" || key == "prompt_text" || key == "prompt_audio"
  }

  /** The ` --key value` fragment of one parameter. */
  function Fragment(key: string, value: string): string {
    if IsQuoted(key) then " --" + key + " \"" + value + "\"" else " --" + key + " " + value
  }

  /** The fragments of the parameters with non-empty values, in order. */
  function Arguments(p: Params): string {
    if p == [] then ""
    else (if p[0].value != "" then Fragment(p[0].key, p[0].value) else "") + Arguments(p[1..])
  }

  /** `cd {workdir}; {python} {command}` */
  function CommandHead(workdir: string, python: string, command: string): string {
    "cd " + workdir + "; " + python + " " + command
  }

  /** `build_tts_command` */
  function TtsCommand(workdir: string, python: string, command: string, p: Params): string {
    CommandHead(workdir, python, command) + Arguments(p)
  }

  /** Fragments follow the parameters' order: the arguments of two runs of
      parameters are the arguments of each, one after the other. */
  lemma {:induction false} ArgumentsAppend(p: Params, q: Params)
    ensures Arguments(p + q) == Arguments(p) + Arguments(q)
  {
    if p == [] {
      assert p + q == q;
    } else {
      assert (p + q)[0] == p[0];
      assert (p + q)[1..] == p[1..] + q;
      ArgumentsAppend(p[1..], q);
    }
  }

  /** One parameter contributes its fragment, or nothing when its value is
      empty. */
  lemma ArgumentsSingle(e: Entry)
    ensures Arguments([e]) == if e.value == "" then "" else Fragment(e.key, e.value)
  {
    assert [e][1..] == [];
  }

  /** Parameters with empty values add nothing to the command. */
  lemma {:induction false} EmptyValuesOmitted(p: Params)
    requires forall i :: 0 <= i < |p| ==> p[i].value == ""
    ensures Arguments(p) == ""
  {
    if p != [] {
      EmptyValuesOmitted(p[1..]);
    }
  }

  /** Unquoted values reach the shell as they are: a `pitch` value holding
      ` --speed 4` reads as a second parameter. */
  lemma UnquotedValueSplits()
    ensures Arguments([Entry("pitch", "3 --speed 4")]) == Arguments([Entry("pitch", "3"), Entry("speed", "4")])
  {
    ArgumentsSingle(Entry("pitch", "3 --speed 4"));
    ArgumentsAppend([Entry("pitch", "3")], [Entry("speed", "4")]);
    assert [Entry("pitch", "3")] + [Entry("speed", "4")] == [Entry("pitch", "3"), Entry("speed", "4")];
    ArgumentsSingle(Entry("pitch", "3"));
    ArgumentsSingle(Entry("speed", "4"));
  }

  /** The text is quoted, the pitch is not. */
  lemma CommandExample()
    ensures Arguments([Entry("text", "hi"), Entry("pitch", "3")]) == " --text \"hi\" --pitch 3"
  {
    var p := [Entry("text", "hi"), Entry("pitch", "3")];
    ArgumentsAppend([p[0]], [p[1]]);
    assert [p[0]] + [p[1]] == p;
    QuotedArgument();
    UnquotedArgument();
  }

  lemma QuotedArgument()
    ensures Arguments([Entry("text", "hi")]) == " --text \"hi\""
  {
    ArgumentsSingle(Entry("text", "hi"));
    assert IsQuoted("text");
  }

  lemma UnquotedArgument()
    ensures Arguments([Entry("pitch", "3")]) == " --pitch 3"
  {
    ArgumentsSingle(Entry("pitch", "3"));
    assert !IsQuoted("pitch");
  }

  // ---------------------------------------------------------------------
  // Resolving a file parameter on the host

  /** Whether a remote path names a file. */
  type RemoteProbe = string -> bool

  /** The probe `check_remote_file_exists` makes over a session. */
  function ProbeOf(connected: bool, run: Ssh.Executor): RemoteProbe {
    path => Ssh.FileExists(connected, run, path)
  }

  /** `{tts_dir}/{remote_dir}/{name}` */
  function RemoteFull(workdir: string, remoteDir: string, name: string): string {
    workdir + "/" + remoteDir + "/" + name
  }

  /** Outcome of `_check_remote_file_exists`: `(True, path)` or `(False, None)`. */
  datatype Resolution = Resolved(path: string) | Unresolved

  /** `base + ext` for each allowed extension in list order; the first one
      on the host wins. */
  function ProbeExtensions(exists_: RemoteProbe, workdir: string, remoteDir: string, base: string, exts: seq<string>): Resolution {
    if exts == [] then Unresolved
    else if exists_(RemoteFull(workdir, remoteDir, base + exts[0])) then Resolved(remoteDir + "/" + base + exts[0])
    else ProbeExtensions(exists_, workdir, remoteDir, base, exts[1..])
  }

  /** `_check_remote_file_exists`: nothing for an empty value; otherwise the
      value's file name as given when its extension is allowed and it is on
      the host, else the first allowed extension under which its stem is. */
  function ResolveRemoteFile(exists_: RemoteProbe, workdir: string, remoteDir: string, value: string, exts: seq<string>): Resolution {
    if value == "" then Unresolved
    else
      var name := Paths.Basename(value);
      if Paths.Ext(name) in exts && exists_(RemoteFull(workdir, remoteDir, name)) then Resolved(remoteDir + "/" + name)
      else ProbeExtensions(exists_, workdir, remoteDir, Paths.Stem(name), exts)
  }

  /** The extension probe finds the first extension under which the stem is
      on the host, and finds nothing only when it is under none. */
  lemma {:induction false} ProbeExtensionsFirst(exists_: RemoteProbe, workdir: string, remoteDir: string, base: string, exts: seq<string>)
    ensures var r := ProbeExtensions(exists_, workdir, remoteDir, base, exts);
      && (r.Unresolved? <==> forall i :: 0 <= i < |exts| ==> !exists_(RemoteFull(workdir, remoteDir, base + exts[i])))
      && (r.Resolved? ==>
            exists i :: (0 <= i < |exts| && r.path == remoteDir + "/" + base + exts[i]
              && exists_(RemoteFull(workdir, remoteDir, base + exts[i]))
              && forall j :: 0 <= j < i ==> !exists_(RemoteFull(workdir, remoteDir, base + exts[j]))))
  {
    if exts != [] && !exists_(RemoteFull(workdir, remoteDir, base + exts[0])) {
      var rest := exts[1..];
      ProbeExtensionsFirst(exists_, workdir, remoteDir, base, rest);
      var r := ProbeExtensions(exists_, workdir, remoteDir, base, rest);
      if r.Resolved? {
        var i :| 0 <= i < |rest| && r.path == remoteDir + "/" + base + rest[i]
          && exists_(RemoteFull(workdir, remoteDir, base + rest[i]))
          && forall j :: 0 <= j < i ==> !exists_(RemoteFull(workdir, remoteDir, base + rest[j]));
        assert exts[i + 1] == rest[i];
        forall j | 0 <= j < i + 1 ensures !exists_(RemoteFull(workdir, remoteDir, base + exts[j])) {
          if j > 0 {
            assert exts[j] == rest[j - 1];
          }
        }
      } else {
        forall i | 0 <= i < |exts| ensures !exists_(RemoteFull(workdir, remoteDir, base + exts[i])) {
          if i > 0 {
            assert exts[i] == rest[i - 1];
          }
        }
      }
    }
  }

  /** `remote_dir + "/" + name` starts with the directory and keeps the
      name's ending. */
  lemma UnderDirectory(remoteDir: string, name: string, ext: string)
    requires EndsWith(name, ext)
    ensures var path := remoteDir + "/" + name;
      StartsWith(path, remoteDir + "/") && EndsWith(path, ext) && path[|remoteDir| + 1..] == name
  {
    var path := remoteDir + "/" + name;
    assert path == (remoteDir + "/") + name;
    AppendEnds(remoteDir + "/", name);
    assert path[|path| - |ext|..] == name[|name| - |ext|..];
  }

  /** `path` is `remote_dir + "/" + name` for a name that ends in one of the
      allowed extensions and is on the host. */
  predicate OnHostUnder(exists_: RemoteProbe, workdir: string, remoteDir: string, path: string, exts: seq<string>) {
    && StartsWith(path, remoteDir + "/")
    && (exists i :: 0 <= i < |exts| && EndsWith(path, exts[i]))
    && exists_(RemoteFull(workdir, remoteDir, path[|remoteDir| + 1..]))
  }

  lemma NameOnHostUnder(exists_: RemoteProbe, workdir: string, remoteDir: string, name: string, exts: seq<string>, i: int)
    requires 0 <= i < |exts| && EndsWith(name, exts[i])
    requires exists_(RemoteFull(workdir, remoteDir, name))
    ensures OnHostUnder(exists_, workdir, remoteDir, remoteDir + "/" + name, exts)
  {
    UnderDirectory(remoteDir, name, exts[i]);
  }

  /** A resolved path names a file on the host, under the remote directory,
      with an allowed extension. */
  lemma ResolvedShape(exists_: RemoteProbe, workdir: string, remoteDir: string, value: string, exts: seq<string>)
    requires ResolveRemoteFile(exists_, workdir, remoteDir, value, exts).Resolved?
    ensures OnHostUnder(exists_, workdir, remoteDir, ResolveRemoteFile(exists_, workdir, remoteDir, value, exts).path, exts)
  {
    var path := ResolveRemoteFile(exists_, workdir, remoteDir, value, exts).path;
    var name := Paths.Basename(value);
    if Paths.Ext(name) in exts && exists_(RemoteFull(workdir, remoteDir, name)) {
      var i :| 0 <= i < |exts| && exts[i] == Paths.Ext(name);
      AppendEnds(Paths.Stem(name), Paths.Ext(name));
      NameOnHostUnder(exists_, workdir, remoteDir, name, exts, i);
    } else {
      var base := Paths.Stem(name);
      ProbeExtensionsFirst(exists_, workdir, remoteDir, base, exts);
      var i :| 0 <= i < |exts| && path == remoteDir + "/" + base + exts[i]
        && exists_(RemoteFull(workdir, remoteDir, base + exts[i]));
      AppendEnds(base, exts[i]);
      AppendAssoc(remoteDir + "/", base, exts[i]);
      AppendAssoc(workdir + "/" + remoteDir + "/", base, exts[i]);
      NameOnHostUnder(exists_, workdir, remoteDir, base + exts[i], exts, i);
    }
  }

  /** An empty value is never resolved. */
  lemma EmptyValueUnresolved(exists_: RemoteProbe, workdir: string, remoteDir: string, exts: seq<string>)
    ensures ResolveRemoteFile(exists_, workdir, remoteDir, "", exts) == Unresolved
  {
  }

  /** A bare name is completed with the first allowed extension present:
      `voice` with only `voice.mp3` on the host resolves to `voice.mp3`. */
  lemma ResolveExample(exists_: RemoteProbe)
    requires !exists_(RemoteFull("/w", "audio", "voice.wav"))
    requires exists_(RemoteFull("/w", "audio", "voice.mp3"))
    ensures ResolveRemoteFile(exists_, "/w", "audio", "voice", [".wav", ".mp3"]) == Resolved("audio/voice.mp3")
  {
    Paths.SplitExtNoDot("voice");
    assert Paths.Basename("voice") == "voice";
    assert "voice" + ".wav" == "voice.wav" && "voice" + ".mp3" == "voice.mp3";
    assert [".wav", ".mp3"][1..] == [".mp3"];
  }

  // ---------------------------------------------------------------------
  // The produced file

  const Marker: string := "Generated audio file: "

  /** The rest of the line: everything up to the first `\n`. */
  function LineRest(s: string): (r: string)
    ensures |r| <= |s| && r == s[..|r|]
    ensures forall i :: 0 <= i < |r| ==> r[i] != '\n'
    ensures |r| == |s| || s[|r|] == '\n'
  {
    if s == [] || s[0] == '\n' then [] else [s[0]] + LineRest(s[1..])
  }

  /** `Generated audio file: (.+)` matches at `i`: the marker, then at least
      one character other than `\n`. */
  predicate MatchAt(s: string, i: int) {
    0 <= i && i + |Marker| < |s| && StartsWith(s[i..], Marker) && s[i + |Marker|] != '\n'
  }

  /** `re.search(r"Generated audio file: (.+)", s).group(1)`: the rest of
      the line after the leftmost match. */
  function MarkerMatch(s: string): (g: Option<string>)
    decreases |s|
  {
    if MatchAt(s, 0) then Some(LineRest(s[|Marker|..]))
    else if s == [] then None
    else MarkerMatch(s[1..])
  }

  lemma MatchAtShift(s: string, i: int)
    requires s != [] && 0 <= i
    ensures MatchAt(s, i + 1) <==> MatchAt(s[1..], i)
    ensures i + 1 + |Marker| <= |s| ==> s[i + 1 + |Marker|..] == s[1..][i + |Marker|..]
  {
    if i + 1 <= |s| {
      assert s[i + 1..] == s[1..][i..];
    }
  }

  /** A leftmost match in the tail is a leftmost match in the whole string
      when the whole does not match at its start. */
  lemma LeftmostInTail(s: string, i: int)
    requires s != [] && !MatchAt(s, 0)
    requires 0 <= i < |s| - 1 && MatchAt(s[1..], i)
    requires forall j :: 0 <= j < i ==> !MatchAt(s[1..], j)
    ensures MatchAt(s, i + 1) && forall j :: 0 <= j < i + 1 ==> !MatchAt(s, j)
    ensures s[i + 1 + |Marker|..] == s[1..][i + |Marker|..]
  {
    MatchAtShift(s, i);
    forall j | 0 <= j < i + 1 ensures !MatchAt(s, j) {
      if j > 0 {
        MatchAtShift(s, j - 1);
      }
    }
  }

  /** No match in the tail and none at the start is no match at all. */
  lemma NoneInTail(s: string)
    requires s != [] && !MatchAt(s, 0)
    requires forall i :: 0 <= i < |s| - 1 ==> !MatchAt(s[1..], i)
    ensures forall i :: 0 <= i < |s| ==> !MatchAt(s, i)
  {
    forall i | 0 <= i < |s| ensures !MatchAt(s, i) {
      if i > 0 {
        MatchAtShift(s, i - 1);
      }
    }
  }

  /** The search finds the leftmost match and finds nothing only when there
      is none. */
  lemma {:induction false} MarkerMatchLeftmost(s: string)
    ensures MarkerMatch(s).None? <==> forall i :: 0 <= i < |s| ==> !MatchAt(s, i)
    ensures MarkerMatch(s).Some? ==>
      exists i :: 0 <= i < |s| && MatchAt(s, i) && (forall j :: 0 <= j < i ==> !MatchAt(s, j))
        && MarkerMatch(s).value == LineRest(s[i + |Marker|..])
    decreases |s|
  {
    if MatchAt(s, 0) {
    } else if s == [] {
    } else {
      MarkerMatchLeftmost(s[1..]);
      if MarkerMatch(s[1..]).Some? {
        var i :| 0 <= i < |s[1..]| && MatchAt(s[1..], i) && (forall j :: 0 <= j < i ==> !MatchAt(s[1..], j))
          && MarkerMatch(s[1..]).value == LineRest(s[1..][i + |Marker|..]);
        LeftmostInTail(s, i);
      } else {
        NoneInTail(s);
      }
    }
  }

  /** The produced file as the command reports it, stripped. */
  function OutputFile(output: string): Option<string> {
    match MarkerMatch(output)
    case Some(g) => Some(Strip(g))
    case None => None
  }

  /** A relative output file lives under the working directory. */
  function RemoteOutputPath(workdir: string, outputFile: string): (r: string)
    ensures Paths.IsAbs(outputFile) ==> r == outputFile
    ensures !Paths.IsAbs(outputFile) ==> StartsWith(r, workdir + "/") && EndsWith(r, outputFile)
  {
    if Paths.IsAbs(outputFile) then outputFile
    else
      AppendEnds(workdir + "/", outputFile);
      workdir + "/" + outputFile
  }

  /** A marker at the start of the output is found. */
  lemma MarkerExample()
    ensures MarkerMatch("Generated audio file: a.wav") == Some("a.wav")
  {
    var s := "Generated audio file: a.wav";
    assert s[..|Marker|] == Marker;
    assert s[0..] == s;
    assert MatchAt(s, 0);
    assert s[|Marker|..] == "a.wav";
    assert LineRest("a.wav") == "a.wav";
  }

  // ---------------------------------------------------------------------
  // A task, as a value

  /** The remote operations a task performs, in order. */
  datatype BridgeCall =
    | Connect
    | Execute(command: string)
    | Download(remotePath: string, localPath: string)
    | Remove(remotePath: string)

  /** The result of a task and the bridge operations it performed. */
  datatype Attempt = Attempt(result: Option<string>, calls: seq<BridgeCall>)

  /** A file parameter, when present, rewritten to its resolved remote path;
      `None` when it cannot be resolved. */
  function ResolveParam(exists_: RemoteProbe, workdir: string, p: Params, key: string, remoteDir: string, exts: seq<string>): Option<Params> {
    if !Has(p, key) then Some(p)
    else match ResolveRemoteFile(exists_, workdir, remoteDir, Get(p, key).value, exts)
      case Unresolved => None
      case Resolved(path) => Some(Set(p, key, path))
  }

  /** Both file parameters resolved on the host, in the order the TTS task
      checks them: the prompt audio, then the text file. */
  function ResolveFiles(cfg: TtsConfig, p: Params, run: Ssh.Executor): Option<Params> {
    var probe := ProbeOf(true, run);
    match ResolveParam(probe, cfg.workdir, p, "prompt_audio", cfg.remotePromptAudioPath, AudioExtensions)
    case None => None
    case Some(p1) => ResolveParam(probe, cfg.workdir, p1, "text_file", cfg.remoteTextFilePath, TextExtensions)
  }

  /** Running the command for resolved parameters, finding the produced file,
      downloading it into the cache and removing it from the host. */
  function RunAndFetch(cfg: TtsConfig, python: string, p: Params, cachePath: string, w: World): Attempt {
    var cmd := TtsCommand(cfg.workdir, python, cfg.command, p);
    var r := w.run(cmd);
    if !(r.Ran? && r.exitStatus == 0) then Attempt(None, [Execute(cmd)])
    else match OutputFile(Ssh.StdoutOf(r.live + r.drained))
      case None => Attempt(None, [Execute(cmd)])
      case Some(f) =>
        var remote := RemoteOutputPath(cfg.workdir, f);
        if !w.fetch(remote, cachePath) then Attempt(None, [Execute(cmd), Download(remote, cachePath)])
        else Attempt(Some(cachePath), [Execute(cmd), Download(remote, cachePath), Remove(remote)])
  }

  /** The steps of `process_tts_task` after the session is open and the
      interpreter known. */
  function Generation(cfg: TtsConfig, python: string, p: Params, cachePath: string, w: World): Attempt {
    match ResolveFiles(cfg, p, w.run)
    case None => Attempt(None, [])
    case Some(p2) => RunAndFetch(cfg, python, p2, cachePath, w)
  }

  /** A generation that succeeds yields the cache path after a download to it
      and a removal of the same remote file; one that fails removes nothing. */
  lemma GenerationCalls(cfg: TtsConfig, python: string, p: Params, cachePath: string, w: World)
    ensures var g := Generation(cfg, python, p, cachePath, w);
      && (g.result.Some? ==>
            && g.result.value == cachePath && |g.calls| == 3
            && g.calls[1] == Download(g.calls[2].remotePath, cachePath)
            && g.calls[2].Remove? && w.fetch(g.calls[2].remotePath, cachePath))
      && (g.result.None? ==> forall i :: 0 <= i < |g.calls| ==> !g.calls[i].Remove?)
  {
    match ResolveFiles(cfg, p, w.run)
    case None =>
    case Some(p2) =>
      var cmd := TtsCommand(cfg.workdir, python, cfg.command, p2);
      var r := w.run(cmd);
      if r.Ran? && r.exitStatus == 0 {
        match OutputFile(Ssh.StdoutOf(r.live + r.drained))
        case None =>
        case Some(f) =>
      }
  }

  /** `connect` succeeds: the session is alive, or a new one opens. */
  predicate Connects(client: Option<Ssh.Client>, w: World) {
    (client.Some? && w.alive) || w.dial.Some?
  }

  /** The session after `connect`. */
  function ClientAfter(client: Option<Ssh.Client>, w: World): Option<Ssh.Client> {
    if client.Some? && w.alive then client else if w.dial.Some? then w.dial else client
  }

  /** The interpreter after the lookup a task makes while the path is still
      the default. */
  function PythonAfter(cfg: TtsConfig, python: string, w: World): string {
    if python == Ssh.DefaultPython then Ssh.PythonPathResult(true, w.run, cfg.CondaEnv()) else python
  }

  /** The session after `process_tts_task`: a cache hit leaves it alone;
      otherwise it is the one `connect` leaves. */
  function TaskClient(cachePath: string, disk: set<string>, client: Option<Ssh.Client>, w: World): Option<Ssh.Client> {
    if cachePath in disk then client else ClientAfter(client, w)
  }

  /** The interpreter after `process_tts_task`: it can change only once a
      session is open for a cache miss. */
  function TaskPython(cfg: TtsConfig, cachePath: string, disk: set<string>, client: Option<Ssh.Client>,
                      python: string, w: World): string {
    if cachePath in disk || !Connects(client, w) then python else PythonAfter(cfg, python, w)
  }

  /** `process_tts_task` from the state it starts in, for the cache path
      of its request: a cached clip is returned without any remote operation;
      otherwise a session is opened and, if that succeeds, the clip is
      generated. */
  function TaskOutcome(cfg: TtsConfig, cachePath: string, disk: set<string>, client: Option<Ssh.Client>,
                       python: string, p: Params, w: World): (o: Attempt)
    ensures o.calls == [] <==> cachePath in disk
    ensures o.calls != [] ==> o.calls[0] == Connect
  {
    if cachePath in disk then Attempt(Some(cachePath), [])
    else if !Connects(client, w) then Attempt(None, [Connect])
    else
      var g := Generation(cfg, PythonAfter(cfg, python, w), p, cachePath, w);
      Attempt(g.result, [Connect] + g.calls)
  }

  /** A cached clip is served without touching the host. */
  lemma CacheHitSkipsBridge(cfg: TtsConfig, cachePath: string, disk: set<string>, client: Option<Ssh.Client>,
                            python: string, p: Params, w: World)
    requires cachePath in disk
    ensures TaskOutcome(cfg, cachePath, disk, client, python, p, w) == Attempt(Some(cachePath), [])
  {
  }

  /** A task yields the cache path or nothing; a generated clip was
      downloaded to the cache path first and then removed from the host. */
  lemma TaskResultIsCachePath(cfg: TtsConfig, cachePath: string, disk: set<string>, client: Option<Ssh.Client>,
                              python: string, p: Params, w: World)
    ensures var o := TaskOutcome(cfg, cachePath, disk, client, python, p, w);
      && (o.result.Some? ==> o.result.value == cachePath)
      && (o.result.Some? && cachePath !in disk ==>
            |o.calls| == 4 && o.calls[2] == Download(o.calls[3].remotePath, cachePath)
            && o.calls[3].Remove? && w.fetch(o.calls[3].remotePath, cachePath))
  {
    if cachePath !in disk && Connects(client, w) {
      GenerationCalls(cfg, PythonAfter(cfg, python, w), p, cachePath, w);
    }
  }

  /** The remote file is removed only right after it was downloaded, and
      only by a task that succeeds. */
  lemma RemoveOnlyAfterDownload(cfg: TtsConfig, cachePath: string, disk: set<string>, client: Option<Ssh.Client>,
                                python: string, p: Params, w: World)
    ensures var o := TaskOutcome(cfg, cachePath, disk, client, python, p, w);
      forall i :: 0 <= i < |o.calls| && o.calls[i].Remove? ==>
        0 < i && o.calls[i - 1].Download? && o.calls[i - 1].remotePath == o.calls[i].remotePath
        && w.fetch(o.calls[i].remotePath, o.calls[i - 1].localPath) && o.result.Some?
  {
    if cachePath !in disk && Connects(client, w) {
      var g := Generation(cfg, PythonAfter(cfg, python, w), p, cachePath, w);
      GenerationCalls(cfg, PythonAfter(cfg, python, w), p, cachePath, w);
      var o := TaskOutcome(cfg, cachePath, disk, client, python, p, w);
      assert o.calls == [Connect] + g.calls;
      forall i | 0 <= i < |o.calls| && o.calls[i].Remove?
        ensures 0 < i && o.calls[i - 1].Download? && o.calls[i - 1].remotePath == o.calls[i].remotePath
        ensures w.fetch(o.calls[i].remotePath, o.calls[i - 1].localPath) && o.result.Some?
      {
        assert o.calls[i] == g.calls[i - 1];
        assert i == 3;
      }
    }
  }

  /** When the files resolve and the TTS command exits with 0 but prints no
      marker, the TTS task yields nothing after that one command: nothing is
      downloaded or removed. The file probes may fail or succeed as they
      will. */
  lemma MissingMarkerFails(cfg: TtsConfig, python: string, p: Params, cachePath: string, w: World)
    requires ResolveFiles(cfg, p, w.run).Some?
    requires var cmd := TtsCommand(cfg.workdir, python, cfg.command, ResolveFiles(cfg, p, w.run).value);
      && w.run(cmd).Ran? && w.run(cmd).exitStatus == 0
      && OutputFile(Ssh.StdoutOf(w.run(cmd).live + w.run(cmd).drained)).None?
    ensures var cmd := TtsCommand(cfg.workdir, python, cfg.command, ResolveFiles(cfg, p, w.run).value);
      Generation(cfg, python, p, cachePath, w) == Attempt(None, [Execute(cmd)])
  {
  }

  /** A present prompt audio that cannot be found on the host fails the TTS task
      before the TTS command runs: no command, download or removal is traced.
      The file probes themselves run but are not traced. */
  lemma UnresolvedPromptAudioFails(cfg: TtsConfig, python: string, p: Params, cachePath: string, w: World)
    requires Has(p, "prompt_audio")
    requires ResolveRemoteFile(ProbeOf(true, w.run), cfg.workdir, cfg.remotePromptAudioPath,
                               Get(p, "prompt_audio").value, AudioExtensions).Unresolved?
    ensures Generation(cfg, python, p, cachePath, w) == Attempt(None, [])
  {
  }

  /** Once a task has stored its clip, the same request is a cache hit,
      whatever the session and interpreter are then. */
  lemma RepeatIsCacheHit(cfg: TtsConfig, cachePath: string, disk: set<string>, client: Option<Ssh.Client>,
                         python: string, p: Params, w: World, client': Option<Ssh.Client>, python': string)
    requires TaskOutcome(cfg, cachePath, disk, client, python, p, w).result.Some?
    ensures TaskOutcome(cfg, cachePath, disk + {cachePath}, client', python', p, w) == Attempt(Some(cachePath), [])
  {
  }

  // ---------------------------------------------------------------------
  // The engine

  /** `ResultEvent`: a one-shot flag carrying the TTS task's result. */
  class ResultEvent {
    var result: Option<string>
    var isSet: bool
    ghost var setCount: nat

    constructor ()
      ensures result == None && !isSet && setCount == 0
    {
      result := None;
      isSet := false;
      setCount := 0;
    }

    /** `Event.set` */
    method Set()
      modifies this
      ensures isSet && result == old(result) && setCount == old(setCount) + 1
    {
      isSet := true;
      setCount := setCount + 1;
    }
  }

  /** A queued request: its parameters, their hash and the event its caller
      waits on. */
  datatype Task = Task(params: Params, hashValue: string, event: ResultEvent)

  /** `TTSEngine`: the session owner, the cache, the local files (`disk`),
      the FIFO queue and the count of tasks in progress; `calls` records the
      remote operations tasks perform. */
  class TtsEngine {
    const cfg: TtsConfig
    const cache: Cache.CacheManager
    const ssh: Ssh.SshManager
    var queue: seq<Task>
    var activeTasks: int
    var disk: set<string>
    ghost var calls: seq<BridgeCall>

    /** The events callers of queued tasks wait on. */
    ghost function Events(): set<ResultEvent>
      reads this
    {
      set i | 0 <= i < |queue| :: queue[i].event
    }

    /** The events of queued tasks are distinct and none has been set. */
    ghost predicate Valid()
      reads this, Events()
    {
      && (forall i, j :: 0 <= i < j < |queue| ==> queue[i].event != queue[j].event)
      && (forall i :: 0 <= i < |queue| ==> !queue[i].event.isSet && queue[i].event.setCount == 0)
    }

    constructor (cfg: TtsConfig, cacheDir: string, disk: set<string>)
      ensures Valid()
      ensures this.cfg == cfg && cache == Cache.CacheManager(cacheDir) && this.disk == disk
      ensures queue == [] && activeTasks == 0 && calls == []
      ensures fresh(ssh) && ssh.client == None && ssh.remotePythonPath == Ssh.DefaultPython
    {
      this.cfg := cfg;
      cache := Cache.CacheManager(cacheDir);
      ssh := new Ssh.SshManager();
      queue := [];
      activeTasks := 0;
      this.disk := disk;
      calls := [];
    }

    /** `build_tts_command` */
    method BuildTtsCommand(p: Params) returns (cmd: string)
      ensures cmd == TtsCommand(cfg.workdir, ssh.remotePythonPath, cfg.command, p)
    {
      ghost var head := CommandHead(cfg.workdir, ssh.remotePythonPath, cfg.command);
      cmd := "cd " + cfg.workdir + "; " + ssh.remotePythonPath + " " + cfg.command;
      assert cmd == head;
      assert p[..0] == [] && head + Arguments([]) == head;
      var i := 0;
      while i < |p|
        invariant 0 <= i <= |p|
        invariant cmd == head + Arguments(p[..i])
      {
        var key, value := p[i].key, p[i].value;
        ghost var before := cmd;
        if value != "" {
          var fragment;
          if key == "text" || key == "prompt_text" {
            fragment := " --" + key + " \"" + value + "\"";
            assert IsQuoted(key);
          } else if key == "prompt_audio" {
            fragment := " --" + key + " \"" + value + "\"";
            assert IsQuoted(key);
          } else {
            fragment := " --" + key + " " + value;
            assert !IsQuoted(key);
          }
          assert fragment == Fragment(key, value);
          cmd := cmd + fragment;
        }
        assert cmd == head + Arguments(p[..i + 1]) by {
          assert p[..i + 1] == p[..i] + [p[i]];
          ArgumentsAppend(p[..i], [p[i]]);
          ArgumentsSingle(p[i]);
          AppendAssoc(head, Arguments(p[..i]), Arguments([p[i]]));
        }
        i := i + 1;
      }
      assert p[..i] == p;
    }

    /** `_check_remote_file_exists` */
    method CheckRemoteFile(value: string, remoteDir: string, exts: seq<string>, run: Ssh.Executor)
      returns (found: bool, remotePath: Option<string>)
      ensures var r := ResolveRemoteFile(ProbeOf(ssh.client.Some?, run), cfg.workdir, remoteDir, value, exts);
        found == r.Resolved? && remotePath == (if r.Resolved? then Some(r.path) else None)
    {
      if value == "" {
        return false, None;
      }
      var filenamePart := Paths.Basename(value);
      var baseName := Paths.Stem(filenamePart);
      var fileExt := Paths.Ext(filenamePart);
      if fileExt in exts {
        var ok := ssh.CheckRemoteFileExists(cfg.workdir + "/" + remoteDir + "/" + filenamePart, run);
        if ok {
          return true, Some(remoteDir + "/" + filenamePart);
        }
      }
      var r := TryExtensions(baseName, remoteDir, exts, run);
      return r.Resolved?, if r.Resolved? then Some(r.path) else None;
    }

    /** The loop of `_check_remote_file_exists` over the allowed extensions. */
    method TryExtensions(baseName: string, remoteDir: string, exts: seq<string>, run: Ssh.Executor)
      returns (r: Resolution)
      ensures r == ProbeExtensions(ProbeOf(ssh.client.Some?, run), cfg.workdir, remoteDir, baseName, exts)
    {
      ghost var probe := ProbeOf(ssh.client.Some?, run);
      assert exts[0..] == exts;
      var i := 0;
      while i < |exts|
        invariant 0 <= i <= |exts|
        invariant ProbeExtensions(probe, cfg.workdir, remoteDir, baseName, exts)
                  == ProbeExtensions(probe, cfg.workdir, remoteDir, baseName, exts[i..])
      {
        assert exts[i..][0] == exts[i] && exts[i..][1..] == exts[i + 1..];
        var filename := baseName + exts[i];
        var ok := ssh.CheckRemoteFileExists(cfg.workdir + "/" + remoteDir + "/" + filename, run);
        if ok {
          return Resolved(remoteDir + "/" + filename);
        }
        i := i + 1;
      }
      return Unresolved;
    }

    /** `process_tts_task` */
    method ProcessTask(p: Params, hashValue: string, w: World) returns (result: Option<string>)
      modifies this`disk, this`calls, ssh
      ensures var o := TaskOutcome(cfg, cache.CachePath(w.md5, p, Some(hashValue), w.read), old(disk),
                                   old(ssh.client), old(ssh.remotePythonPath), p, w);
        && result == o.result
        && calls == old(calls) + o.calls
        && disk == old(disk) + (if result.Some? then {result.value} else {})
      ensures var cachePath := cache.CachePath(w.md5, p, Some(hashValue), w.read);
        && ssh.client == TaskClient(cachePath, old(disk), old(ssh.client), w)
        && ssh.remotePythonPath == TaskPython(cfg, cachePath, old(disk), old(ssh.client), old(ssh.remotePythonPath), w)
    {
      var cachePath := cache.CachePath(w.md5, p, Some(hashValue), w.read);
      if cachePath in disk {
        return Some(cachePath);
      }
      ghost var calls0 := calls;
      var connected := OpenSession(w);
      calls := calls + [Connect];
      if !connected {
        return None;
      }
      ghost var g := Generation(cfg, ssh.remotePythonPath, p, cachePath, w);
      result := Generate(p, cachePath, w);
      AppendAssoc(calls0, [Connect], g.calls);
    }

    /** The part of `process_tts_task` that runs on an open session. */
    method Generate(p: Params, cachePath: string, w: World) returns (result: Option<string>)
      requires ssh.client.Some?
      modifies this`disk, this`calls
      ensures var g := Generation(cfg, ssh.remotePythonPath, p, cachePath, w);
        && result == g.result
        && calls == old(calls) + g.calls
        && disk == old(disk) + (if result.Some? then {result.value} else {})
    {
      var params := ResolveTaskFiles(p, w.run);
      if params.None? {
        return None;
      }
      result := RunTask(params.value, cachePath, w);
    }

    /** The session a task opens, and the interpreter lookup it makes while
        the path is still the default. */
    method OpenSession(w: World) returns (connected: bool)
      modifies ssh
      ensures connected == Connects(old(ssh.client), w)
      ensures ssh.client == ClientAfter(old(ssh.client), w)
      ensures ssh.remotePythonPath == if connected then PythonAfter(cfg, old(ssh.remotePythonPath), w) else old(ssh.remotePythonPath)
    {
      var client := ssh.Connect(w.alive, w.dial);
      if client.None? {
        return false;
      }
      if ssh.remotePythonPath == Ssh.DefaultPython {
        var python := ssh.GetRemotePythonPath(cfg.CondaEnv(), w.run);
        ssh.remotePythonPath := python;
      }
      return true;
    }

    /** The two file checks of `process_tts_task`, each rewriting its
        parameter to the path found on the host. */
    method ResolveTaskFiles(p: Params, run: Ssh.Executor) returns (params: Option<Params>)
      requires ssh.client.Some?
      ensures params == ResolveFiles(cfg, p, run)
    {
      ghost var probe := ProbeOf(true, run);
      var q := p;
      if Has(q, "prompt_audio") {
        var found, remotePath := CheckRemoteFile(Get(q, "prompt_audio").value, cfg.remotePromptAudioPath, AudioExtensions, run);
        if !found {
          return None;
        }
        q := Set(q, "prompt_audio", remotePath.value);
      }
      assert ResolveParam(probe, cfg.workdir, p, "prompt_audio", cfg.remotePromptAudioPath, AudioExtensions) == Some(q);
      if Has(q, "text_file") {
        var found, remotePath := CheckRemoteFile(Get(q, "text_file").value, cfg.remoteTextFilePath, TextExtensions, run);
        if !found {
          return None;
        }
        q := Set(q, "text_file", remotePath.value);
      }
      return Some(q);
    }

    /** The command, download and removal steps of `process_tts_task`. */
    method RunTask(params: Params, cachePath: string, w: World) returns (result: Option<string>)
      requires ssh.client.Some?
      modifies this`disk, this`calls
      ensures var g := RunAndFetch(cfg, ssh.remotePythonPath, params, cachePath, w);
        && result == g.result
        && calls == old(calls) + g.calls
        && disk == old(disk) + (if result.Some? then {result.value} else {})
    {
      var cmd := BuildTtsCommand(params);
      var success, output, error, log := ssh.ExecuteCommand(cmd, w.run, true);
      calls := calls + [Execute(cmd)];
      if !success {
        return None;
      }
      var outputFile := OutputFile(output);
      if outputFile.None? {
        return None;
      }
      var remotePath := RemoteOutputPath(cfg.workdir, outputFile.value);
      var downloaded := ssh.DownloadFile(remotePath, cachePath, w.fetch);
      calls := calls + [Download(remotePath, cachePath)];
      if !downloaded {
        return None;
      }
      disk := disk + {cachePath};
      var removed := ssh.RemoveRemoteFile(remotePath, w.unlink);
      calls := calls + [Remove(remotePath)];
      return Some(cachePath);
    }

    /** `submit_task`: a cached result completes the request at once;
        otherwise the request joins the back of the queue with a fresh,
        unset event. */
    method Submit(p: Params, w: World) returns (ev: ResultEvent, hashValue: string)
      requires Valid()
      modifies this`queue
      ensures fresh(ev) && Valid()
      ensures hashValue == Cache.GenerateHash(w.md5, p)
      ensures var cachePath := cache.CachePath(w.md5, p, Some(hashValue), w.read);
        if cachePath in disk then
          && ev.isSet && ev.setCount == 1 && ev.result == Some(cachePath)
          && queue == old(queue)
        else
          && !ev.isSet && ev.setCount == 0 && ev.result == None
          && queue == old(queue) + [Task(p, hashValue, ev)]
    {
      hashValue := Cache.GenerateHash(w.md5, p);
      ev := new ResultEvent();
      var cachePath := cache.CachePath(w.md5, p, Some(hashValue), w.read);
      if cachePath in disk {
        ev.result := Some(cachePath);
        ev.Set();
        return;
      }
      queue := queue + [Task(p, hashValue, ev)];
    }

    /** One turn of `_worker`: take the oldest task, count it as active while
        `process_tts_task` runs, store its result in the TTS task's event, count
        it as finished and set the event. */
    method WorkerStep(w: World)
      requires Valid() && queue != []
      modifies this`queue, this`activeTasks, this`disk, this`calls, ssh, queue[0].event
      ensures Valid() && queue == old(queue[1..])
      ensures activeTasks == old(activeTasks)
      ensures var t := old(queue[0]);
        var o := TaskOutcome(cfg, cache.CachePath(w.md5, t.params, Some(t.hashValue), w.read), old(disk),
                             old(ssh.client), old(ssh.remotePythonPath), t.params, w);
        && t.event.result == o.result && t.event.isSet && t.event.setCount == 1
        && calls == old(calls) + o.calls
      ensures var t := old(queue[0]);
        disk == old(disk) + (if t.event.result.Some? then {t.event.result.value} else {})
      ensures var t := old(queue[0]);
        var cachePath := cache.CachePath(w.md5, t.params, Some(t.hashValue), w.read);
        && ssh.client == TaskClient(cachePath, old(disk), old(ssh.client), w)
        && ssh.remotePythonPath == TaskPython(cfg, cachePath, old(disk), old(ssh.client), old(ssh.remotePythonPath), w)
    {
      var t := queue[0];
      queue := queue[1..];
      activeTasks := activeTasks + 1;
      var result := ProcessTask(t.params, t.hashValue, w);
      t.event.result := result;
      activeTasks := activeTasks - 1;
      t.event.Set();
    }
  }
}
