/** The remote-execution bridge: one SSH session to the generation host, used
    to run commands, probe files and transfer the result. The host itself is
    abstract: running a command yields the chunks it printed and its exit
    status, or the exception the client raised. */
module Ssh {
  import opened Wrappers
  import opened Text

  /** One piece of output as read from the channel. */
  datatype Chunk = Out(data: string) | Err(data: string)

  /** Running a command: the chunks read while it runs, the chunks drained
      after it exits, and the exit status; or the message of the exception
      raised while running it. */
  datatype ExecResult =
    | Ran(live: seq<Chunk>, drained: seq<Chunk>, exitStatus: int)
    | Raised(message: string)

  /** The remote host, seen through `exec_command`. */
  type Executor = string -> ExecResult

  /** A session with the host; `id` tells one session from another. */
  datatype Client = Client(id: nat)

  /** What `execute_command` returns when there is no session. */
  const NoConnection: string := "未建立SSH连接"

  /** The interpreter used until a probe finds a better one. */
  const DefaultPython: string := "python"

  function StdoutOf(chunks: seq<Chunk>): string {
    if chunks == [] then ""
    else (if chunks[0].Out? then chunks[0].data else "") + StdoutOf(chunks[1..])
  }

  function StderrOf(chunks: seq<Chunk>): string {
    if chunks == [] then ""
    else (if chunks[0].Err? then chunks[0].data else "") + StderrOf(chunks[1..])
  }

  lemma {:induction false} StdoutOfAppend(a: seq<Chunk>, b: seq<Chunk>)
    ensures StdoutOf(a + b) == StdoutOf(a) + StdoutOf(b)
    ensures StderrOf(a + b) == StderrOf(a) + StderrOf(b)
  {
    if a == [] {
      assert a + b == b;
    } else {
      assert (a + b)[0] == a[0] && (a + b)[1..] == a[1..] + b;
      StdoutOfAppend(a[1..], b);
      var out := if a[0].Out? then a[0].data else "";
      var err := if a[0].Err? then a[0].data else "";
      AppendAssoc(out, StdoutOf(a[1..]), StdoutOf(b));
      AppendAssoc(err, StderrOf(a[1..]), StderrOf(b));
    }
  }

  /** One more chunk adds its data to its own stream only. */
  lemma StepChunk(prefix: seq<Chunk>, c: Chunk)
    ensures StdoutOf(prefix + [c]) == if c.Out? && c.data != "" then StdoutOf(prefix) + c.data else StdoutOf(prefix)
    ensures StderrOf(prefix + [c]) == if c.Err? && c.data != "" then StderrOf(prefix) + c.data else StderrOf(prefix)
  {
    StdoutOfAppend(prefix, [c]);
    assert [c][1..] == [];
    assert StdoutOf(prefix) + "" == StdoutOf(prefix);
    assert StderrOf(prefix) + "" == StderrOf(prefix);
    assert c.data + "" == c.data;
  }

  // ---------------------------------------------------------------------
  // Severity of streamed output

  datatype Level = Info | Warning | Error | Debug | Plain

  /** The level a stdout chunk is logged at: the first marker found, in the
      order INFO, WARNING/WARN, ERROR/CRITICAL, DEBUG. */
  function StdoutLevel(chunk: string): (l: Level)
    ensures l == Info <==> Contains(chunk, "INFO")
    ensures l == Warning <==> !Contains(chunk, "INFO") && Contains(chunk, "WARN")
    ensures l == Error <==> !Contains(chunk, "INFO") && !Contains(chunk, "WARN")
                            && (Contains(chunk, "ERROR") || Contains(chunk, "CRITICAL"))
    ensures l == Plain <==> !Contains(chunk, "INFO") && !Contains(chunk, "WARN") && !Contains(chunk, "ERROR")
                            && !Contains(chunk, "CRITICAL") && !Contains(chunk, "DEBUG")
  {
    WarnSubsumesWarning(chunk);
    if Contains(chunk, "INFO") then Info
    else if Contains(chunk, "WARNING") || Contains(chunk, "WARN") then Warning
    else if Contains(chunk, "ERROR") || Contains(chunk, "CRITICAL") then Error
    else if Contains(chunk, "DEBUG") then Debug
    else Plain
  }

  /** The `WARNING` test is subsumed by the `WARN` test. */
  lemma WarnSubsumesWarning(chunk: string)
    ensures Contains(chunk, "WARNING") ==> Contains(chunk, "WARN")
  {
    if Contains(chunk, "WARNING") {
      assert StartsWith("WARNING", "WARN");
      ContainsPrefixOf(chunk, "WARNING", "WARN");
    }
  }

  /** The level a stderr chunk is logged at; a blank chunk is not logged. */
  function StderrLevel(chunk: string): (l: Option<Level>)
    ensures l == None <==> Strip(chunk) == ""
    ensures l == Some(Warning) <==> Strip(chunk) != "" && Contains(chunk, "WARN")
    ensures l == Some(Error) <==> Strip(chunk) != "" && !Contains(chunk, "WARN")
  {
    WarnSubsumesWarning(chunk);
    if Strip(chunk) == "" then None
    else if Contains(chunk, "WARNING") || Contains(chunk, "WARN") then Some(Warning)
    else Some(Error)
  }

  /** The log records emitted for the chunks read while a command runs:
      one per non-empty stdout chunk, one per non-blank stderr chunk. */
  function ChunkLog(chunks: seq<Chunk>): seq<Level> {
    if chunks == [] then []
    else
      var c := chunks[0];
      var here :=
        if c.data == "" then []
        else if c.Out? then [StdoutLevel(c.data)]
        else match StderrLevel(c.data) case None => [] case Some(l) => [l];
      here + ChunkLog(chunks[1..])
  }

  lemma {:induction false} ChunkLogAppend(a: seq<Chunk>, b: seq<Chunk>)
    ensures ChunkLog(a + b) == ChunkLog(a) + ChunkLog(b)
  {
    if a == [] {
      assert a + b == b;
    } else {
      assert (a + b)[1..] == a[1..] + b;
      ChunkLogAppend(a[1..], b);
    }
  }

  /** A chunk that mentions both INFO and ERROR is logged as INFO. */
  lemma InfoBeatsError()
    ensures StdoutLevel("ERROR in INFO block") == Info
  {
    var s := "ERROR in INFO block";
    assert s[9..][..4] == "INFO";
    assert Contains(s[9..], "INFO");
    assert Contains(s[8..], "INFO") && Contains(s[7..], "INFO") && Contains(s[6..], "INFO");
    assert Contains(s[5..], "INFO") && Contains(s[4..], "INFO") && Contains(s[3..], "INFO");
    assert Contains(s[2..], "INFO") && Contains(s[1..], "INFO");
  }

  // ---------------------------------------------------------------------
  // `execute_command`: the return contract

  /** `(success, output, error)` for a command run through a session. */
  function ExecOutcome(r: ExecResult): (string, string, bool) {
    match r
    case Raised(msg) => ("", msg, false)
    case Ran(live, drained, status) => (StdoutOf(live + drained), StderrOf(live + drained), status == 0)
  }

  /** One more chunk adds at most one record to the log. */
  lemma StepLog(prefix: seq<Chunk>, c: Chunk)
    ensures ChunkLog(prefix + [c]) == ChunkLog(prefix) + (
      if c.data == "" then []
      else if c.Out? then [StdoutLevel(c.data)]
      else match StderrLevel(c.data) case None => [] case Some(l) => [l])
  {
    ChunkLogAppend(prefix, [c]);
    assert [c][1..] == [];
  }

  // ---------------------------------------------------------------------
  // `ls -la` parsing

  /** The file name on one listing line: the ninth field on, joined by single
      spaces; nothing for a short line or for `.` and `..`. */
  function ListingName(line: string): Option<string> {
    var parts := Words(line);
    if |parts| >= 9 then
      var name := Join(parts[8..], " ");
      if name != "." && name != ".." then Some(name) else None
    else None
  }

  /** The names on the listing lines, in order. */
  function ListingNames(lines: seq<string>): (names: seq<string>)
    ensures |names| <= |lines|
    ensures forall n :: n in names ==> n != "." && n != ".."
  {
    if lines == [] then []
    else
      match ListingName(lines[0])
      case Some(n) => [n] + ListingNames(lines[1..])
      case None => ListingNames(lines[1..])
  }

  /** The lines of `ls -la` output after the leading `total N` line. */
  function ListingBody(output: string): seq<string> {
    var lines := SplitLines(output);
    if lines == [] then [] else lines[1..]
  }

  /** A listing line built from eight metadata fields and a name made of
      whitespace-free words yields that name, its words joined by one space. */
  lemma ListingNameOfLine(meta: seq<string>, name: seq<string>)
    requires |meta| == 8 && name != []
    requires forall i :: 0 <= i < |meta| ==> IsWord(meta[i])
    requires forall i :: 0 <= i < |name| ==> IsWord(name[i])
    requires Join(name, " ") != "." && Join(name, " ") != ".."
    ensures ListingName(Join(meta + name, " ")) == Some(Join(name, " "))
  {
    var ws := meta + name;
    forall i | 0 <= i < |ws| ensures IsWord(ws[i]) {
      if i >= 8 {
        assert ws[i] == name[i - 8];
      }
    }
    WordsOfJoin(ws);
    assert ws[8..] == name;
  }

  /** `[ -f "path" ] && echo 'exists' || echo 'not exists'` */
  function FileTestCommand(path: string): string {
    "[ -f \"" + path + "\" ] && echo 'exists' || echo 'not exists'"
  }

  /** `check_remote_file_exists`: the probe ran and printed exactly `exists`
      once surrounding whitespace is stripped. */
  predicate FileExists(connected: bool, run: Executor, path: string) {
    connected && run(FileTestCommand(path)).Ran?
    && Strip(StdoutOf(run(FileTestCommand(path)).live + run(FileTestCommand(path)).drained)) == "exists"
  }

  /** `not exists` contains `exists` but is a negative answer. */
  lemma NotExistsIsNegative(run: Executor, path: string)
    requires run(FileTestCommand(path)) == Ran([Out("not exists\n")], [], 0)
    ensures !FileExists(true, run, path)
  {
    var t := "not exists\n";
    assert [Out(t)] + [] == [Out(t)];
    assert StdoutOf([Out(t)]) == t by {
      assert [Out(t)][1..] == [];
      assert t + "" == t;
    }
    StripNotExists();
  }

  lemma StripNotExists()
    ensures Strip("not exists\n") == "not exists"
  {
    var t, u := "not exists\n", "not exists";
    assert !IsSpace(t[0]);
    assert t[..|t| - 1] == u;
    assert !IsSpace(u[|u| - 1]);
  }

  // ---------------------------------------------------------------------
  // Interpreter discovery

  /** Result of a probe: a path, nothing, or an exception that ends the search. */
  datatype Probe = Found(path: string) | Missed | Crashed

  /** The shell lookups tried first, in order. */
  const LookupCommands: seq<string> := ["which python", "bash -c 'which python'", "which conda && conda info --base"]

  /** Activates the environment under a conda base and asks for its interpreter. */
  function ActivationCommand(condaBase: string, condaEnv: string): string {
    "source " + condaBase + "/etc/profile.d/conda.sh && conda activate " + condaEnv + " && which python"
  }

  /** The well-known install paths tried after the lookups, in order. */
  function CandidatePaths(condaEnv: string): seq<string> {
    [ "/root/miniconda3/envs/" + condaEnv + "/bin/python",
      "/home/$(whoami)/miniconda3/envs/" + condaEnv + "/bin/python",
      "/opt/conda/envs/" + condaEnv + "/bin/python",
      "/usr/bin/python3" ]
  }

  /** `[ -f path ] && echo path || echo ''` */
  function PathTestCommand(path: string): string {
    "[ -f " + path + " ] && echo " + path + " || echo ''"
  }

  /** Stripped stdout of a command that ran. */
  function OutText(r: ExecResult): string
    requires r.Ran?
  {
    Strip(StdoutOf(r.live + r.drained))
  }

  /** Stripped stderr of a command that ran. */
  function ErrText(r: ExecResult): string
    requires r.Ran?
  {
    Strip(StderrOf(r.live + r.drained))
  }

  /** One lookup command: it wins with a non-empty stdout and an empty stderr;
      the conda lookup instead wins only if activating the environment under
      the base it printed yields a non-empty interpreter path. */
  function LookupStep(run: Executor, cmd: string, condaEnv: string): Probe {
    var r := run(cmd);
    if r.Raised? then Crashed
    else if OutText(r) == "" || ErrText(r) != "" then Missed
    else if !Contains(cmd, "conda info") then Found(OutText(r))
    else
      var r2 := run(ActivationCommand(OutText(r), condaEnv));
      if r2.Raised? then Crashed
      else if OutText(r2) != "" then Found(OutText(r2))
      else Missed
  }

  /** One candidate path: it wins when the test echoes something. */
  function PathStep(run: Executor, path: string): Probe {
    var r := run(PathTestCommand(path));
    if r.Raised? then Crashed
    else if OutText(r) != "" then Found(OutText(r))
    else Missed
  }

  /** The first probe that does not miss decides. */
  function FirstDecided(probes: seq<Probe>): (r: Probe) {
    if probes == [] then Missed
    else if probes[0] != Missed then probes[0]
    else FirstDecided(probes[1..])
  }

  /** `FirstDecided` picks the earliest probe that did not miss, and misses
      only when every probe missed. */
  lemma {:induction false} FirstDecidedIsFirst(probes: seq<Probe>)
    ensures FirstDecided(probes) == Missed <==> forall i :: 0 <= i < |probes| ==> probes[i] == Missed
    ensures FirstDecided(probes) != Missed ==>
      exists i :: 0 <= i < |probes| && probes[i] == FirstDecided(probes)
        && forall j :: 0 <= j < i ==> probes[j] == Missed
  {
    if probes != [] && probes[0] == Missed {
      FirstDecidedIsFirst(probes[1..]);
      if FirstDecided(probes) != Missed {
        var i :| 0 <= i < |probes[1..]| && probes[1..][i] == FirstDecided(probes[1..])
          && forall j :: 0 <= j < i ==> probes[1..][j] == Missed;
        assert probes[i + 1] == FirstDecided(probes);
        forall j | 0 <= j < i + 1 ensures probes[j] == Missed {
          if j > 0 {
            assert probes[j] == probes[1..][j - 1];
          }
        }
      }
      forall i | 0 <= i < |probes| && forall k :: 0 <= k < |probes| ==> probes[k] == Missed
        ensures probes[i] == Missed
      {
      }
      if forall i :: 0 <= i < |probes[1..]| ==> probes[1..][i] == Missed {
        forall i | 0 <= i < |probes| ensures probes[i] == Missed {
          if i > 0 {
            assert probes[i] == probes[1..][i - 1];
          }
        }
      }
    } else if probes != [] {
      assert probes[0] == FirstDecided(probes);
    }
  }

  /** The lookups, one probe per command. */
  function LookupProbes(run: Executor, condaEnv: string): seq<Probe> {
    seq(|LookupCommands|, i requires 0 <= i < |LookupCommands| => LookupStep(run, LookupCommands[i], condaEnv))
  }

  /** The path tests, one probe per candidate. */
  function PathProbes(run: Executor, condaEnv: string): seq<Probe> {
    var paths := CandidatePaths(condaEnv);
    seq(|paths|, i requires 0 <= i < |paths| => PathStep(run, paths[i]))
  }

  /** Searching two lists in a row: the second is consulted only when
      every probe of the first missed. */
  lemma {:induction false} FirstDecidedAppend(a: seq<Probe>, b: seq<Probe>)
    ensures FirstDecided(a + b) == if FirstDecided(a) != Missed then FirstDecided(a) else FirstDecided(b)
  {
    if a == [] {
      assert a + b == b;
    } else {
      assert (a + b)[0] == a[0];
      assert (a + b)[1..] == a[1..] + b;
      FirstDecidedAppend(a[1..], b);
    }
  }

  /** The whole search: the lookups in order, then the candidate paths in
      order; the first probe that finds a path or raises decides. */
  function PythonSearch(run: Executor, condaEnv: string): Probe {
    FirstDecided(LookupProbes(run, condaEnv) + PathProbes(run, condaEnv))
  }

  /** What `get_remote_python_path` returns: the found path, or `python` when
      every probe missed or one raised. */
  function PythonPathResult(connected: bool, run: Executor, condaEnv: string): (r: string)
    ensures connected && PythonSearch(run, condaEnv).Found? ==> r == PythonSearch(run, condaEnv).path
    ensures !connected || !PythonSearch(run, condaEnv).Found? ==> r == DefaultPython
  {
    if !connected then DefaultPython
    else match PythonSearch(run, condaEnv)
      case Found(p) => p
      case _ => DefaultPython
  }

  // ---------------------------------------------------------------------
  // The session owner

  /** `SSHManager`: the one session with the host and the interpreter path
      found on it. */
  class SshManager {
    var client: Option<Client>
    var remotePythonPath: string

    constructor ()
      ensures client == None && remotePythonPath == DefaultPython
    {
      client := None;
      remotePythonPath := DefaultPython;
    }

    /** `connect`: reuses the session when its transport is still active
        (`alive`); otherwise `dial` is the outcome of opening a new one, which
        replaces the old session only when it succeeds. */
    method Connect(alive: bool, dial: Option<Client>) returns (c: Option<Client>)
      modifies this`client
      ensures old(client).Some? && alive ==> c == old(client) && client == old(client)
      ensures !(old(client).Some? && alive) ==> c == dial && client == (if dial.Some? then dial else old(client))
      ensures c.Some? ==> client == c
    {
      if client.Some? && alive {
        return client;
      }
      if dial.Some? {
        client := dial;
      }
      return dial;
    }

    /** `close` */
    method Close()
      modifies this`client
      ensures client == None
    {
      if client.Some? {
        client := None;
      }
    }

    /** `execute_command`: success iff the exit status is 0; the output and the
        error are the chunks of each stream in the order received.
        `realTimeLog` stands for streaming mode (real-time logging requested
        and the logger at DEBUG): each chunk read while the command runs is
        then logged at its level; the chunks drained after exit are not. */
    method ExecuteCommand(command: string, run: Executor, realTimeLog: bool)
      returns (success: bool, output: string, error: string, log: seq<Level>)
      ensures client.None? ==> (success, output, error, log) == (false, "", NoConnection, [])
      ensures client.Some? ==> (output, error, success) == ExecOutcome(run(command))
      ensures client.Some? ==> (success <==> run(command).Ran? && run(command).exitStatus == 0)
      ensures log == (if client.Some? && realTimeLog && run(command).Ran? then ChunkLog(run(command).live) else [])
    {
      if client.None? {
        return false, "", NoConnection, [];
      }
      var r := run(command);
      if r.Raised? {
        return false, "", r.message, [];
      }
      var outputLines, errorLines;
      outputLines, errorLines, log := ReadWhileRunning(r.live, realTimeLog);
      outputLines, errorLines := DrainAfterExit(r.drained, outputLines, errorLines);
      StdoutOfAppend(r.live, r.drained);
      output := Concat(outputLines);
      error := Concat(errorLines);
      success := r.exitStatus == 0;
    }

    /** `list_remote_files`: the names in the `ls -la` listing of `directory`;
        empty without a session, on any stderr output, or on an exception. */
    method ListRemoteFiles(directory: string, run: Executor) returns (files: seq<string>)
      ensures var r := run("ls -la " + directory);
        files == (if client.None? || r.Raised? || StderrOf(r.live + r.drained) != "" then []
                  else ListingNames(ListingBody(StdoutOf(r.live + r.drained))))
    {
      if client.None? {
        return [];
      }
      var r := run("ls -la " + directory);
      if r.Raised? {
        return [];
      }
      var output := StdoutOf(r.live + r.drained);
      var error := StderrOf(r.live + r.drained);
      if error != "" {
        return [];
      }
      files := ParseListing(ListingBody(output));
    }

    /** `check_remote_file_exists` */
    method CheckRemoteFileExists(filepath: string, run: Executor) returns (exists_: bool)
      ensures exists_ <==> client.Some? && run(FileTestCommand(filepath)).Ran?
                           && Strip(StdoutOf(run(FileTestCommand(filepath)).live + run(FileTestCommand(filepath)).drained)) == "exists"
      ensures exists_ == FileExists(client.Some?, run, filepath)
    {
      if client.None? {
        return false;
      }
      var r := run(FileTestCommand(filepath));
      if r.Raised? {
        return false;
      }
      var result := Strip(StdoutOf(r.live + r.drained));
      return result == "exists";
    }

    /** `download_file`: `fetch` tells whether the SFTP transfer of a remote
        path to a local path succeeds. */
    method DownloadFile(remotePath: string, localPath: string, fetch: (string, string) -> bool) returns (ok: bool)
      ensures ok <==> client.Some? && fetch(remotePath, localPath)
    {
      if client.None? {
        return false;
      }
      return fetch(remotePath, localPath);
    }

    /** `remove_remote_file`: `unlink` tells whether the SFTP removal of a
        remote path succeeds. */
    method RemoveRemoteFile(remotePath: string, unlink: string -> bool) returns (ok: bool)
      ensures ok <==> client.Some? && unlink(remotePath)
    {
      if client.None? {
        return false;
      }
      return unlink(remotePath);
    }

    /** `get_remote_python_path`: runs the lookups, then the path tests, in
        order, and returns the first path found, recording it; returns
        `python` without recording anything when there is no session, when
        every probe misses, or when one raises. */
    method GetRemotePythonPath(condaEnv: string, run: Executor) returns (path: string)
      modifies this`remotePythonPath
      ensures path == PythonPathResult(client.Some?, run, condaEnv)
      ensures remotePythonPath == (if client.Some? && PythonSearch(run, condaEnv).Found? then path else old(remotePythonPath))
    {
      if client.None? {
        return DefaultPython;
      }
      FirstDecidedAppend(LookupProbes(run, condaEnv), PathProbes(run, condaEnv));
      var found := TryLookups(condaEnv, run);
      if found.Missed? {
        found := TryPaths(condaEnv, run);
      }
      if found.Found? {
        remotePythonPath := found.path;
        return found.path;
      }
      return DefaultPython;
    }
  }

  /** The polling loop of `execute_command` while the command runs: each
      non-empty chunk is kept with its stream and, with `realTimeLog`, logged
      at its level. */
  method ReadWhileRunning(live: seq<Chunk>, realTimeLog: bool)
    returns (outputLines: seq<string>, errorLines: seq<string>, log: seq<Level>)
    ensures Concat(outputLines) == StdoutOf(live)
    ensures Concat(errorLines) == StderrOf(live)
    ensures log == (if realTimeLog then ChunkLog(live) else [])
  {
    outputLines, errorLines, log := [], [], [];
    var i := 0;
    while i < |live|
      invariant 0 <= i <= |live|
      invariant Concat(outputLines) == StdoutOf(live[..i])
      invariant Concat(errorLines) == StderrOf(live[..i])
      invariant log == (if realTimeLog then ChunkLog(live[..i]) else [])
    {
      var c := live[i];
      assert live[..i + 1] == live[..i] + [c];
      StepChunk(live[..i], c);
      StepLog(live[..i], c);
      if c.data != "" {
        if c.Out? {
          ConcatStep(outputLines, c.data);
          outputLines := outputLines + [c.data];
          if realTimeLog {
            log := log + [StdoutLevel(c.data)];
          }
        } else {
          ConcatStep(errorLines, c.data);
          errorLines := errorLines + [c.data];
          if realTimeLog {
            var l := StderrLevel(c.data);
            if l.Some? {
              log := log + [l.value];
            }
          }
        }
      }
      i := i + 1;
    }
    assert live[..i] == live;
  }

  /** The drain of `execute_command` once the command has exited: the
      remaining chunks are kept with their streams, without logging. */
  method DrainAfterExit(drained: seq<Chunk>, outputLines0: seq<string>, errorLines0: seq<string>)
    returns (outputLines: seq<string>, errorLines: seq<string>)
    ensures Concat(outputLines) == Concat(outputLines0) + StdoutOf(drained)
    ensures Concat(errorLines) == Concat(errorLines0) + StderrOf(drained)
  {
    outputLines, errorLines := outputLines0, errorLines0;
    var j := 0;
    assert Concat(outputLines0) + "" == Concat(outputLines0);
    assert Concat(errorLines0) + "" == Concat(errorLines0);
    while j < |drained|
      invariant 0 <= j <= |drained|
      invariant Concat(outputLines) == Concat(outputLines0) + StdoutOf(drained[..j])
      invariant Concat(errorLines) == Concat(errorLines0) + StderrOf(drained[..j])
    {
      var c := drained[j];
      assert drained[..j + 1] == drained[..j] + [c];
      StepChunk(drained[..j], c);
      if c.data != "" {
        if c.Out? {
          ConcatStep(outputLines, c.data);
          AppendAssoc(Concat(outputLines0), StdoutOf(drained[..j]), c.data);
          outputLines := outputLines + [c.data];
        } else {
          ConcatStep(errorLines, c.data);
          AppendAssoc(Concat(errorLines0), StderrOf(drained[..j]), c.data);
          errorLines := errorLines + [c.data];
        }
      }
      j := j + 1;
    }
    assert drained[..j] == drained;
  }

  /** The parsing loop of `list_remote_files` over the lines after the
      first: every line with at least nine fields names a file, `.` and `..`
      excepted. */
  method ParseListing(lines: seq<string>) returns (files: seq<string>)
    ensures files == ListingNames(lines)
  {
    files := [];
    var i := 0;
    assert lines[0..] == lines;
    while i < |lines|
      invariant 0 <= i <= |lines|
      invariant files + ListingNames(lines[i..]) == ListingNames(lines)
    {
      ghost var rest := ListingNames(lines[i + 1..]);
      assert lines[i..][0] == lines[i] && lines[i..][1..] == lines[i + 1..];
      var parts := Words(lines[i]);
      if |parts| >= 9 {
        var filename := Join(parts[8..], " ");
        if filename != "." && filename != ".." {
          assert ListingNames(lines[i..]) == [filename] + rest;
          AppendAssoc(files, [filename], rest);
          files := files + [filename];
        } else {
          assert ListingNames(lines[i..]) == rest;
        }
      } else {
        assert ListingNames(lines[i..]) == rest;
      }
      i := i + 1;
    }
    assert files + [] == files;
  }

  /** The lookup loop of `get_remote_python_path`. */
  method TryLookups(condaEnv: string, run: Executor) returns (r: Probe)
    ensures r == FirstDecided(LookupProbes(run, condaEnv))
  {
    ghost var probes := LookupProbes(run, condaEnv);
    var i := 0;
    while i < |LookupCommands|
      invariant 0 <= i <= |LookupCommands|
      invariant FirstDecided(probes) == FirstDecided(probes[i..])
    {
      assert probes[i..][1..] == probes[i + 1..];
      var step := RunLookup(LookupCommands[i], condaEnv, run);
      if step != Missed {
        return step;
      }
      i := i + 1;
    }
    assert probes[i..] == [];
    return Missed;
  }

  /** One pass of the lookup loop: run the command, and for the conda
      lookup, the activation. */
  method RunLookup(cmd: string, condaEnv: string, run: Executor) returns (r: Probe)
    ensures r == LookupStep(run, cmd, condaEnv)
  {
    var res := run(cmd);
    if res.Raised? {
      return Crashed;
    }
    var result := OutText(res);
    var error := ErrText(res);
    if result == "" || error != "" {
      return Missed;
    }
    if !Contains(cmd, "conda info") {
      return Found(result);
    }
    var res2 := run(ActivationCommand(result, condaEnv));
    if res2.Raised? {
      return Crashed;
    }
    var pythonPath := OutText(res2);
    if pythonPath != "" {
      return Found(pythonPath);
    }
    return Missed;
  }

  /** The candidate-path loop of `get_remote_python_path`. */
  method TryPaths(condaEnv: string, run: Executor) returns (r: Probe)
    ensures r == FirstDecided(PathProbes(run, condaEnv))
  {
    ghost var probes := PathProbes(run, condaEnv);
    var paths := CandidatePaths(condaEnv);
    var k := 0;
    while k < |paths|
      invariant 0 <= k <= |paths|
      invariant FirstDecided(probes) == FirstDecided(probes[k..])
    {
      assert probes[k] == PathStep(run, paths[k]);
      assert probes[k..][1..] == probes[k + 1..];
      var res := run(PathTestCommand(paths[k]));
      if res.Raised? {
        return Crashed;
      }
      var result := OutText(res);
      if result != "" {
        return Found(result);
      }
      k := k + 1;
    }
    assert probes[k..] == [];
    return Missed;
  }
}
