# TmxFlow-Spark TTS proxy, modelled in Dafny

TmxFlow-Spark is an HTTP proxy in front of a Spark-TTS installation on a
remote GPU host. A `GET /tts` request goes through these steps:

- a three-second duplicate-request gate;
- collection of the allowed query parameters;
- two required-parameter checks;
- filling in `prompt_text` from a local text file.

The request is then handed to a single-worker engine. The engine first
looks the request up in a local result cache, keyed by a readable prefix
and the MD5 of the parameters. On a cache miss it works over SSH:

- it opens a session and discovers the remote Python interpreter;
- it resolves the prompt audio and text file on the host under their
  allowed extensions;
- it runs the generation command and finds the produced clip in the
  command's output;
- it downloads the clip into the cache and removes it from the host.

A separate legacy entry point streams raw PCM from a local backend. It
puts a RIFF/WAVE header in front of the audio and caches the assembled
file under a `name|text` key.

The Dafny modules follow the repository's files:

| module | file | models |
|---|---|---|
| `Cache` | `cache.dfy` | `core/cache.py`: the hash, the cache file name and its priority of prefix sources, the cache path, the existence test |
| `Ssh` | `ssh_manager.dfy` | `core/ssh_manager.py`: the session (`class SshManager`), command execution with stream splitting and severity levels, the `ls -la` parser, the remote file test, interpreter discovery |
| `Engine` | `tts_engine.dfy` | `core/tts_engine.py`: command building, remote file resolution, output-marker search, a task as a value (`TaskOutcome`), and the engine itself (`class TtsEngine`: queue, worker step, submission) |
| `Routes` | `routes.dfy` | `api/routes.py`: the `/tts` handler (`class App`) with its gate, collection, validation, prompt-text resolution and response, and `/api/files` |
| `LegacyProxy` | `legacy_proxy.dfy` | `main.py`: `create_wav_header` with a parser and round trip, the cache key, the defaults, the stream generator and the handler |
| `Params`, `Paths`, `Text`, `Wrappers` | | Python `dict` with key order, `os.path`, `str` methods, `Option` |

Everything outside the process is a parameter:

- the remote host is an `Executor` from a command to the chunks it printed
  and its exit status, or the exception raised;
- the local file system is a `LocalFs` of functions, or a set of paths
  for the cache directory;
- MD5 with its JSON encoding (`Digest`), `urllib.parse.unquote`, SFTP
  transfer and removal, and `float`/`int` parsing are all functions passed
  in.

## Model

| member | source | states |
|---|---|---|
| `Cache.GenerateHash` | core/cache.py:21-33 | the digest of the parameters in key order (JSON with `sort_keys`); see `HashOrderIndependent` |
| `Cache.HashOrderIndependent` | core/cache.py:30-31 | two dicts holding the same entries in any insertion order hash alike |
| `Params.SortByKeyOrderIndependent` | core/cache.py:30 | sorting by key forgets insertion order: equal entry multisets with distinct keys sort to the same sequence |
| `Params.SortByKeySorted` | core/cache.py:30 | the sorted entries are strictly increasing by key under Python's code-point order |
| `Params.SortByKey` | core/cache.py:30 | the sorted entries are a permutation of the dict's entries |
| `Cache.Take` | core/cache.py:57 | `s[:8]` keeps min(8, len) characters and is a prefix of `s` |
| `Cache.PromptAudioPrefix` | core/cache.py:45-48 | the prefix has the stem's length, and contains no dot unless the stem still ends in `.wav` |
| `Cache.CacheFilename` | core/cache.py:35-71 | the name starts with the prefix chosen by priority and ends in `_{hash}.wav` |
| `Cache.CacheFilenameDeterminesHash` | core/cache.py:49-68 | for the same parameters, equal cache names imply equal hashes |
| `Cache.PromptAudioFirst` | core/cache.py:45-49 | a non-empty `prompt_audio` alone decides the prefix; `text_file`, `text` and the file system are not consulted |
| `Cache.EmptyPromptAudioFallsThrough` | core/cache.py:45 | an empty `prompt_audio` counts as absent |
| `Cache.TextFileSecond` | core/cache.py:50-62 | next a non-empty `text_file` decides: eight characters of its stripped content, or `tts` when the read fails |
| `Cache.TextPrefix` | core/cache.py:63-66 | next a non-empty `text` decides: its first min(8, len) characters |
| `Cache.FallbackName` | core/cache.py:67-68 | with no prefix source the name is `tts_{hash}.wav` |
| `Cache.RemoveKeyGet` | core/cache.py:45 | removing a key hides it and no other key |
| `Cache.PromptAudioPlainName` | core/cache.py:46-48 | `aria.wav` gives prefix `aria` |
| `Cache.PromptAudioDoubleExtension` | core/cache.py:46-48 | `x.wav.wav` keeps its inner dot: prefix `x.wav` |
| `Cache.PromptAudioInnerDots` | core/cache.py:46-48 | `a.b.wav` gives `a_b` |
| `Cache.PromptAudioLeadingDot` | core/cache.py:46-48 | `.hidden` has no extension and gives `_hidden` |
| `Cache.TextPrefixExamples` | core/cache.py:63-66 | the prefix counts characters, so Chinese text keeps eight characters |
| `Cache.CachePrefix` | core/cache.py:45-68 | a prefix not taken from `prompt_audio` has at most eight characters; the priority is stated by the lemmas below |
| `Cache.CacheManager.CachePath` | core/cache.py:73-89 | the path ends in `_{hash}.wav`, with the parameters' own hash when none is given |
| `Cache.CacheManager.Exists` | core/cache.py:91-107 | the derived path is on disk; stated by `ExistsIffPathOnDisk` |
| `Cache.CacheManager.CachePathDefaultHash` | core/cache.py:73-89 | omitting the hash is the same as passing the parameters' own hash |
| `Cache.CacheManager.ExistsIffPathOnDisk` | core/cache.py:91-107 | `exists` is true exactly when the derived path is on disk, with or without an explicit hash |
| `Paths.SplitExt` | core/cache.py:46 | `os.path.splitext`: the parts concatenate to the path; the extension is empty or a dot followed by neither dots nor slashes |
| `Paths.SplitExtOfJoin` | core/tts_engine.py:228-241 | splitting `stem + ext` returns both, unless the stem's last component is all dots |
| `Paths.SplitExtDotFile` | core/tts_engine.py:230 | a dot-file name such as `.bashrc` has no extension |
| `Paths.JoinEnds` | core/cache.py:87 | `os.path.join(a, b)` ends with `b`, and starts with `a` unless `b` is absolute |
| `Paths.Basename` | core/tts_engine.py:228 | `os.path.basename` is a slash-free suffix of the path |
| `Params.Get` | core/tts_engine.py:123-126 | `dict.get` finds a value exactly when the key is present, and the entry is in the dict |
| `Params.SetSpec` | core/tts_engine.py:133 | `p[k] = v` maps `k` to `v` and leaves every other key; an existing key keeps its place, a new one goes last |
| `Ssh.SshManager.constructor` | core/ssh_manager.py:17-25 | no session; interpreter `python` |
| `Ssh.SshManager.Connect` | core/ssh_manager.py:27-59 | a live session is reused; otherwise a successful dial replaces it and a failed one returns `None` and keeps the old session |
| `Ssh.SshManager.Close` | core/ssh_manager.py:61-66 | no session afterwards |
| `Ssh.SshManager.ExecuteCommand` | core/ssh_manager.py:222-327 | success iff exit status 0; output and error are the chunks of each stream in order, live then drained; without a session `(False, "", "未建立SSH连接")`; an exception gives `(False, "", message)`; the real-time log has one record per non-empty live chunk |
| `Ssh.ReadWhileRunning` | core/ssh_manager.py:249-279 | the polling loop keeps every non-empty chunk with its stream and logs it at its level |
| `Ssh.DrainAfterExit` | core/ssh_manager.py:280-296 | the drain appends the remaining chunks of each stream, without logging |
| `Ssh.StdoutOfAppend` | core/ssh_manager.py:280-296 | a stream's text over two runs of chunks is the text of each, one after the other |
| `Ssh.StdoutLevel` | core/ssh_manager.py:256-265 | a stdout chunk is logged as INFO iff it mentions INFO, else WARNING iff it mentions WARN, else ERROR iff ERROR or CRITICAL, else DEBUG or plain |
| `Ssh.StderrLevel` | core/ssh_manager.py:268-278 | a blank stderr chunk is not logged; otherwise WARNING iff it mentions WARN, else ERROR |
| `Ssh.WarnSubsumesWarning` | core/ssh_manager.py:258 | the `WARNING` test is subsumed by the `WARN` test |
| `Ssh.InfoBeatsError` | core/ssh_manager.py:256-261 | a chunk mentioning both INFO and ERROR is logged as INFO |
| `Ssh.ChunkLogAppend` | core/ssh_manager.py:249-279 | the log over two runs of chunks is the log of each in order |
| `Ssh.SshManager.ListRemoteFiles` | core/ssh_manager.py:147-188 | the names parsed from the `ls -la` output after its first line; empty without a session, on any stderr, or on an exception |
| `Ssh.ParseListing` | core/ssh_manager.py:177-185 | the parsing loop yields exactly `ListingNames` of the lines |
| `Ssh.ListingNames` | core/ssh_manager.py:177-185 | at most one name per line, never `.` or `..` |
| `Ssh.ListingNameOfLine` | core/ssh_manager.py:179-183 | a line of eight metadata fields and a name of whitespace-free words yields that name, joined by single spaces |
| `Ssh.SshManager.CheckRemoteFileExists` | core/ssh_manager.py:190-220 | true iff there is a session, the test ran, and its stripped stdout is exactly `exists` |
| `Ssh.NotExistsIsNegative` | core/ssh_manager.py:204-217 | the answer `not exists`, which contains `exists`, is negative |
| `Ssh.SshManager.DownloadFile` | core/ssh_manager.py:330-353 | true iff there is a session and the SFTP transfer succeeds |
| `Ssh.SshManager.RemoveRemoteFile` | core/ssh_manager.py:355-377 | true iff there is a session and the SFTP removal succeeds |
| `Ssh.SshManager.GetRemotePythonPath` | core/ssh_manager.py:68-145 | returns the first path found by the lookups, then the path tests, and records it; returns `python` and records nothing without a session, when every probe misses, or when one raises |
| `Ssh.PythonPathResult` | core/ssh_manager.py:77-145 | the found path when connected and the search found one; `python` otherwise |
| `Ssh.FirstDecidedIsFirst` | core/ssh_manager.py:92-138 | the search decides on the earliest probe that did not miss, and misses only when all missed |
| `Ssh.FirstDecidedAppend` | core/ssh_manager.py:92-138 | the candidate paths are consulted only when every lookup missed |
| `Ssh.TryLookups` | core/ssh_manager.py:92-120 | the lookup loop returns the first decided lookup probe |
| `Ssh.RunLookup` | core/ssh_manager.py:93-120 | one lookup: non-empty stdout and empty stderr win; the conda lookup wins only if activation prints a path |
| `Ssh.TryPaths` | core/ssh_manager.py:130-138 | the candidate loop returns the first decided path probe |
| `Engine.TtsEngine.BuildTtsCommand` | core/tts_engine.py:63-87 | the command is `cd {workdir}; {python} {command}` followed by one fragment per non-empty parameter, in dict order |
| `Engine.ArgumentsAppend` | core/tts_engine.py:74-84 | fragments follow the parameters' order |
| `Engine.EmptyValuesOmitted` | core/tts_engine.py:75 | parameters with empty values add nothing |
| `Engine.CommandExample` | core/tts_engine.py:77-84 | `text` is double-quoted, `pitch` is not |
| `Engine.UnquotedValueSplits` | core/tts_engine.py:83-84 | an unquoted value containing ` --speed 4` reads as a second parameter |
| `Engine.ResolveRemoteFile` | core/tts_engine.py:210-259 | `_check_remote_file_exists` as a value; stated by `ProbeExtensionsFirst`, `ResolvedShape` and `EmptyValueUnresolved` |
| `Engine.TtsEngine.CheckRemoteFile` | core/tts_engine.py:210-259 | the file resolves to `remote_dir/name` as given, or the first allowed extension of its stem on the host; an empty value never resolves |
| `Engine.TtsEngine.TryExtensions` | core/tts_engine.py:249-259 | the extension loop returns the first extension present, or nothing |
| `Engine.ProbeExtensionsFirst` | core/tts_engine.py:249-259 | the probe finds the earliest extension on the host, and nothing only when none is there |
| `Engine.ResolvedShape` | core/tts_engine.py:240-255 | a resolved path lies under the remote directory, ends in an allowed extension and names a file on the host |
| `Engine.EmptyValueUnresolved` | core/tts_engine.py:224-225 | an empty value is not resolved |
| `Engine.ResolveExample` | core/tts_engine.py:248-255 | `voice` with only `voice.mp3` present resolves to `audio/voice.mp3` |
| `Engine.MarkerMatch` | core/tts_engine.py:159-160 | `re.search(r"Generated audio file: (.+)")`; stated by `MarkerMatchLeftmost` and `LineRest` |
| `Engine.OutputFile` | core/tts_engine.py:159-164 | the stripped group of the marker match, or nothing without one |
| `Engine.LineRest` | core/tts_engine.py:159 | `(.+)` captures up to, and not including, the first newline |
| `Engine.MarkerMatchLeftmost` | core/tts_engine.py:159-164 | the marker search returns the rest of the line after the leftmost match, and nothing only when there is no match |
| `Engine.MarkerExample` | core/tts_engine.py:159-164 | a marker at the start of the output is found |
| `Engine.RemoteOutputPath` | core/tts_engine.py:165-167 | an absolute output file is kept; a relative one is put under the working directory |
| `Engine.TaskOutcome` | core/tts_engine.py:89-182 | `process_tts_task` as a value: the host is contacted exactly on a cache miss, and a miss connects first; see `TaskResultIsCachePath`, `RemoveOnlyAfterDownload` and `RepeatIsCacheHit` |
| `Engine.TtsEngine.ProcessTask` | core/tts_engine.py:89-182 | the result, the remote operations, the new disk and the session state are those of `TaskOutcome` from the starting state |
| `Engine.TtsEngine.OpenSession` | core/tts_engine.py:106-116 | connected iff the session is alive or a dial succeeds; the interpreter is looked up only while it is still `python` |
| `Engine.TtsEngine.ResolveTaskFiles` | core/tts_engine.py:122-146 | the prompt audio, then the text file, each rewritten to its resolved path; `None` when a present one does not resolve |
| `Engine.TtsEngine.RunTask` | core/tts_engine.py:148-178 | run, find the marker, download into the cache path, remove the remote file; each failure yields `None` |
| `Engine.TtsEngine.Generate` | core/tts_engine.py:122-178 | file resolution, then running and fetching |
| `Engine.GenerationCalls` | core/tts_engine.py:148-178 | a successful generation downloads to the cache path and removes that same remote file; a failing one removes nothing |
| `Engine.CacheHitSkipsBridge` | core/tts_engine.py:99-104 | a cached clip is returned with no remote operation |
| `Engine.TaskResultIsCachePath` | core/tts_engine.py:99-178 | a task yields the cache path or nothing; a generated clip was downloaded there before being removed from the host |
| `Engine.RemoveOnlyAfterDownload` | core/tts_engine.py:171-176 | a remote file is removed only right after a successful download of it, and only by a successful task |
| `Engine.MissingMarkerFails` | core/tts_engine.py:148-162 | once the files resolve, a TTS command that exits with 0 but prints no marker ends the TTS task with nothing, after that one command and no download or removal, whatever the file probes did |
| `Engine.UnresolvedPromptAudioFails` | core/tts_engine.py:123-131 | an unresolvable prompt audio fails the TTS task before the TTS command runs: no command, download or removal follows |
| `Engine.RepeatIsCacheHit` | core/tts_engine.py:99-104 | once a task has stored its clip, the same request is a cache hit whatever the session state |
| `Engine.TtsEngine.constructor` | core/tts_engine.py:14-32 | empty queue, no active task, no session, interpreter `python` |
| `Engine.TtsEngine.Submit` | core/tts_engine.py:184-208 | a cache hit sets a fresh event to the cache path and queues nothing; a miss appends the TTS task with an unset event at the back |
| `Engine.TtsEngine.WorkerStep` | core/tts_engine.py:40-61 | takes the oldest task, stores `TaskOutcome`'s result in its event and sets it once; the disk gains exactly that result; the session and interpreter become `TaskClient` and `TaskPython` of the task; the active count returns to its value; the queue keeps its invariant |
| `Engine.ResultEvent.constructor` | core/tts_engine.py:261-265 | an unset event with no result |
| `Engine.ResultEvent.Set` | core/tts_engine.py:60 | the event is set and keeps its result |
| `Routes.App.constructor` | api/routes.py:15-43 | the configured allowed parameters or the eight defaults; an empty request cache |
| `Routes.App.TtsProxy` | api/routes.py:97-184 | a repeat within 3 s is refused with 429, a missing text or voice with 400, and neither changes the queue, the disk or the session; otherwise the request is recorded; the disk only grows and a sent file is on it; an accepted request on an idle engine is answered from `TaskOutcome`, and leaves the disk with that result added and the session and interpreter of that task |
| `Routes.DedupKey` | api/routes.py:101-102 | the fingerprint is sorted by name and answers every lookup with the argument's first value, which determines it |
| `Routes.Live` | api/routes.py:104-110 | a fingerprint blocks while it is in the request cache and younger than 3 s |
| `Routes.DedupKeySameIff` | api/routes.py:101-102 | two requests share a fingerprint exactly when every argument has the same first value in both, whatever the order and the later values of a repeated argument |
| `Routes.RepeatedArgumentFirstValue` | api/routes.py:101 | `text=a&gender=m&text=b` and `gender=m&text=a&text=c` have the same fingerprint |
| `Routes.RepeatBlockedWithinTtl` | api/routes.py:101-110 | a request recorded at `t1` blocks every request with the same first values, in any order, exactly until `t1 + 3` |
| `Params.FirstPerKey` | api/routes.py:101 | `items(multi=False)` holds each name once |
| `Params.FirstPerKeyGet` | api/routes.py:101 | keeping the first value per name answers every lookup as the whole query string does |
| `Routes.App.CollectParams` | api/routes.py:112-119 | the collection loop computes `Collected` |
| `Routes.CollectedSpec` | api/routes.py:112-119 | exactly the allowed names with non-empty values are collected, each URL-decoded |
| `Routes.App.Decide` | api/routes.py:112-173 | collection, validation and prompt-text resolution together give `Prepare` |
| `Routes.Prepare` | api/routes.py:112-173 | collection, the two checks and resolution as a value; stated by `PrepareSpec` |
| `Routes.PrepareSpec` | api/routes.py:124-132 | a request is refused for a missing text before a missing voice, and accepted iff it has both |
| `Routes.AcceptedHasTextAndVoice` | api/routes.py:124-173 | the submitted parameters keep the text and voice that passed validation |
| `Routes.AutoFill` | api/routes.py:134-173 | the prompt-text resolution as a value; stated by `AutoFillOnlyPromptText` and `PlainPromptTextKept` |
| `Routes.PlainPromptTextKept` | api/routes.py:159-163 | a `prompt_text` not ending in `.txt` is passed on unchanged |
| `Routes.App.ResolvePromptText` | api/routes.py:134-173 | the prompt-text branch computes `AutoFill` |
| `Routes.App.FindPromptText` | api/routes.py:144-157 | the directory scan returns the text of the first readable namesake of the prompt audio |
| `Routes.FirstMatch` | api/routes.py:146-155 | the first listed, readable file whose stem is the prompt audio's stem; none before it qualifies |
| `Routes.AutoFillOnlyPromptText` | api/routes.py:134-173 | resolution changes `prompt_text` only, and only to the text of a file |
| `Routes.App.Serve` | api/routes.py:175-184 | the disk only grows, a sent file is on it, and every refusal is a 500; on an idle engine the answer is `Respond` of the request's own `TaskOutcome`, the disk gains exactly its result, and the session and interpreter are those the task leaves |
| `Routes.App.WaitFor` | api/routes.py:176-177 | the worker serves the queue oldest-first until the request's event is set; the disk only grows and holds the request's result; on an idle engine the result, the disk, the session and the interpreter are those of the request's own task |
| `Routes.Respond` | api/routes.py:179-184 | a truthy result is sent as the file; anything else is a 500 |
| `Routes.RespondToOutcome` | api/routes.py:175-184 | a task's answer is the cache file exactly when the TTS task produced it, else a 500 |
| `Routes.OnlyFiles` | api/routes.py:88-89 | the listing keeps exactly the names that are regular files |
| `Routes.ListFiles` | api/routes.py:73-95 | `list_files` as a value; stated by `ListFilesSpec` |
| `Routes.ListFilesSpec` | api/routes.py:73-95 | only the three file types are listed (else 400); a missing directory, and only that, is a 404; the list holds files of the directory |
| `LegacyProxy.CreateWavHeader` | main.py:69-89 | a 44-byte header exactly when every field fits its `struct` width |
| `LegacyProxy.HeaderRoundTrip` | main.py:69-89 | the header reads back as RIFF size `data_size + 36`, PCM, the channels, rate, derived byte rate and block align, bits and data size |
| `LegacyProxy.DefaultFormat` | main.py:69-72 | the defaults give byte rate 32000 and block align 2 |
| `LegacyProxy.HeaderLayout` | main.py:74-89 | the tags `RIFF`, `WAVE`, `fmt ` and `data` sit at bytes 0, 8, 12 and 36 |
| `LegacyProxy.OversizedDataRefused` | main.py:77 | a data size that overflows the 32-bit RIFF size is refused |
| `LegacyProxy.LittleEndianRoundTrip` | main.py:75 | little-endian encoding of an in-range integer decodes back to it |
| `LegacyProxy.U32RoundTrip` | main.py:75 | the `I` field round-trips |
| `LegacyProxy.U16RoundTrip` | main.py:75 | the `H` field round-trips |
| `LegacyProxy.RiffDescriptorRoundTrip` | main.py:76-78 | the RIFF descriptor round-trips |
| `LegacyProxy.FmtChunkRoundTrip` | main.py:79-86 | the `fmt ` chunk round-trips |
| `LegacyProxy.DataHeaderRoundTrip` | main.py:87-88 | the `data` head round-trips |
| `LegacyProxy.ValidateAudioData` | main.py:109-116 | false exactly for empty data |
| `LegacyProxy.Defaults` | main.py:126-133 | the six fields with their defaults; stated by `DefaultsSpec` |
| `LegacyProxy.DefaultsSpec` | main.py:125-133 | each field is the decoded argument, or its default when missing |
| `LegacyProxy.UnquotedGet` | main.py:125 | decoding keeps the keys and decodes each value |
| `LegacyProxy.SamplingParamsIgnored` | main.py:63-67 | requests agreeing on `name` and `text` share a cache file whatever their sampling parameters |
| `LegacyProxy.HashKey` | main.py:63-67 | the hashed text is `name|text`; see `SamplingParamsIgnored` and `KeyAmbiguousNameKept` |
| `LegacyProxy.CacheName` | main.py:140-141 | the file name is the name, `_`, the digest of the key and `.wav`; see `NameSeparatesCacheFiles` |
| `LegacyProxy.NameSeparatesCacheFiles` | main.py:140-141 | requests with the same key but different names get different cache names and cache paths, whatever the digest |
| `LegacyProxy.KeyAmbiguousNameKept` | main.py:63-67 | `a|b` + `c` and `a` + `b|c` share the key `a|b|c`, yet get different cache paths for every digest |
| `LegacyProxy.NonEmpty` | main.py:194 | only non-empty chunks are kept |
| `LegacyProxy.GenerateStream` | main.py:174-223 | yields the zero-size header before the first non-empty chunk and then every such chunk; hands the saved file to the cache writer |
| `LegacyProxy.StreamBytes` | main.py:190-207 | the client receives the header and then every byte, or nothing for an empty stream |
| `LegacyProxy.SavedFileWhen` | main.py:209-221 | a file is cached iff the stream completed with audio of a representable size |
| `LegacyProxy.SavedFileSpec` | main.py:199-221 | the cached file is the header for the audio's size followed by the audio; the client got the zero-size header followed by the same audio |
| `LegacyProxy.SavedFileLayout` | main.py:219 | the cached file reads back as a 16 kHz 16-bit mono PCM header announcing the audio's size, followed by the audio |
| `LegacyProxy.StreamTail` | main.py:199-207 | past the 44 header bytes the client receives exactly the audio |
| `LegacyProxy.ConcatNonEmpty` | main.py:214 | dropping empty chunks does not change the audio |
| `LegacyProxy.TtsProxy` | main.py:118-237 | the handler as a value: cache hit, refused conversion, or stream with the file to save; stated by `ProxyCaches`, `StreamBytes` and the `SavedFile` lemmas |
| `LegacyProxy.ProxyCaches` | main.py:118-237 | a cached request is answered from the cache; otherwise a complete stream is saved to the request's cache path, so the next identical request is a hit |

## Left out

- Network and SSH I/O are left out: paramiko, SFTP, sockets and httpx. Each is a function parameter, and their timeouts and exception types collapse into `Raised`/`None`.
- `execute_command` reads the channel in a polling loop with sleeps. The model takes the chunks as delivered; partial UTF-8 decoding is not modelled.
- `Ssh.SshManager.ExecuteCommand`: the real-time logging branch is a flag, because it depends on the logger's level. The log's message text and time stamps are left out; only levels are modelled.
- Threads, `queue.Queue` blocking, the queue lock and `Event.wait` are left out. Waiting is modelled by running the single worker until the request's own task is served, so concurrent callers and interleavings are not captured.
- `Routes.App.TtsProxy` and `Routes.App.Serve` state the answer, the new disk and the session only for a request arriving at an idle engine. With tasks already queued, earlier tasks may fill the cache and change the session first; then the model states only that the disk grows and that a sent file is on it.
- `Routes.App.WaitFor` runs tasks queued before the request. Their results go to their own events; their effect on the disk is stated only as growth, and their effect on the session is not described.
- `Engine.TtsEngine.WorkerStep`, `Engine.TtsEngine.ProcessTask` and `Engine.TtsEngine.RunTask`: a failed download is modelled as leaving the cache unchanged. SFTP `get` opens the local file before it reads the remote one, so a failed or cut-off transfer can leave an empty or partial file at the cache path. The next identical request would then be a cache hit on that file. The model's disk gains the cache path only when the transfer succeeds.
- `Engine.TtsEngine.WorkerStep` has no exception path. `process_tts_task` catches every exception itself, so in the model its result is always stored. The outer `except` in `_worker` (tts_engine.py:52-54) never fires.
- The debug `list_remote_files` calls inside `process_tts_task`, `_check_remote_file_exists` and `SshManager.check_remote_file_exists` (core/ssh_manager.py:214) are left out, because their results are only logged.
- `cachetools.TTLCache` eviction by size (1024 entries, LRU) is left out. The model keeps every fingerprint and honours only the 3-second TTL.
- MD5, `json.dumps` and `urllib.parse.unquote` are abstract functions. The hash is assumed to depend only on the key-sorted entries.
- `str.lower()` is modelled as ASCII lower-casing. Unicode case mapping is left out.
- Flask routing, CORS, `send_file`, JSON bodies and error handlers are left out. So are the `/config`, `/api/config`, `/` and `/allowed_params` handlers, which only echo configuration.
- `list_files`' exception path (status 500) is left out, because the file-system functions are total.
- `show_welcome`, the loggers and `utils/helpers.py` `load_config` are left out. `read_text_file` is modelled as a strip of what the reader returns.
- `main.py`'s per-file `cache_locks` and its double-checked lookup are left out. Without concurrency the second check repeats the first.
- `main.py`'s `ThreadPoolExecutor` write is left out. `LegacyProxy.TtsProxy` returns the file handed to `async_save_cache`; the write and its failures are not modelled.
- `float(...)` and `int(...)` on the sampling parameters are abstract predicates (`Conversions`). A failed conversion gives no response.
- The HTTP status of the backend stream is folded into the chunks and `completed`. A `raise_for_status` failure is an empty, incomplete stream.
