/** The result cache: a generated clip is stored under a file name derived
    from the request parameters, so that a repeated request finds it again. */
module Cache {
  import opened Wrappers
  import opened Text
  import opened Params
  import Paths

  /** The MD5 hex digest of the JSON text of a key-sorted entry sequence; the
      digest and the JSON encoder are library code and stay abstract. */
  type Digest = Params -> string

  /** Opening and reading a local text file: its text, or `None` when the
      open or the read raises. */
  type FileReader = string -> Option<string>

  /** Prefix used when no parameter yields a readable one. */
  const FallbackPrefix: string := "tts"

  /** Number of characters of text kept in a prefix. */
  const TextPrefixLength: nat := 8

  /** `generate_hash`: the digest of the parameters in key order. */
  function GenerateHash(md5: Digest, p: Params): string {
    md5(SortByKey(p))
  }

  /** The same key/value pairs inserted in another order hash alike. */
  lemma HashOrderIndependent(md5: Digest, p1: Params, p2: Params)
    requires DistinctKeys(p1) && DistinctKeys(p2)
    requires multiset(p1) == multiset(p2)
    ensures GenerateHash(md5, p1) == GenerateHash(md5, p2)
  {
    SortByKeyOrderIndependent(p1, p2);
  }

  /** `s[:n]`, counted in characters. */
  function Take(s: string, n: nat): (r: string)
    ensures |r| == if |s| < n then |s| else n
    ensures StartsWith(s, r)
  {
    if |s| <= n then s else s[..n]
  }

  /** The prefix taken from a prompt-audio name: its extension is dropped and
      the remaining dots become underscores, unless the stem still ends in
      `.wav`. No directory part is removed. */
  function PromptAudioPrefix(promptAudio: string): (r: string)
    ensures |r| == |Paths.Stem(promptAudio)|
    ensures EndsWith(r, ".wav") || forall i :: 0 <= i < |r| ==> r[i] != '.'
  {
    var stem := Paths.Stem(promptAudio);
    if EndsWith(stem, ".wav") then stem else ReplaceChar(stem, '.', '_')
  }

  /** The path a `text_file` parameter is read from. */
  function TextFilePath(name: string): string {
    Paths.Join("text_file", name)
  }

  /** The human-readable part of the cache file name, by priority: a non-empty
      `prompt_audio`, then the stripped content of a non-empty `text_file`,
      then a non-empty `text`, else the fallback (also when the file cannot
      be read). */
  function CachePrefix(p: Params, read: FileReader): (prefix: string)
    ensures !HasValue(p, "prompt_audio") ==> |prefix| <= TextPrefixLength
  {
    if HasValue(p, "prompt_audio") then PromptAudioPrefix(Get(p, "prompt_audio").value)
    else if HasValue(p, "text_file") then
      match read(TextFilePath(Get(p, "text_file").value))
      case Some(content) => Take(Strip(content), TextPrefixLength)
      case None => FallbackPrefix
    else if HasValue(p, "text") then Take(Get(p, "text").value, TextPrefixLength)
    else FallbackPrefix
  }

  /** `CacheManager`: owns the cache directory, fixed at construction. */
  datatype CacheManager = CacheManager(cacheDir: string) {

    /** `get_cache_filename` */
    function CacheFilename(p: Params, hashValue: string, read: FileReader): (name: string)
      ensures EndsWith(name, "_" + hashValue + ".wav")
      ensures StartsWith(name, CachePrefix(p, read))
    {
      var prefix := CachePrefix(p, read);
      var suffix := "_" + hashValue + ".wav";
      AppendEnds(prefix, suffix);
      assert prefix + "_" + hashValue + ".wav" == prefix + suffix;
      prefix + suffix
    }

    /** `get_cache_path`: the file name inside the cache directory; with no
        hash given, the parameters' own hash is used. */
    function CachePath(md5: Digest, p: Params, hashValue: Option<string>, read: FileReader): (path: string)
      ensures EndsWith(path, "_" + hashValue.GetOr(GenerateHash(md5, p)) + ".wav")
    {
      var name := CacheFilename(p, hashValue.GetOr(GenerateHash(md5, p)), read);
      Paths.JoinEnds(cacheDir, name);
      EndsWithTransitive(Paths.Join(cacheDir, name), name, "_" + hashValue.GetOr(GenerateHash(md5, p)) + ".wav");
      Paths.Join(cacheDir, name)
    }

    /** `exists`: the derived path is a file on disk. */
    predicate Exists(files: set<string>, md5: Digest, p: Params, hashValue: Option<string>, read: FileReader) {
      CachePath(md5, p, hashValue, read) in files
    }

    /** Omitting the hash is the same as passing the parameters' own hash. */
    lemma CachePathDefaultHash(md5: Digest, p: Params, read: FileReader)
      ensures CachePath(md5, p, None, read) == CachePath(md5, p, Some(GenerateHash(md5, p)), read)
      ensures CachePath(md5, p, None, read) == Paths.Join(cacheDir, CacheFilename(p, GenerateHash(md5, p), read))
    {
    }

    /** `exists` probes exactly the derived path. */
    lemma ExistsIffPathOnDisk(files: set<string>, md5: Digest, p: Params, read: FileReader)
      ensures Exists(files, md5, p, None, read) <==> Paths.Join(cacheDir, CacheFilename(p, GenerateHash(md5, p), read)) in files
      ensures Exists(files, md5, p, None, read) == Exists(files, md5, p, Some(GenerateHash(md5, p)), read)
    {
    }
  }

  // ---------------------------------------------------------------------
  // Priority of the prefix sources

  /** A non-empty `prompt_audio` decides the prefix alone: `text_file`,
      `text` and the file system are not consulted. */
  lemma PromptAudioFirst(p: Params, q: Params, read: FileReader, read': FileReader)
    requires HasValue(p, "prompt_audio")
    requires Get(q, "prompt_audio") == Get(p, "prompt_audio")
    ensures CachePrefix(p, read) == CachePrefix(q, read') == PromptAudioPrefix(Get(p, "prompt_audio").value)
  {
  }

  /** An empty `prompt_audio` counts as absent. */
  lemma EmptyPromptAudioFallsThrough(p: Params, read: FileReader)
    requires Get(p, "prompt_audio") == Some("")
    ensures CachePrefix(p, read) == CachePrefix(RemoveKey(p, "prompt_audio"), read)
  {
    RemoveKeyGet(p, "prompt_audio");
  }

  /** `p` without the entry for `k`. */
  function RemoveKey(p: Params, k: string): Params {
    if p == [] then []
    else if p[0].key == k then RemoveKey(p[1..], k)
    else [p[0]] + RemoveKey(p[1..], k)
  }

  lemma {:induction false} RemoveKeyGet(p: Params, k: string)
    ensures Get(RemoveKey(p, k), k) == None
    ensures forall k' :: k' != k ==> Get(RemoveKey(p, k), k') == Get(p, k')
  {
    if p != [] {
      RemoveKeyGet(p[1..], k);
    }
  }

  /** Without a prompt audio, a non-empty `text_file` decides the prefix:
      the first eight characters of its stripped content, or the fallback
      when it cannot be read. */
  lemma TextFileSecond(p: Params, read: FileReader)
    requires !HasValue(p, "prompt_audio") && HasValue(p, "text_file")
    ensures var r := read(TextFilePath(Get(p, "text_file").value));
      && (r.None? ==> CachePrefix(p, read) == FallbackPrefix)
      && (r.Some? ==> CachePrefix(p, read) == Take(Strip(r.value), TextPrefixLength))
  {
  }

  /** The text branch keeps the first min(8, |text|) characters of the text. */
  lemma TextPrefix(p: Params, read: FileReader)
    requires !HasValue(p, "prompt_audio") && !HasValue(p, "text_file") && HasValue(p, "text")
    ensures var text := Get(p, "text").value;
      && |CachePrefix(p, read)| == (if |text| < 8 then |text| else 8)
      && StartsWith(text, CachePrefix(p, read))
  {
  }

  /** With no prefix source the fallback name `tts_{hash}.wav` is used. */
  lemma FallbackName(c: CacheManager, p: Params, h: string, read: FileReader)
    requires !HasValue(p, "prompt_audio") && !HasValue(p, "text_file") && !HasValue(p, "text")
    ensures c.CacheFilename(p, h, read) == "tts_" + h + ".wav"
  {
  }

  /** The file name keeps the hash apart: for the same parameters, two
      hashes give the same name only when they are equal. */
  lemma CacheFilenameDeterminesHash(c: CacheManager, p: Params, h1: string, h2: string, read: FileReader)
    requires c.CacheFilename(p, h1, read) == c.CacheFilename(p, h2, read)
    ensures h1 == h2
  {
    var prefix := CachePrefix(p, read);
    assert prefix + ("_" + h1 + ".wav") == prefix + ("_" + h2 + ".wav");
    assert "_" + h1 + ".wav" == ["_"[0]] + (h1 + ".wav");
    assert "_" + h2 + ".wav" == ["_"[0]] + (h2 + ".wav");
    InfixCancel(prefix, ["_"[0]] + (h1 + ".wav"), ["_"[0]] + (h2 + ".wav"), []);
    InfixCancel(["_"[0]], h1, h2, ".wav");
  }

  // ---------------------------------------------------------------------
  // Worked examples

  /** A slash-free name not starting with a dot, followed by an extension,
      gives the prefix computed from that name. */
  lemma PromptAudioPrefixOfName(stem: string, ext: string)
    requires |ext| >= 1 && ext[0] == '.'
    requires forall i :: 1 <= i < |ext| ==> ext[i] != '.' && ext[i] != '/'
    requires |stem| >= 1 && stem[0] != '.'
    requires forall i :: 0 <= i < |stem| ==> stem[i] != '/'
    ensures PromptAudioPrefix(stem + ext) == if EndsWith(stem, ".wav") then stem else ReplaceChar(stem, '.', '_')
  {
    Paths.BasenameNoSlash(stem);
    assert Paths.Basename(stem)[0] != '.';
    Paths.SplitExtOfJoin(stem, ext);
  }

  lemma PromptAudioPlainName()
    ensures PromptAudioPrefix("aria.wav") == "aria"
  {
    PromptAudioPrefixOfName("aria", ".wav");
    assert "aria" + ".wav" == "aria.wav";
    assert !EndsWith("aria", ".wav") by {
      assert "aria"[0] != ".wav"[0];
    }
    assert ReplaceChar("aria", '.', '_') == "aria";
  }

  /** A stem that still ends in `.wav` keeps its dots. */
  lemma PromptAudioDoubleExtension()
    ensures PromptAudioPrefix("x.wav.wav") == "x.wav"
  {
    PromptAudioPrefixOfName("x.wav", ".wav");
    assert "x.wav" + ".wav" == "x.wav.wav";
    assert EndsWith("x.wav", ".wav") by {
      assert "x.wav"[1..] == ".wav";
    }
  }

  /** Inner dots of any other stem become underscores. */
  lemma PromptAudioInnerDots()
    ensures PromptAudioPrefix("a.b.wav") == "a_b"
  {
    PromptAudioPrefixOfName("a.b", ".wav");
    assert "a.b" + ".wav" == "a.b.wav";
    assert !EndsWith("a.b", ".wav");
    assert ReplaceChar("a.b", '.', '_') == "a_b";
  }

  /** A leading dot does not start an extension. */
  lemma PromptAudioLeadingDot()
    ensures PromptAudioPrefix(".hidden") == "_hidden"
  {
    Paths.SplitExtDotFile(".hidden");
    assert ReplaceChar(".hidden", '.', '_') == "_hidden";
  }

  /** Prefixes are counted in characters, so a Chinese text keeps eight
      characters, not eight bytes. */
  lemma TextPrefixExamples()
    ensures Take("Hello, world! extra", 8) == "Hello, w"
    ensures Take("你好，世界！延伸文本", 8) == "你好，世界！延伸"
  {
  }
}
