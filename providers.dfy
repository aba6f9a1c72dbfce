/** The `Provider` protocol: one value per supported assistant, with the
    operations the sync service calls dispatched to the provider modules. */
module Providers {
  import opened Wrappers
  import opened Sessions
  import opened FileSystem
  import opened ProviderTypes
  import JsonLines
  import ClaudeProviders
  import GeminiProviders
  import CodexProviders

  /** The decoders of all three formats. */
  datatype Codec = Codec(
    claude: ClaudeProviders.ClaudeCodec,
    gemini: GeminiProviders.GeminiCodec,
    codex: CodexProviders.CodexCodec)

  /** A registered provider. Claude Code and Gemini CLI providers are objects
      with state; the Codex provider has none. */
  datatype AnyProvider =
    | ClaudeP(claude: ClaudeProviders.ClaudeProvider)
    | GeminiP(gemini: GeminiProviders.GeminiProvider)
    | CodexP
  {
    function Type(): ProviderType {
      match this
      case ClaudeP(_) => Claude
      case GeminiP(_) => Gemini
      case CodexP => Codex
    }

    /** The protocol extension's defaults. */
    function DisplayName(): string {
      ProviderTypes.DisplayName(Type())
    }

    function DefaultPath(): string {
      ProviderTypes.DefaultPath(Type())
    }

    /** The objects the provider's operations may change. */
    function Objects(): set<object> {
      match this
      case ClaudeP(c) => {c}
      case GeminiP(g) => {g}
      case CodexP => {}
    }

    /** The provider's caches agree with the disk snapshot. */
    ghost predicate Coherent(fs: Fs, codec: Codec)
      reads Objects()
    {
      ClaudeP? ==> claude.Coherent(fs, codec.claude)
    }
  }

  /** What `findSessionFiles` returns for each provider type. */
  function FindSpec(t: ProviderType, fs: Fs, basePath: string, cutoff: Time): Result<seq<SessionFile>, FsError> {
    match t
    case Claude => ClaudeProviders.FindSpec(fs, basePath, cutoff)
    case Gemini => GeminiProviders.FindSpec(fs, basePath, cutoff)
    case Codex => CodexProviders.FindSpec(fs, basePath, cutoff)
  }

  function ParseSpec(t: ProviderType, fs: Fs, file: SessionFile, afterLine: nat, since: Option<Time>, codec: Codec): ParseResult {
    match t
    case Claude => ClaudeProviders.ParseSpec(fs, file, afterLine, since, codec.claude)
    case Gemini => GeminiProviders.ParseSpec(fs, file, afterLine, since, codec.gemini)
    case Codex => CodexProviders.ParseSpec(fs, file, afterLine, since, codec.codex)
  }

  function NameSpec(t: ProviderType, fs: Fs, file: SessionFile, codec: Codec): string {
    match t
    case Claude =>
      ClaudeProviders.ProjectNameFrom(ClaudeProviders.IndexSpec(fs, ClaudeProviders.IndexPath(file.path), codec.claude), file.path)
    case Gemini => GeminiProviders.ResolveProjectName(file)
    case Codex => CodexProviders.ResolveProjectName(fs, file, codec.codex)
  }

  function MetadataSpec(t: ProviderType, fs: Fs, file: SessionFile, codec: Codec): SessionMetadata {
    match t
    case Claude =>
      ClaudeProviders.MetadataFrom(ClaudeProviders.IndexSpec(fs, ClaudeProviders.IndexPath(file.path), codec.claude), file.path)
    case Gemini => GeminiProviders.ResolveMetadata(fs, file, codec.gemini)
    case Codex => CodexProviders.ResolveMetadata(fs, file, codec.codex)
  }

  /** The cursor contract every provider keeps: a file that cannot be opened
      leaves the cursor where it was, and messages come only with progress. */
  lemma ParseContract(t: ProviderType, fs: Fs, file: SessionFile, afterLine: nat, since: Option<Time>, codec: Codec)
    ensures Advances(ParseSpec(t, fs, file, afterLine, since, codec), afterLine)
    ensures file.path !in fs.files ==> ParseSpec(t, fs, file, afterLine, since, codec) == ParseResult([], afterLine)
  {
    match t
    case Claude =>
      JsonLines.ParseCursor(ReadText(fs, file.path), afterLine, ClaudeProviders.LineFn(since, codec.claude));
    case Gemini =>
      GeminiProviders.ParseCursor(fs, file, afterLine, since, codec.gemini);
    case Codex =>
      JsonLines.ParseCursor(ReadText(fs, file.path), afterLine, CodexProviders.LineFn(since, codec.codex));
  }

  /** Parsing again from the cursor a parse reached finds nothing new and
      keeps the cursor: no message is ever emitted twice. */
  lemma ParseSettled(t: ProviderType, fs: Fs, file: SessionFile, afterLine: nat, since: Option<Time>, codec: Codec)
    ensures var r := ParseSpec(t, fs, file, afterLine, since, codec);
            ParseSpec(t, fs, file, r.totalLines, since, codec) == ParseResult([], r.totalLines)
  {
    match t
    case Claude =>
      var f := ClaudeProviders.LineFn(since, codec.claude);
      var r := JsonLines.Parse(ReadText(fs, file.path), afterLine, f);
      JsonLines.ParseCursor(ReadText(fs, file.path), afterLine, f);
      JsonLines.ParseCursor(ReadText(fs, file.path), r.totalLines, f);
    case Gemini =>
    case Codex =>
      var f := CodexProviders.LineFn(since, codec.codex);
      var r := JsonLines.Parse(ReadText(fs, file.path), afterLine, f);
      JsonLines.ParseCursor(ReadText(fs, file.path), afterLine, f);
      JsonLines.ParseCursor(ReadText(fs, file.path), r.totalLines, f);
  }

  /** Every provider returns only files modified inside the age window, and
      nothing when its base path does not exist. */
  lemma FindContract(t: ProviderType, fs: Fs, basePath: string, cutoff: Time)
    ensures var r := FindSpec(t, fs, basePath, cutoff);
            r.Success? ==> forall f :: f in r.value ==> f.modificationDate >= cutoff
    ensures basePath !in fs.trees ==> FindSpec(t, fs, basePath, cutoff) == Success([])
  {
    match t
    case Claude => ClaudeProviders.FindRecent(fs, basePath, cutoff);
    case Gemini => GeminiProviders.FindShape(fs, basePath, cutoff);
    case Codex => CodexProviders.FindShape(fs, basePath, cutoff);
  }

  method ClearCache(p: AnyProvider)
    modifies p.Objects()
    ensures forall fs, codec :: p.Coherent(fs, codec)
  {
    match p
    case ClaudeP(c) => c.ClearCache();
    case GeminiP(g) => g.ClearCache();
    case CodexP =>
  }

  method FindSessionFiles(p: AnyProvider, fs: Fs, basePath: string, maxAge: int, now: Time)
    returns (r: Result<seq<SessionFile>, FsError>)
    ensures r == FindSpec(p.Type(), fs, basePath, now - maxAge)
  {
    match p
    case ClaudeP(_) => r := ClaudeProviders.FindSessionFiles(fs, basePath, maxAge, now);
    case GeminiP(_) => r := GeminiProviders.FindSessionFiles(fs, basePath, maxAge, now);
    case CodexP => r := CodexProviders.FindSessionFiles(fs, basePath, maxAge, now);
  }

  method ParseMessages(p: AnyProvider, fs: Fs, file: SessionFile, afterLine: nat, since: Option<Time>, codec: Codec)
    returns (r: ParseResult)
    ensures r == ParseSpec(p.Type(), fs, file, afterLine, since, codec)
  {
    match p
    case ClaudeP(_) => r := ClaudeProviders.ParseMessages(fs, file, afterLine, since, codec.claude);
    case GeminiP(_) => r := GeminiProviders.ParseMessages(fs, file, afterLine, since, codec.gemini);
    case CodexP => r := CodexProviders.ParseMessages(fs, file, afterLine, since, codec.codex);
  }

  method ResolveProjectName(p: AnyProvider, fs: Fs, file: SessionFile, codec: Codec) returns (name: string)
    modifies p.Objects()
    ensures old(p.Coherent(fs, codec)) ==> p.Coherent(fs, codec) && name == NameSpec(p.Type(), fs, file, codec)
  {
    match p
    case ClaudeP(c) => name := c.ResolveProjectName(fs, file, codec.claude);
    case GeminiP(_) => name := GeminiProviders.ResolveProjectName(file);
    case CodexP => name := CodexProviders.ResolveProjectName(fs, file, codec.codex);
  }

  method ResolveMetadata(p: AnyProvider, fs: Fs, file: SessionFile, codec: Codec) returns (md: SessionMetadata)
    modifies p.Objects()
    ensures old(p.Coherent(fs, codec)) ==> p.Coherent(fs, codec) && md == MetadataSpec(p.Type(), fs, file, codec)
  {
    match p
    case ClaudeP(c) => md := c.ResolveMetadata(fs, file, codec.claude);
    case GeminiP(_) => md := GeminiProviders.ResolveMetadata(fs, file, codec.gemini);
    case CodexP => md := CodexProviders.ResolveMetadata(fs, file, codec.codex);
  }
}
