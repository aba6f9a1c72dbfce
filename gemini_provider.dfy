/** The Gemini CLI provider: per-project hash directories under
    ~/.gemini/tmp holding `.json` session objects in a chats folder or a legacy
    logs.json array. Its cursor counts array elements, not lines. */
module GeminiProviders {
  import opened Wrappers
  import opened Seqs
  import opened Strings
  import opened Paths
  import opened Sessions
  import opened FileSystem
  import opened GeminiMessages

  /** The JSON decoders the provider uses, as functions of the raw data, and
      the ISO-8601 timestamp parser; `log` decodes a `GeminiLogFile` and
      returns its `messages`. */
  datatype GeminiCodec = GeminiCodec(
    session: string -> Option<GeminiSessionFile>,
    log: string -> Option<seq<GeminiMessage>>,
    parseTime: string -> Option<Time>)

  const ChatsFolder: string := "chats"

  const LegacyFileName: string := "logs.json"

  /** The shared shape of both formats: the array length is the cursor total,
      and only the elements from index `afterLine` on are examined. */
  function ParseArray<T>(items: seq<T>, afterLine: nat, f: T -> seq<ConversationMessage>): ParseResult {
    if |items| <= afterLine then ParseResult([], |items|)
    else ParseResult(FlatMap(f, items[afterLine..]), |items|)
  }

  /** The message a new-format chat message becomes, if any. */
  function ChatMessage(m: GeminiChatMessage, since: Option<Time>, parseTime: string -> Option<Time>): seq<ConversationMessage> {
    if !(m.IsUserMessage() || m.IsAssistantMessage()) then []
    else if m.TextContent().None? || m.TextContent().value == "" then []
    else if !OnOrAfter(since, m.ParsedTimestamp(parseTime)) then []
    else [ConversationMessage(if m.IsUserMessage() then User else Assistant, m.TextContent().value, m.ParsedTimestamp(parseTime))]
  }

  function ChatFn(since: Option<Time>, parseTime: string -> Option<Time>): GeminiChatMessage -> seq<ConversationMessage> {
    m => ChatMessage(m, since, parseTime)
  }

  /** The message a legacy turn becomes, if any: never dated, and every role
      other than "user" is shown as the assistant. */
  function LegacyMessage(m: GeminiMessage): seq<ConversationMessage> {
    match m.TextContent()
    case None => []
    case Some(text) => if text == "" then [] else [ConversationMessage(if m.IsUserMessage() then User else Assistant, text, None)]
  }

  function LegacyFn(): GeminiMessage -> seq<ConversationMessage> {
    m => LegacyMessage(m)
  }

  /** What `parseMessages` returns: the new format is tried first, the legacy
      array second, and anything else keeps the cursor. */
  function ParseSpec(fs: Fs, file: SessionFile, afterLine: nat, since: Option<Time>, codec: GeminiCodec): ParseResult {
    match ReadData(fs, file.path)
    case None => ParseResult([], afterLine)
    case Some(data) =>
      match codec.session(data)
      case Some(session) => ParseArray(session.messages, afterLine, ChatFn(since, codec.parseTime))
      case None =>
        match codec.log(data)
        case Some(log) => ParseArray(log, afterLine, LegacyFn())
        case None => ParseResult([], afterLine)
  }

  /** Unreadable or undecodable files keep the cursor; a decoded array reports
      its length; messages come only with progress. */
  lemma ParseCursor(fs: Fs, file: SessionFile, afterLine: nat, since: Option<Time>, codec: GeminiCodec)
    ensures var r := ParseSpec(fs, file, afterLine, since, codec);
            var data := ReadData(fs, file.path);
            && (data.None? ==> r == ParseResult([], afterLine))
            && (data.Some? && codec.session(data.value).None? && codec.log(data.value).None? ==> r == ParseResult([], afterLine))
            && (data.Some? && codec.session(data.value).Some? ==> r.totalLines == |codec.session(data.value).value.messages|)
            && (data.Some? && codec.session(data.value).None? && codec.log(data.value).Some? ==> r.totalLines == |codec.log(data.value).value|)
            && Advances(r, afterLine)
  {
  }

  /** Appending elements loses and repeats nothing (the element-count analogue
      of the line-based incremental parse). */
  lemma ParseArrayIncremental<T>(a: seq<T>, b: seq<T>, k: nat, f: T -> seq<ConversationMessage>)
    requires k <= |a|
    ensures ParseArray(a + b, k, f).messages == ParseArray(a, k, f).messages + ParseArray(a + b, |a|, f).messages
  {
    if k < |a| {
      assert (a + b)[k..] == a[k..] + b;
      FlatMapConcat(f, a[k..], b);
      assert (a + b)[|a|..] == b;
      if b == [] {
        assert FlatMap(f, b) == [];
      }
    } else {
      assert k == |a|;
    }
  }

  /** New-format messages are user iff the type is "user", carry non-empty
      content, and pass the date filter. */
  lemma NewFormatEmitted(m: GeminiChatMessage, since: Option<Time>, parseTime: string -> Option<Time>)
    ensures var out := ChatMessage(m, since, parseTime);
            |out| <= 1
            && (|out| == 1 <==> ((m.kind == "user" || m.kind == "gemini") && m.content.Some? && m.content.value != ""
                                 && OnOrAfter(since, m.ParsedTimestamp(parseTime))))
            && (|out| == 1 ==> out[0].content == m.content.value && (out[0].role == User <==> m.kind == "user"))
  {
  }

  /** Legacy turns have no date filter and no timestamp; any role other than
      "user" with text becomes an assistant message. */
  lemma LegacyEmitted(m: GeminiMessage)
    ensures var out := LegacyMessage(m);
            |out| <= 1
            && (|out| == 1 <==> m.TextContent().Some? && m.TextContent().value != "")
            && (|out| == 1 ==> out[0].timestamp.None? && (out[0].role == User <==> m.role == "user"))
  {
  }

  /** `extractProjectHash` over path components: the component after the
      first "tmp", or "" when "tmp" is missing or last. */
  function HashAfterTmp(components: seq<string>): string
    decreases |components|
  {
    if components == [] then ""
    else if components[0] == "tmp" then (if |components| > 1 then components[1] else "")
    else HashAfterTmp(components[1..])
  }

  function ExtractProjectHash(path: string): string {
    HashAfterTmp(Components(path))
  }

  lemma {:induction false} HashAfterFirstTmp(before: seq<string>, hash: string, after: seq<string>)
    requires "tmp" !in before
    ensures HashAfterTmp(before + ["tmp", hash] + after) == hash
    decreases |before|
  {
    var c := before + ["tmp", hash] + after;
    if before == [] {
      assert c[0] == "tmp" && c[1] == hash;
    } else {
      assert c[0] == before[0] && c[0] != "tmp";
      assert c[1..] == before[1..] + ["tmp", hash] + after;
      HashAfterFirstTmp(before[1..], hash, after);
    }
  }

  lemma {:induction false} NoTmpNoHash(components: seq<string>)
    requires "tmp" !in components
    ensures HashAfterTmp(components) == ""
    decreases |components|
  {
    if components != [] {
      NoTmpNoHash(components[1..]);
    }
  }

  function ResolveProjectName(file: SessionFile): string {
    Take(ExtractProjectHash(file.path), 8)
  }

  function ResolveMetadata(fs: Fs, file: SessionFile, codec: GeminiCodec): SessionMetadata {
    var sessionId :=
      match ReadData(fs, file.path)
      case Some(data) =>
        (match codec.session(data)
         case Some(session) => Take(session.sessionId, 8)
         case None => Take(ExtractProjectHash(file.path), 8))
      case None => Take(ExtractProjectHash(file.path), 8);
    SessionMetadata(sessionId, None)
  }

  /** The session id is at most eight characters; without a decodable
      session object it falls back to the project name; no working directory. */
  lemma MetadataShape(fs: Fs, file: SessionFile, codec: GeminiCodec)
    ensures var md := ResolveMetadata(fs, file, codec);
            var data := ReadData(fs, file.path);
            && md.workingDirectory.None?
            && |md.sessionId| <= 8
            && (data.None? || codec.session(data.value).None? ==> md.sessionId == ResolveProjectName(file))
            && (data.Some? && codec.session(data.value).Some? ==> HasPrefix(codec.session(data.value).value.sessionId, md.sessionId))
  {
  }

  /** A listed chats entry becomes a session file when it is a recent `.json`. */
  function ChatEntry(entry: Node, chatsPath: string, cutoff: Time): seq<SessionFile> {
    if HasSuffix(entry.name, ".json") && entry.mtime >= cutoff
    then [AsSession(entry, AppendComponent(chatsPath, entry.name))]
    else []
  }

  function ChatEntryFn(chatsPath: string, cutoff: Time): Node -> seq<SessionFile> {
    e => ChatEntry(e, chatsPath, cutoff)
  }

  /** The session files of one hash directory: recent chats, then a recent logs.json. */
  function HashDirFiles(dir: Node, basePath: string, cutoff: Time): seq<SessionFile> {
    if !dir.Dir? || dir.mtime < cutoff then []
    else
      var hashPath := AppendComponent(basePath, dir.name);
      var chatsPath := AppendComponent(hashPath, ChatsFolder);
      var chats :=
        match Child(dir, ChatsFolder)
        case None => []
        case Some(c) => FlatMap(ChatEntryFn(chatsPath, cutoff), if c.Dir? && c.listable then c.children else []);
      var logs :=
        match Child(dir, LegacyFileName)
        case None => []
        case Some(l) => if l.mtime < cutoff then [] else [AsSession(l, AppendComponent(hashPath, LegacyFileName))];
      chats + logs
  }

  function HashDirFn(basePath: string, cutoff: Time): Node -> seq<SessionFile> {
    d => HashDirFiles(d, basePath, cutoff)
  }

  function FindSpec(fs: Fs, basePath: string, cutoff: Time): Result<seq<SessionFile>, FsError> {
    if basePath !in fs.trees then Success([])
    else
      var root := fs.trees[basePath];
      if !(root.Dir? && root.listable) then Failure(ListingFailed(basePath))
      else Success(FlatMap(HashDirFn(basePath, cutoff), root.children))
  }

  /** Every discovered file is recent and is a `.json` file. */
  lemma HashDirFilesShape(dir: Node, basePath: string, cutoff: Time)
    ensures forall f :: f in HashDirFiles(dir, basePath, cutoff) ==> f.modificationDate >= cutoff && HasSuffix(f.path, ".json")
  {
    if dir.Dir? && dir.mtime >= cutoff {
      var hashPath := AppendComponent(basePath, dir.name);
      var chatsPath := AppendComponent(hashPath, ChatsFolder);
      SuffixOfAppend(hashPath + "/", LegacyFileName, ".json");
      match Child(dir, ChatsFolder)
      case None =>
      case Some(c) =>
        ChatEntriesShape(if c.Dir? && c.listable then c.children else [], chatsPath, cutoff);
    }
  }

  /** Every file taken from a chats listing is a recent `.json` file. */
  lemma ChatEntriesShape(entries: seq<Node>, chatsPath: string, cutoff: Time)
    ensures forall f :: f in FlatMap(ChatEntryFn(chatsPath, cutoff), entries) ==> f.modificationDate >= cutoff && HasSuffix(f.path, ".json")
  {
    forall e: Node | HasSuffix(e.name, ".json") {
      SuffixOfAppend(chatsPath + "/", e.name, ".json");
    }
    FlatMapAll(ChatEntryFn(chatsPath, cutoff), entries,
               (f: SessionFile) => f.modificationDate >= cutoff && HasSuffix(f.path, ".json"));
  }

  /** Every session file found is a recent `.json` file. */
  lemma FindShape(fs: Fs, basePath: string, cutoff: Time)
    ensures var r := FindSpec(fs, basePath, cutoff);
            r.Success? ==> forall f :: f in r.value ==> f.modificationDate >= cutoff && HasSuffix(f.path, ".json")
  {
    if basePath in fs.trees && fs.trees[basePath].Dir? {
      var dirs := fs.trees[basePath].children;
      forall i | 0 <= i < |dirs| {
        HashDirFilesShape(dirs[i], basePath, cutoff);
      }
      FlatMapAll(HashDirFn(basePath, cutoff), dirs,
                 (f: SessionFile) => f.modificationDate >= cutoff && HasSuffix(f.path, ".json"));
    }
  }

  /** Discovery is complete for chats: every `.json` entry modified at or
      after the cutoff, in the chats folder of a hash folder modified at or
      after the cutoff, is found. */
  lemma ChatFound(fs: Fs, basePath: string, cutoff: Time, dir: Node, chats: Node, entry: Node)
    requires basePath in fs.trees && fs.trees[basePath].Dir? && fs.trees[basePath].listable
    requires dir in fs.trees[basePath].children && dir.Dir? && dir.mtime >= cutoff
    requires Child(dir, ChatsFolder) == Some(chats) && chats.Dir? && chats.listable && entry in chats.children
    requires HasSuffix(entry.name, ".json") && entry.mtime >= cutoff
    ensures var chatsPath := AppendComponent(AppendComponent(basePath, dir.name), ChatsFolder);
            var r := FindSpec(fs, basePath, cutoff);
            r.Success? && AsSession(entry, AppendComponent(chatsPath, entry.name)) in r.value
  {
    var chatsPath := AppendComponent(AppendComponent(basePath, dir.name), ChatsFolder);
    var file := AsSession(entry, AppendComponent(chatsPath, entry.name));
    var hashDirs := fs.trees[basePath].children;
    var k :| 0 <= k < |hashDirs| && hashDirs[k] == dir;
    var j :| 0 <= j < |chats.children| && chats.children[j] == entry;
    FlatMapHas(ChatEntryFn(chatsPath, cutoff), chats.children, j, file);
    assert file in HashDirFiles(dir, basePath, cutoff);
    FlatMapHas(HashDirFn(basePath, cutoff), hashDirs, k, file);
  }

  /** Discovery is complete for the legacy log: a `logs.json` modified at or
      after the cutoff, in a hash folder modified at or after the cutoff, is
      found. */
  lemma LogFound(fs: Fs, basePath: string, cutoff: Time, dir: Node, log: Node)
    requires basePath in fs.trees && fs.trees[basePath].Dir? && fs.trees[basePath].listable
    requires dir in fs.trees[basePath].children && dir.Dir? && dir.mtime >= cutoff
    requires Child(dir, LegacyFileName) == Some(log) && log.mtime >= cutoff
    ensures var hashPath := AppendComponent(basePath, dir.name);
            var r := FindSpec(fs, basePath, cutoff);
            r.Success? && AsSession(log, AppendComponent(hashPath, LegacyFileName)) in r.value
  {
    var file := AsSession(log, AppendComponent(AppendComponent(basePath, dir.name), LegacyFileName));
    var hashDirs := fs.trees[basePath].children;
    var k :| 0 <= k < |hashDirs| && hashDirs[k] == dir;
    assert file in HashDirFiles(dir, basePath, cutoff);
    FlatMapHas(HashDirFn(basePath, cutoff), hashDirs, k, file);
  }

  /** `parseNewFormat` and `parseLegacyFormat` share this loop. */
  method ParseElements<T>(allMessages: seq<T>, afterLine: nat, f: T -> seq<ConversationMessage>) returns (r: ParseResult)
    ensures r == ParseArray(allMessages, afterLine, f)
  {
    var totalCount := |allMessages|;
    if totalCount <= afterLine {
      return ParseResult([], totalCount);
    }
    var newMessages := allMessages[afterLine..];
    var messages: seq<ConversationMessage> := [];
    var i := 0;
    while i < |newMessages|
      invariant 0 <= i <= |newMessages|
      invariant messages == FlatMap(f, newMessages[..i])
    {
      assert newMessages[..i + 1][..i] == newMessages[..i];
      messages := messages + f(newMessages[i]);
      i := i + 1;
    }
    assert newMessages[..i] == newMessages;
    return ParseResult(messages, totalCount);
  }

  method ParseNewFormat(session: GeminiSessionFile, afterLine: nat, since: Option<Time>, parseTime: string -> Option<Time>)
    returns (r: ParseResult)
    ensures r == ParseArray(session.messages, afterLine, ChatFn(since, parseTime))
  {
    r := ParseElements(session.messages, afterLine, ChatFn(since, parseTime));
  }

  method ParseLegacyFormat(log: seq<GeminiMessage>, afterLine: nat) returns (r: ParseResult)
    ensures r == ParseArray(log, afterLine, LegacyFn())
  {
    r := ParseElements(log, afterLine, LegacyFn());
  }

  method ParseMessages(fs: Fs, file: SessionFile, afterLine: nat, since: Option<Time>, codec: GeminiCodec)
    returns (r: ParseResult)
    ensures r == ParseSpec(fs, file, afterLine, since, codec)
  {
    var data := ReadData(fs, file.path);
    if data.None? {
      return ParseResult([], afterLine);
    }
    var session := codec.session(data.value);
    if session.Some? {
      r := ParseNewFormat(session.value, afterLine, since, codec.parseTime);
      return;
    }
    var log := codec.log(data.value);
    if log.Some? {
      r := ParseLegacyFormat(log.value, afterLine);
      return;
    }
    return ParseResult([], afterLine);
  }

  /** The chats loop and the logs.json check of one hash directory. */
  method ScanHashDir(dir: Node, basePath: string, cutoff: Time) returns (files: seq<SessionFile>)
    ensures files == HashDirFiles(dir, basePath, cutoff)
  {
    files := [];
    if !dir.Dir? || dir.mtime < cutoff {
      return;
    }
    var hashPath := AppendComponent(basePath, dir.name);
    var chatsPath := AppendComponent(hashPath, ChatsFolder);
    var chats := Child(dir, ChatsFolder);
    if chats.Some? {
      var chatFiles := if chats.value.Dir? && chats.value.listable then chats.value.children else [];
      var j := 0;
      while j < |chatFiles|
        invariant 0 <= j <= |chatFiles|
        invariant files == FlatMap(ChatEntryFn(chatsPath, cutoff), chatFiles[..j])
      {
        var chatFile := chatFiles[j];
        assert chatFiles[..j + 1][..j] == chatFiles[..j];
        if HasSuffix(chatFile.name, ".json") && chatFile.mtime >= cutoff {
          files := files + [AsSession(chatFile, AppendComponent(chatsPath, chatFile.name))];
        }
        j := j + 1;
      }
      assert chatFiles[..j] == chatFiles;
    }
    var logs := Child(dir, LegacyFileName);
    if logs.Some? && logs.value.mtime >= cutoff {
      files := files + [AsSession(logs.value, AppendComponent(hashPath, LegacyFileName))];
    }
  }

  method FindSessionFiles(fs: Fs, basePath: string, maxAge: int, now: Time) returns (r: Result<seq<SessionFile>, FsError>)
    ensures r == FindSpec(fs, basePath, now - maxAge)
  {
    var cutoff := now - maxAge;
    if basePath !in fs.trees {
      return Success([]);
    }
    var root := fs.trees[basePath];
    if !(root.Dir? && root.listable) {
      return Failure(ListingFailed(basePath));
    }
    var sessionFiles := ScanHashDirs(root.children, basePath, cutoff);
    return Success(sessionFiles);
  }

  /** The loop over the hash directories under the base path. */
  method ScanHashDirs(hashDirs: seq<Node>, basePath: string, cutoff: Time) returns (sessionFiles: seq<SessionFile>)
    ensures sessionFiles == FlatMap(HashDirFn(basePath, cutoff), hashDirs)
  {
    sessionFiles := [];
    var i := 0;
    while i < |hashDirs|
      invariant 0 <= i <= |hashDirs|
      invariant sessionFiles == FlatMap(HashDirFn(basePath, cutoff), hashDirs[..i])
    {
      assert hashDirs[..i + 1][..i] == hashDirs[..i];
      var found := ScanHashDir(hashDirs[i], basePath, cutoff);
      sessionFiles := sessionFiles + found;
      i := i + 1;
    }
    assert hashDirs[..i] == hashDirs;
  }

  /** The Gemini provider object. Its message-count table is declared and
      cleared by `clearCache` but never filled. */
  class GeminiProvider {
    var lastMessageCounts: map<string, int>

    constructor ()
      ensures lastMessageCounts == map[]
    {
      lastMessageCounts := map[];
    }

    method ClearCache()
      modifies this
      ensures lastMessageCounts == map[]
    {
      lastMessageCounts := map[];
    }
  }
}
