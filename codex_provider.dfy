/** The Codex CLI provider: JSONL transcripts under ~/.codex/sessions in
    YYYY/MM/DD folders, whose first line may carry the session's cwd. */
module CodexProviders {
  import opened Wrappers
  import opened Seqs
  import opened Strings
  import opened Paths
  import opened Sessions
  import opened FileSystem
  import opened JsonLines
  import opened CodexMessages

  /** The line decoder and the ISO-8601 timestamp parser. */
  datatype CodexCodec = CodexCodec(
    message: string -> Option<CodexMessage>,
    parseTime: string -> Option<Time>)

  const SessionMetaKind: string := "session_meta"

  const NamePrefix: string := "codex-"

  /** The messages one transcript line contributes: a conversation turn, not
      dated before `since`, with non-empty text. */
  function LineMessages(line: string, since: Option<Time>, codec: CodexCodec): seq<ConversationMessage> {
    if IsBlank(line) then []
    else
      match codec.message(line)
      case None => []
      case Some(m) =>
        var ts := m.ParsedTimestamp(codec.parseTime);
        if !(m.IsUserMessage() || m.IsAssistantMessage()) then []
        else if !OnOrAfter(since, ts) then []
        else if m.TextContent().None? || m.TextContent().value == "" then []
        else [ConversationMessage(if m.IsUserMessage() then User else Assistant, m.TextContent().value, ts)]
  }

  function LineFn(since: Option<Time>, codec: CodexCodec): string -> seq<ConversationMessage> {
    line => LineMessages(line, since, codec)
  }

  /** What `parseMessages` returns for a file in the snapshot `fs`. */
  function ParseSpec(fs: Fs, file: SessionFile, afterLine: nat, since: Option<Time>, codec: CodexCodec): ParseResult {
    Parse(ReadText(fs, file.path), afterLine, LineFn(since, codec))
  }

  predicate Emittable(m: ConversationMessage, since: Option<Time>) {
    m.content != ""
    && OnOrAfter(since, m.timestamp)
    && (m.role == User ==> !HasSystemPrefix(m.content))
  }

  /** A line yields at most one message; it passes the filters, and a user
      message never starts with an injected system prefix. */
  lemma LineClean(line: string, since: Option<Time>, codec: CodexCodec)
    ensures |LineMessages(line, since, codec)| <= 1
    ensures forall y :: y in LineMessages(line, since, codec) ==> Emittable(y, since)
  {
  }

  /** Every message the parser emits is non-empty, not dated before `since`,
      and a user message never starts with a system prefix. */
  lemma EmittedMessagesClean(fs: Fs, file: SessionFile, afterLine: nat, since: Option<Time>, codec: CodexCodec)
    ensures forall y :: y in ParseSpec(fs, file, afterLine, since, codec).messages ==> Emittable(y, since)
  {
    var content := ReadText(fs, file.path);
    if content.Some? && LineCount(content.value) > afterLine {
      var lines := NewLines(content.value, afterLine);
      forall i | 0 <= i < |lines| {
        LineClean(lines[i], since, codec);
      }
      FlatMapAll(LineFn(since, codec), lines, (y: ConversationMessage) => Emittable(y, since));
    }
  }

  /** A user turn that starts with a system prefix contributes nothing. */
  lemma SystemTurnSkipped(line: string, since: Option<Time>, codec: CodexCodec, i: nat)
    requires !IsBlank(line) && codec.message(line).Some?
    requires var m := codec.message(line).value;
             m.kind == Some("response_item") && m.Role() == Some("user")
             && i < |SystemPrefixes| && m.TextContent().Some? && HasPrefix(m.TextContent().value, SystemPrefixes[i])
    ensures LineMessages(line, since, codec) == []
  {
    SystemPrefixFiltered(codec.message(line).value, i);
  }

  /** `contents.contains { $0.hasSuffix(".jsonl") }`: a leaf day folder. */
  predicate HasJsonl(items: seq<Node>) {
    exists i :: 0 <= i < |items| && HasSuffix(items[i].name, ".jsonl")
  }

  /** `findJSONLFilesRecursively`: a leaf folder older than the cutoff is
      skipped whole; intermediate folders are always entered. */
  function JsonlIn(n: Node, path: string, cutoff: Time): Result<seq<SessionFile>, FsError>
    decreases n
  {
    if !(n.Dir? && n.listable) then Failure(ListingFailed(path))
    else if HasJsonl(n.children) && n.mtime < cutoff then Success([])
    else JsonlItems(n.children, path, cutoff)
  }

  function JsonlItems(items: seq<Node>, path: string, cutoff: Time): Result<seq<SessionFile>, FsError>
    decreases items
  {
    if items == [] then Success([])
    else
      var item := items[0];
      var itemPath := AppendComponent(path, item.name);
      var here :=
        if item.Dir? then JsonlIn(item, itemPath, cutoff)
        else if HasSuffix(item.name, ".jsonl") then Success([AsSession(item, itemPath)])
        else Success([]);
      match here
      case Failure(e) => Failure(e)
      case Success(found) => Prepend(found, JsonlItems(items[1..], path, cutoff))
  }

  /** What `findSessionFiles` returns: the recent files among those found. */
  function FindSpec(fs: Fs, base: string, cutoff: Time): Result<seq<SessionFile>, FsError> {
    if base !in fs.trees then Success([])
    else
      match JsonlIn(fs.trees[base], base, cutoff)
      case Failure(e) => Failure(e)
      case Success(found) => Success(Recent(found, cutoff))
  }

  /** A stale leaf folder (one listing any `.jsonl` name, file or folder)
      contributes nothing, however recent its files. */
  lemma StaleLeafSkipped(n: Node, path: string, cutoff: Time)
    requires n.Dir? && n.listable && n.mtime < cutoff
    requires HasJsonl(n.children)
    ensures JsonlIn(n, path, cutoff) == Success([])
  {
  }

  /** What a found file looks like: a `.jsonl` name strictly below the folder. */
  predicate Found(path: string, f: SessionFile) {
    HasPrefix(f.path, path + "/") && HasSuffix(f.path, ".jsonl")
  }

  lemma {:induction false} JsonlInShape(n: Node, path: string, cutoff: Time, f: SessionFile)
    requires JsonlIn(n, path, cutoff).Success? && f in JsonlIn(n, path, cutoff).value
    ensures Found(path, f)
    decreases n, 1
  {
    JsonlItemsShape(n.children, path, cutoff, f);
  }

  lemma {:induction false} JsonlItemsShape(items: seq<Node>, path: string, cutoff: Time, f: SessionFile)
    requires JsonlItems(items, path, cutoff).Success? && f in JsonlItems(items, path, cutoff).value
    ensures Found(path, f)
    decreases items, 0
  {
    var item := items[0];
    var itemPath := AppendComponent(path, item.name);
    var here :=
      if item.Dir? then JsonlIn(item, itemPath, cutoff)
      else if HasSuffix(item.name, ".jsonl") then Success([AsSession(item, itemPath)])
      else Success([]);
    assert here.Success?;
    var rest := JsonlItems(items[1..], path, cutoff);
    assert rest.Success?;
    assert JsonlItems(items, path, cutoff).value == here.value + rest.value;
    if f in here.value {
      if item.Dir? {
        JsonlSubdirShape(item, path, cutoff, f);
      } else {
        assert f.path == (path + "/") + item.name;
        SuffixOfAppend(path + "/", item.name, ".jsonl");
      }
    } else {
      JsonlItemsShape(items[1..], path, cutoff, f);
    }
  }

  lemma {:induction false} JsonlSubdirShape(item: Node, path: string, cutoff: Time, f: SessionFile)
    requires item.Dir?
    requires var sub := JsonlIn(item, AppendComponent(path, item.name), cutoff);
             sub.Success? && f in sub.value
    ensures Found(path, f)
    decreases item, 2
  {
    var itemPath := AppendComponent(path, item.name);
    JsonlInShape(item, itemPath, cutoff, f);
    assert (itemPath + "/")[..|path + "/"|] == path + "/";
    PrefixOfPrefix(f.path, itemPath + "/", path + "/");
  }

  /** `f` is a `.jsonl` file in the tree of directory `n` at `path`, reached
      through folders none of which is a stale leaf. */
  ghost predicate Listed(n: Node, path: string, cutoff: Time, f: SessionFile)
    decreases n, 1
  {
    && n.Dir? && !(HasJsonl(n.children) && n.mtime < cutoff)
    && exists i :: 0 <= i < |n.children| && ListedVia(n, path, cutoff, f, i)
  }

  /** ... through the `i`-th entry of `n`: that entry is the file, or a
      subfolder whose tree lists it. */
  ghost predicate ListedVia(n: Node, path: string, cutoff: Time, f: SessionFile, i: int)
    requires n.Dir? && 0 <= i < |n.children|
    decreases n, 0
  {
    var c := n.children[i];
    var cp := AppendComponent(path, c.name);
    || (c.File? && HasSuffix(c.name, ".jsonl") && f == AsSession(c, cp))
    || (c.Dir? && Listed(c, cp, cutoff, f))
  }

  /** Each entry's contribution is part of a successful listing: a `.jsonl`
      file is found, and so is everything found below a subfolder. */
  lemma {:induction false} JsonlItemsHas(items: seq<Node>, path: string, cutoff: Time, i: nat)
    requires JsonlItems(items, path, cutoff).Success? && i < |items|
    ensures var item := items[i];
            var itemPath := AppendComponent(path, item.name);
            var r := JsonlItems(items, path, cutoff).value;
            && (item.File? && HasSuffix(item.name, ".jsonl") ==> AsSession(item, itemPath) in r)
            && (item.Dir? ==> JsonlIn(item, itemPath, cutoff).Success?
                              && forall g :: g in JsonlIn(item, itemPath, cutoff).value ==> g in r)
    decreases |items|
  {
    var rest := JsonlItems(items[1..], path, cutoff);
    assert rest.Success?;
    if i > 0 {
      assert items[1..][i - 1] == items[i];
      JsonlItemsHas(items[1..], path, cutoff, i - 1);
    }
  }

  /** A folder listing no `.jsonl` name is always recursed, whatever its
      age (and so is a recent one): everything found in its subfolders, and
      each `.jsonl` file it lists, is in its result. */
  lemma EntersFolder(n: Node, path: string, cutoff: Time, i: nat)
    requires JsonlIn(n, path, cutoff).Success? && n.Dir? && i < |n.children|
    requires !HasJsonl(n.children) || n.mtime >= cutoff
    ensures var c := n.children[i];
            var cp := AppendComponent(path, c.name);
            var r := JsonlIn(n, path, cutoff).value;
            && (c.File? && HasSuffix(c.name, ".jsonl") ==> AsSession(c, cp) in r)
            && (c.Dir? ==> JsonlIn(c, cp, cutoff).Success? && forall g :: g in JsonlIn(c, cp, cutoff).value ==> g in r)
  {
    JsonlItemsHas(n.children, path, cutoff, i);
  }

  /** `findJSONLFiles` finds every `.jsonl` file of the tree that no stale
      leaf hides, when the listing succeeds. */
  lemma {:induction false} JsonlInComplete(n: Node, path: string, cutoff: Time, f: SessionFile)
    requires JsonlIn(n, path, cutoff).Success? && Listed(n, path, cutoff, f)
    ensures f in JsonlIn(n, path, cutoff).value
    decreases n
  {
    var i :| 0 <= i < |n.children| && ListedVia(n, path, cutoff, f, i);
    var c := n.children[i];
    EntersFolder(n, path, cutoff, i);
    if !(c.File? && HasSuffix(c.name, ".jsonl") && f == AsSession(c, AppendComponent(path, c.name))) {
      JsonlInComplete(c, AppendComponent(path, c.name), cutoff, f);
    }
  }

  /** Discovery is complete: when it succeeds, every `.jsonl` file modified
      at or after the cutoff that no stale leaf folder hides is found. */
  lemma FindComplete(fs: Fs, base: string, cutoff: Time, f: SessionFile)
    requires FindSpec(fs, base, cutoff).Success?
    requires base in fs.trees && Listed(fs.trees[base], base, cutoff, f) && f.modificationDate >= cutoff
    ensures f in FindSpec(fs, base, cutoff).value
  {
    JsonlInComplete(fs.trees[base], base, cutoff, f);
  }

  /** Every session file found is a recent `.jsonl` file below the base path. */
  lemma FindShape(fs: Fs, base: string, cutoff: Time)
    ensures var r := FindSpec(fs, base, cutoff);
            r.Success? ==> forall f :: f in r.value ==> Found(base, f) && f.modificationDate >= cutoff
  {
    if base in fs.trees && JsonlIn(fs.trees[base], base, cutoff).Success? {
      forall f | f in FindSpec(fs, base, cutoff).value
        ensures Found(base, f) && f.modificationDate >= cutoff
      {
        JsonlInShape(fs.trees[base], base, cutoff, f);
      }
    }
  }

  /** The first line's record, when it is the `session_meta` record. */
  function SessionMeta(fs: Fs, path: string, codec: CodexCodec): Option<CodexMessage> {
    match ReadText(fs, path)
    case None => None
    case Some(content) =>
      match codec.message(Lines(content)[0])
      case None => None
      case Some(m) => if m.kind == Some(SessionMetaKind) then Some(m) else None
  }

  /** `payload?.cwd` of the session_meta record. */
  function MetaCwd(meta: Option<CodexMessage>): Option<string> {
    if meta.Some? && meta.value.payload.Some? then meta.value.payload.value.cwd else None
  }

  /** The last twelve characters of the file name without its extension. */
  function ShortSessionId(path: string): (r: string)
    ensures |r| <= 12 && HasSuffix(Stem(path), r)
  {
    TakeLast(Stem(path), 12)
  }

  function ResolveProjectName(fs: Fs, file: SessionFile, codec: CodexCodec): string {
    match MetaCwd(SessionMeta(fs, file.path, codec))
    case Some(cwd) => NamePrefix + LastComponent(cwd)
    case None => NamePrefix + ShortSessionId(file.path)
  }

  function ResolveMetadata(fs: Fs, file: SessionFile, codec: CodexCodec): SessionMetadata {
    SessionMetadata(ShortSessionId(file.path), MetaCwd(SessionMeta(fs, file.path, codec)))
  }

  /** The project name is "codex-" and the last component of the reported
      working directory, or "codex-" and the short session id without one. */
  lemma NameAgreesWithMetadata(fs: Fs, file: SessionFile, codec: CodexCodec)
    ensures var md := ResolveMetadata(fs, file, codec);
            var name := ResolveProjectName(fs, file, codec);
            && HasPrefix(name, NamePrefix)
            && (md.workingDirectory.Some? ==> name == NamePrefix + LastComponent(md.workingDirectory.value))
            && (md.workingDirectory.None? ==> name == NamePrefix + md.sessionId)
  {
  }

  /** Without a readable first-line session_meta record there is no cwd. */
  lemma NoMetaNoCwd(fs: Fs, file: SessionFile, codec: CodexCodec)
    requires ReadText(fs, file.path).None?
             || codec.message(Lines(ReadText(fs, file.path).value)[0]).None?
             || codec.message(Lines(ReadText(fs, file.path).value)[0]).value.kind != Some(SessionMetaKind)
    ensures ResolveMetadata(fs, file, codec).workingDirectory.None?
    ensures ResolveProjectName(fs, file, codec) == NamePrefix + ShortSessionId(file.path)
  {
  }

  method DecodeLine(line: string, since: Option<Time>, codec: CodexCodec) returns (messages: seq<ConversationMessage>)
    ensures messages == LineMessages(line, since, codec)
  {
    messages := [];
    if IsBlank(line) {
      return;
    }
    var decoded := codec.message(line);
    if decoded.None? {
      return;
    }
    var m := decoded.value;
    if !(m.IsUserMessage() || m.IsAssistantMessage()) {
      return;
    }
    var ts := m.ParsedTimestamp(codec.parseTime);
    if !OnOrAfter(since, ts) {
      return;
    }
    var text := m.TextContent();
    if text.None? || text.value == "" {
      return;
    }
    var role := if m.IsUserMessage() then User else Assistant;
    messages := [ConversationMessage(role, text.value, ts)];
  }

  /** `parseMessages`: the lines after the cursor, one record per line. */
  method ParseMessages(fs: Fs, file: SessionFile, afterLine: nat, since: Option<Time>, codec: CodexCodec)
    returns (r: ParseResult)
    ensures r == ParseSpec(fs, file, afterLine, since, codec)
  {
    var content := ReadText(fs, file.path);
    if content.None? {
      return ParseResult([], afterLine);
    }
    var totalLines := LineCount(content.value);
    if totalLines <= afterLine {
      return ParseResult([], totalLines);
    }
    var allLines := Lines(content.value);
    var newLines := allLines[afterLine..totalLines];
    assert newLines == NewLines(content.value, afterLine);
    var messages: seq<ConversationMessage> := [];
    var i := 0;
    while i < |newLines|
      invariant 0 <= i <= |newLines|
      invariant messages == FlatMap(LineFn(since, codec), newLines[..i])
    {
      assert newLines[..i + 1][..i] == newLines[..i];
      var lineMessages := DecodeLine(newLines[i], since, codec);
      messages := messages + lineMessages;
      i := i + 1;
    }
    assert newLines[..i] == newLines;
    return ParseResult(messages, totalLines);
  }

  /** `findJSONLFilesRecursively`. */
  method FindJSONLFiles(n: Node, path: string, cutoff: Time) returns (r: Result<seq<SessionFile>, FsError>)
    ensures r == JsonlIn(n, path, cutoff)
    decreases n
  {
    if !(n.Dir? && n.listable) {
      return Failure(ListingFailed(path));
    }
    var contents := n.children;
    var hasJsonlFiles := false;
    var k := 0;
    while k < |contents|
      invariant 0 <= k <= |contents|
      invariant hasJsonlFiles <==> exists i :: 0 <= i < k && HasSuffix(contents[i].name, ".jsonl")
    {
      if HasSuffix(contents[k].name, ".jsonl") {
        hasJsonlFiles := true;
      }
      k := k + 1;
    }
    if hasJsonlFiles && n.mtime < cutoff {
      return Success([]);
    }
    var jsonlFiles: seq<SessionFile> := [];
    var i := 0;
    assert contents[0..] == contents;
    PrependNothing(jsonlFiles, JsonlItems(contents, path, cutoff));
    while i < |contents|
      invariant 0 <= i <= |contents|
      invariant JsonlItems(contents, path, cutoff) == Prepend(jsonlFiles, JsonlItems(contents[i..], path, cutoff))
    {
      var item := contents[i];
      var itemPath := AppendComponent(path, item.name);
      assert contents[i..][0] == item && contents[i..][1..] == contents[i + 1..];
      if item.Dir? {
        var sub := FindJSONLFiles(item, itemPath, cutoff);
        if sub.Failure? {
          return Failure(sub.error);
        }
        PrependTwice(jsonlFiles, sub.value, JsonlItems(contents[i + 1..], path, cutoff));
        jsonlFiles := jsonlFiles + sub.value;
      } else if HasSuffix(item.name, ".jsonl") {
        PrependTwice(jsonlFiles, [AsSession(item, itemPath)], JsonlItems(contents[i + 1..], path, cutoff));
        jsonlFiles := jsonlFiles + [AsSession(item, itemPath)];
      } else {
        PrependNothing(jsonlFiles, JsonlItems(contents[i + 1..], path, cutoff));
      }
      i := i + 1;
    }
    PrependNothing(jsonlFiles, JsonlItems(contents[i..], path, cutoff));
    return Success(jsonlFiles);
  }

  method FindSessionFiles(fs: Fs, basePath: string, maxAge: int, now: Time) returns (r: Result<seq<SessionFile>, FsError>)
    ensures r == FindSpec(fs, basePath, now - maxAge)
  {
    var cutoff := now - maxAge;
    if basePath !in fs.trees {
      return Success([]);
    }
    var found := FindJSONLFiles(fs.trees[basePath], basePath, cutoff);
    if found.Failure? {
      return Failure(found.error);
    }
    var sessionFiles := KeepRecent(found.value, cutoff);
    return Success(sessionFiles);
  }
}
