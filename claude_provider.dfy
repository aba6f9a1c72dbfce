/** The Claude Code provider: JSONL transcripts under ~/.claude/projects,
    one folder per project, with an optional sessions-index.json that maps
    session ids to project paths. */
module ClaudeProviders {
  import opened Wrappers
  import opened Seqs
  import opened Strings
  import opened Paths
  import opened Sessions
  import opened FileSystem
  import opened JsonLines

  /** A decoded transcript line, reduced to what the parser reads from it
      (ClaudeMessage.swift is not part of this model). */
  datatype ClaudeMessage = ClaudeMessage(
    isUserMessage: bool,
    isAssistantMessage: bool,
    parsedTimestamp: Option<Time>,
    textBlocks: seq<string>)

  datatype SessionEntry = SessionEntry(sessionId: string, projectPath: Option<string>)

  datatype SessionIndex = SessionIndex(entries: seq<SessionEntry>)

  /** The JSON decoders the provider uses, as functions of the raw text. */
  datatype ClaudeCodec = ClaudeCodec(
    message: string -> Option<ClaudeMessage>,
    sessionIndex: string -> Option<SessionIndex>)

  const SystemMessagePatterns: seq<string> := [
    "<local-command", "<command-name>", "<system-reminder>", "<task-notification>",
    "<bash-stdout>", "<bash-stderr>", "<local-command-caveat>"]

  const NoResponseRequested: string := "no response requested"

  const IndexFileName: string := "sessions-index.json"

  const SubagentsFolder: string := "subagents"

  /** `shouldSkipMessage`: the text mentions a system pattern. */
  predicate ShouldSkipMessage(text: string) {
    exists p :: p in SystemMessagePatterns && Contains(text, p)
  }

  /** Whether a text block of the record `m` survives the filters. */
  predicate KeepBlock(m: ClaudeMessage, text: string) {
    text != "" && !ShouldSkipMessage(text)
    && !(m.isAssistantMessage && HasPrefix(Lower(text), NoResponseRequested))
  }

  /** The message a text block becomes, or nothing when it is filtered out. */
  function BlockMessage(m: ClaudeMessage, text: string): seq<ConversationMessage> {
    if KeepBlock(m, text)
    then [ConversationMessage(if m.isUserMessage then User else Assistant, text, m.parsedTimestamp)]
    else []
  }

  function BlockMessages(m: ClaudeMessage): string -> seq<ConversationMessage> {
    text => BlockMessage(m, text)
  }

  /** The messages one transcript line contributes. */
  function LineMessages(line: string, since: Option<Time>, codec: ClaudeCodec): seq<ConversationMessage> {
    if IsBlank(line) then []
    else
      match codec.message(line)
      case None => []
      case Some(m) =>
        if !(m.isUserMessage || m.isAssistantMessage) || !OnOrAfter(since, m.parsedTimestamp) then []
        else FlatMap(BlockMessages(m), m.textBlocks)
  }

  function LineFn(since: Option<Time>, codec: ClaudeCodec): string -> seq<ConversationMessage> {
    line => LineMessages(line, since, codec)
  }

  /** What `parseMessages` returns for a file in the snapshot `fs`. */
  function ParseSpec(fs: Fs, file: SessionFile, afterLine: nat, since: Option<Time>, codec: ClaudeCodec): ParseResult {
    Parse(ReadText(fs, file.path), afterLine, LineFn(since, codec))
  }

  /** What the parser promises of every message it emits. */
  predicate Emittable(m: ConversationMessage, since: Option<Time>) {
    m.content != ""
    && !ShouldSkipMessage(m.content)
    && (m.role == Assistant ==> !HasPrefix(Lower(m.content), NoResponseRequested))
    && OnOrAfter(since, m.timestamp)
  }

  lemma LineClean(line: string, since: Option<Time>, codec: ClaudeCodec)
    ensures forall y :: y in LineMessages(line, since, codec) ==> Emittable(y, since)
  {
    if !IsBlank(line) && codec.message(line).Some? {
      var m := codec.message(line).value;
      if (m.isUserMessage || m.isAssistantMessage) && OnOrAfter(since, m.parsedTimestamp) {
        var P := (y: ConversationMessage) => Emittable(y, since);
        FlatMapAll(BlockMessages(m), m.textBlocks, P);
      }
    }
  }

  /** Every emitted message is non-empty, free of the seven system patterns,
      not an assistant "no response requested", and not dated before `since`. */
  lemma EmittedMessagesClean(fs: Fs, file: SessionFile, afterLine: nat, since: Option<Time>, codec: ClaudeCodec)
    ensures forall y :: y in ParseSpec(fs, file, afterLine, since, codec).messages ==> Emittable(y, since)
  {
    var content := ReadText(fs, file.path);
    if content.Some? && LineCount(content.value) > afterLine {
      var lines := NewLines(content.value, afterLine);
      var f := LineFn(since, codec);
      forall i | 0 <= i < |lines| {
        LineClean(lines[i], since, codec);
      }
      FlatMapAll(f, lines, (y: ConversationMessage) => Emittable(y, since));
    }
  }

  /** A line whose record is dated before `since` contributes nothing, and an
      undated record is not filtered by date. */
  lemma SinceFilter(line: string, since: Option<Time>, codec: ClaudeCodec)
    requires !IsBlank(line) && codec.message(line).Some?
    ensures var m := codec.message(line).value;
            (since.Some? && m.parsedTimestamp.Some? && m.parsedTimestamp.value < since.value)
              ==> LineMessages(line, since, codec) == []
    ensures var m := codec.message(line).value;
            ((m.isUserMessage || m.isAssistantMessage) && m.parsedTimestamp.None?)
              ==> LineMessages(line, since, codec) == LineMessages(line, None, codec)
  {
  }

  /** Blank, undecodable and non-conversation lines contribute nothing. */
  lemma SkippedLines(line: string, since: Option<Time>, codec: ClaudeCodec)
    requires IsBlank(line) || codec.message(line).None?
             || !(codec.message(line).value.isUserMessage || codec.message(line).value.isAssistantMessage)
    ensures LineMessages(line, since, codec) == []
  {
  }

  /** `resolveFromFolderName`: dashes become slashes and the last component is kept. */
  function ResolveFromFolderName(folderName: string): string {
    LastComponent(Replace(folderName, {'-'}, '/'))
  }

  /** A project folder name (which holds no '/') resolves to its last
      non-empty dash-separated run. */
  lemma FolderNameFallback(folderName: string)
    requires forall i :: 0 <= i < |folderName| ==> folderName[i] != '/'
    ensures var runs := NonEmpty(Split(folderName, {'-'}));
            ResolveFromFolderName(folderName) == if runs == [] then "" else runs[|runs| - 1]
  {
    SplitReplace(folderName, {'-'}, '/');
  }

  /** `index.entries.first(where: { $0.sessionId == sessionId })`. */
  function FirstEntry(entries: seq<SessionEntry>, sessionId: string): (r: Option<SessionEntry>)
    ensures r.Some? ==> r.value in entries && r.value.sessionId == sessionId
    ensures r.None? ==> forall i :: 0 <= i < |entries| ==> entries[i].sessionId != sessionId
    decreases |entries|
  {
    if entries == [] then None
    else if entries[0].sessionId == sessionId then Some(entries[0])
    else FirstEntry(entries[1..], sessionId)
  }

  /** The index file beside a transcript. */
  function IndexPath(path: string): string {
    AppendComponent(Parent(path), IndexFileName)
  }

  /** What `loadSessionIndex` reads from the disk: the decoded index, or
      `None` when the file is missing, unreadable or malformed. */
  function IndexSpec(fs: Fs, path: string, codec: ClaudeCodec): Option<SessionIndex> {
    if !FileExists(fs, path) then None
    else
      match ReadData(fs, path)
      case None => None
      case Some(data) => codec.sessionIndex(data)
  }

  /** `resolveProjectName` given the index found beside `path`. */
  function ProjectNameFrom(index: Option<SessionIndex>, path: string): string {
    var fallback := ResolveFromFolderName(LastComponent(Parent(path)));
    if index.None? then fallback
    else
      match FirstEntry(index.value.entries, Stem(path))
      case Some(SessionEntry(_, Some(projectPath))) => LastComponent(projectPath)
      case _ => fallback
  }

  /** `resolveMetadata` given the index found beside `path`. */
  function MetadataFrom(index: Option<SessionIndex>, path: string): SessionMetadata {
    var sessionId := Stem(path);
    var cwd :=
      if index.None? then None
      else
        match FirstEntry(index.value.entries, sessionId)
        case Some(entry) => entry.projectPath
        case None => None;
    SessionMetadata(Take(sessionId, 8), cwd)
  }

  /** The project name is the last component of the recorded working
      directory when there is one, and the folder-name fallback otherwise;
      the session id is the first eight characters of the file stem. */
  lemma NameAgreesWithMetadata(index: Option<SessionIndex>, path: string)
    ensures var md := MetadataFrom(index, path);
            ProjectNameFrom(index, path)
              == if md.workingDirectory.Some? then LastComponent(md.workingDirectory.value)
                 else ResolveFromFolderName(LastComponent(Parent(path)))
    ensures HasPrefix(Stem(path), MetadataFrom(index, path).sessionId)
    ensures |MetadataFrom(index, path).sessionId| == if |Stem(path)| < 8 then |Stem(path)| else 8
  {
  }

  /** What the cache-backed lookup returns: a cached index when there is one,
      the disk otherwise. */
  function Lookup(cache: map<string, SessionIndex>, fs: Fs, path: string, codec: ClaudeCodec): Option<SessionIndex> {
    if path in cache then Some(cache[path]) else IndexSpec(fs, path, codec)
  }

  /** `findJSONLFiles`: the `.jsonl` files below a directory, skipping
      directories named "subagents" when asked to. */
  function JsonlIn(n: Node, path: string, excludingSubagents: bool): Result<seq<SessionFile>, FsError>
    decreases n
  {
    if !(n.Dir? && n.listable) then Failure(ListingFailed(path))
    else JsonlItems(n.children, path, excludingSubagents)
  }

  function JsonlItems(items: seq<Node>, path: string, excludingSubagents: bool): Result<seq<SessionFile>, FsError>
    decreases items
  {
    if items == [] then Success([])
    else
      var item := items[0];
      var itemPath := AppendComponent(path, item.name);
      var here :=
        if item.Dir? then
          (if excludingSubagents && item.name == SubagentsFolder then Success([])
           else JsonlIn(item, itemPath, excludingSubagents))
        else if HasSuffix(item.name, ".jsonl") then Success([AsSession(item, itemPath)])
        else Success([]);
      match here
      case Failure(e) => Failure(e)
      case Success(found) => Prepend(found, JsonlItems(items[1..], path, excludingSubagents))
  }

  /** What `findSessionFiles` returns for the project folders of `base`. */
  function FoldersSpec(folders: seq<Node>, base: string, cutoff: Time): Result<seq<SessionFile>, FsError>
    decreases |folders|
  {
    if folders == [] then Success([])
    else
      var folder := folders[0];
      if !folder.Dir? || folder.mtime < cutoff then FoldersSpec(folders[1..], base, cutoff)
      else
        match JsonlIn(folder, AppendComponent(base, folder.name), true)
        case Failure(e) => Failure(e)
        case Success(files) => Prepend(Recent(files, cutoff), FoldersSpec(folders[1..], base, cutoff))
  }

  function FindSpec(fs: Fs, base: string, cutoff: Time): Result<seq<SessionFile>, FsError> {
    if base !in fs.trees then Success([])
    else
      var root := fs.trees[base];
      if !(root.Dir? && root.listable) then Failure(ListingFailed(base))
      else FoldersSpec(root.children, base, cutoff)
  }

  /** Every discovered transcript was modified at or after the cutoff. */
  lemma {:induction false} FoldersRecent(folders: seq<Node>, base: string, cutoff: Time)
    ensures var r := FoldersSpec(folders, base, cutoff);
            r.Success? ==> forall f :: f in r.value ==> f.modificationDate >= cutoff
    decreases |folders|
  {
    if folders != [] {
      FoldersRecent(folders[1..], base, cutoff);
    }
  }

  lemma FindRecent(fs: Fs, base: string, cutoff: Time)
    ensures var r := FindSpec(fs, base, cutoff);
            r.Success? ==> forall f :: f in r.value ==> f.modificationDate >= cutoff
  {
    if base in fs.trees && fs.trees[base].Dir? {
      FoldersRecent(fs.trees[base].children, base, cutoff);
    }
  }

  /** `p` is `base` followed by directory names other than "subagents" and
      a `.jsonl` file name. */
  predicate Below(base: string, p: string, rel: seq<string>) {
    |rel| > 0 && p == base + "/" + Join(rel, "/")
    && HasSuffix(rel[|rel| - 1], ".jsonl") && SubagentsFolder !in rel[..|rel| - 1]
  }

  /** Only `.jsonl` files are collected, and never from inside a "subagents"
      directory: every found path is `path` followed by directory names other
      than "subagents" and a `.jsonl` file name. */
  lemma {:induction false} JsonlInShape(n: Node, path: string, f: SessionFile)
    requires JsonlIn(n, path, true).Success? && f in JsonlIn(n, path, true).value
    ensures exists rel: seq<string> :: Below(path, f.path, rel)
    decreases n, 1
  {
    JsonlItemsShape(n.children, path, f);
  }

  lemma {:induction false} JsonlItemsShape(items: seq<Node>, path: string, f: SessionFile)
    requires JsonlItems(items, path, true).Success? && f in JsonlItems(items, path, true).value
    ensures exists rel: seq<string> :: Below(path, f.path, rel)
    decreases items, 0
  {
    var item := items[0];
    var itemPath := AppendComponent(path, item.name);
    var here :=
      if item.Dir? then
        (if item.name == SubagentsFolder then Success([]) else JsonlIn(item, itemPath, true))
      else if HasSuffix(item.name, ".jsonl") then Success([AsSession(item, itemPath)])
      else Success([]);
    assert here.Success?;
    var rest := JsonlItems(items[1..], path, true);
    assert rest.Success?;
    assert JsonlItems(items, path, true).value == here.value + rest.value;
    if f in here.value {
      if item.Dir? {
        JsonlSubdirShape(item, path, f);
      } else {
        assert f.path == path + "/" + Join([item.name], "/");
        assert [item.name][..0] == [];
        assert Below(path, f.path, [item.name]);
      }
    } else {
      JsonlItemsShape(items[1..], path, f);
    }
  }

  lemma {:induction false} JsonlSubdirShape(item: Node, path: string, f: SessionFile)
    requires item.Dir? && item.name != SubagentsFolder
    requires var sub := JsonlIn(item, AppendComponent(path, item.name), true);
             sub.Success? && f in sub.value
    ensures exists rel: seq<string> :: Below(path, f.path, rel)
    decreases item, 2
  {
    var itemPath := AppendComponent(path, item.name);
    JsonlInShape(item, itemPath, f);
    var rel' :| Below(itemPath, f.path, rel');
    BelowStep(path, item.name, f.path, rel');
  }

  /** A path below a subfolder other than "subagents" is below its parent. */
  lemma BelowStep(path: string, name: string, p: string, rel': seq<string>)
    requires name != SubagentsFolder && Below(path + "/" + name, p, rel')
    ensures Below(path, p, [name] + rel')
  {
    var rel := [name] + rel';
    JoinConcat([name], rel', "/");
    assert Join(rel, "/") == name + "/" + Join(rel', "/");
    assert rel[..|rel| - 1] == [name] + rel'[..|rel'| - 1];
  }

  /** `f` is a `.jsonl` file in the tree of directory `n` at `path`, reached
      through subdirectories none of which is skipped as "subagents". */
  ghost predicate Listed(n: Node, path: string, excludingSubagents: bool, f: SessionFile)
    decreases n, 1
  {
    n.Dir? && exists i :: 0 <= i < |n.children| && ListedVia(n, path, excludingSubagents, f, i)
  }

  /** ... through the `i`-th entry of `n`: that entry is the file, or a
      subdirectory not skipped whose tree lists it. */
  ghost predicate ListedVia(n: Node, path: string, excludingSubagents: bool, f: SessionFile, i: int)
    requires n.Dir? && 0 <= i < |n.children|
    decreases n, 0
  {
    var c := n.children[i];
    var cp := AppendComponent(path, c.name);
    || (c.File? && HasSuffix(c.name, ".jsonl") && f == AsSession(c, cp))
    || (c.Dir? && !(excludingSubagents && c.name == SubagentsFolder) && Listed(c, cp, excludingSubagents, f))
  }

  /** Each entry's contribution is part of a successful listing: a `.jsonl`
      file is found, and so is everything found below a subdirectory that
      is not skipped. */
  lemma {:induction false} JsonlItemsHas(items: seq<Node>, path: string, excludingSubagents: bool, i: nat)
    requires JsonlItems(items, path, excludingSubagents).Success? && i < |items|
    ensures var item := items[i];
            var itemPath := AppendComponent(path, item.name);
            var r := JsonlItems(items, path, excludingSubagents).value;
            && (item.File? && HasSuffix(item.name, ".jsonl") ==> AsSession(item, itemPath) in r)
            && (item.Dir? && !(excludingSubagents && item.name == SubagentsFolder) ==>
                  JsonlIn(item, itemPath, excludingSubagents).Success?
                  && forall g :: g in JsonlIn(item, itemPath, excludingSubagents).value ==> g in r)
    decreases |items|
  {
    var rest := JsonlItems(items[1..], path, excludingSubagents);
    assert rest.Success?;
    if i > 0 {
      assert items[1..][i - 1] == items[i];
      JsonlItemsHas(items[1..], path, excludingSubagents, i - 1);
    }
  }

  /** `findJSONLFiles` finds every `.jsonl` file of the tree, when the
      listing succeeds. */
  lemma {:induction false} JsonlInComplete(n: Node, path: string, excludingSubagents: bool, f: SessionFile)
    requires JsonlIn(n, path, excludingSubagents).Success? && Listed(n, path, excludingSubagents, f)
    ensures f in JsonlIn(n, path, excludingSubagents).value
    decreases n
  {
    var i :| 0 <= i < |n.children| && ListedVia(n, path, excludingSubagents, f, i);
    var c := n.children[i];
    JsonlItemsHas(n.children, path, excludingSubagents, i);
    if !(c.File? && HasSuffix(c.name, ".jsonl") && f == AsSession(c, AppendComponent(path, c.name))) {
      JsonlInComplete(c, AppendComponent(path, c.name), excludingSubagents, f);
    }
  }

  /** A recent transcript of a recent project folder is discovered. */
  lemma {:induction false} FoldersComplete(folders: seq<Node>, base: string, cutoff: Time, i: nat, f: SessionFile)
    requires FoldersSpec(folders, base, cutoff).Success? && i < |folders|
    requires folders[i].Dir? && folders[i].mtime >= cutoff
    requires Listed(folders[i], AppendComponent(base, folders[i].name), true, f) && f.modificationDate >= cutoff
    ensures f in FoldersSpec(folders, base, cutoff).value
    decreases |folders|
  {
    var folder := folders[0];
    var rest := FoldersSpec(folders[1..], base, cutoff);
    if i == 0 {
      var files := JsonlIn(folder, AppendComponent(base, folder.name), true);
      assert files.Success?;
      JsonlInComplete(folder, AppendComponent(base, folder.name), true, f);
      assert f in Recent(files.value, cutoff);
    } else {
      assert folders[1..][i - 1] == folders[i];
      if folder.Dir? && folder.mtime >= cutoff {
        assert rest.Success?;
      }
      FoldersComplete(folders[1..], base, cutoff, i - 1, f);
    }
  }

  /** Discovery is complete: when it succeeds, every transcript modified at
      or after the cutoff, in the tree of a project folder modified at or
      after the cutoff and outside "subagents", is among the files found. */
  lemma FindComplete(fs: Fs, base: string, cutoff: Time, folder: Node, f: SessionFile)
    requires FindSpec(fs, base, cutoff).Success?
    requires base in fs.trees && fs.trees[base].Dir? && folder in fs.trees[base].children
    requires folder.Dir? && folder.mtime >= cutoff
    requires Listed(folder, AppendComponent(base, folder.name), true, f) && f.modificationDate >= cutoff
    ensures f in FindSpec(fs, base, cutoff).value
  {
    var folders := fs.trees[base].children;
    var i :| 0 <= i < |folders| && folders[i] == folder;
    FoldersComplete(folders, base, cutoff, i, f);
  }

  /** Claude Code's provider object; its only state is the index cache. */
  class ClaudeProvider {
    var sessionIndexCache: map<string, SessionIndex>

    constructor ()
      ensures sessionIndexCache == map[]
    {
      sessionIndexCache := map[];
    }

    /** Every cached index is what the disk snapshot holds. */
    ghost predicate Coherent(fs: Fs, codec: ClaudeCodec)
      reads this
    {
      forall p :: p in sessionIndexCache ==> IndexSpec(fs, p, codec) == Some(sessionIndexCache[p])
    }

    method ClearCache()
      modifies this
      ensures sessionIndexCache == map[]
      ensures forall fs, codec :: Coherent(fs, codec)
    {
      sessionIndexCache := map[];
    }

    /** `loadSessionIndex`: memoised only when decoding succeeds. */
    method LoadSessionIndex(fs: Fs, path: string, codec: ClaudeCodec) returns (r: Option<SessionIndex>)
      modifies this
      ensures r == Lookup(old(sessionIndexCache), fs, path, codec)
      ensures sessionIndexCache
              == if path in old(sessionIndexCache) || r.None? then old(sessionIndexCache)
                 else old(sessionIndexCache)[path := r.value]
      ensures old(Coherent(fs, codec)) ==> Coherent(fs, codec) && r == IndexSpec(fs, path, codec)
    {
      if path in sessionIndexCache {
        return Some(sessionIndexCache[path]);
      }
      if !FileExists(fs, path) {
        return None;
      }
      var data := ReadData(fs, path);
      if data.None? {
        return None;
      }
      var index := codec.sessionIndex(data.value);
      if index.None? {
        return None;
      }
      sessionIndexCache := sessionIndexCache[path := index.value];
      return index;
    }

    method ResolveProjectName(fs: Fs, file: SessionFile, codec: ClaudeCodec) returns (name: string)
      modifies this
      ensures name == ProjectNameFrom(Lookup(old(sessionIndexCache), fs, IndexPath(file.path), codec), file.path)
      ensures old(Coherent(fs, codec)) ==>
                Coherent(fs, codec) && name == ProjectNameFrom(IndexSpec(fs, IndexPath(file.path), codec), file.path)
    {
      var projectFolder := Parent(file.path);
      var index := LoadSessionIndex(fs, AppendComponent(projectFolder, IndexFileName), codec);
      if index.Some? {
        var sessionId := Stem(file.path);
        var entry := FirstEntry(index.value.entries, sessionId);
        if entry.Some? && entry.value.projectPath.Some? {
          return LastComponent(entry.value.projectPath.value);
        }
      }
      var folderName := LastComponent(projectFolder);
      return ResolveFromFolderName(folderName);
    }

    method ResolveMetadata(fs: Fs, file: SessionFile, codec: ClaudeCodec) returns (md: SessionMetadata)
      modifies this
      ensures md == MetadataFrom(Lookup(old(sessionIndexCache), fs, IndexPath(file.path), codec), file.path)
      ensures old(Coherent(fs, codec)) ==>
                Coherent(fs, codec) && md == MetadataFrom(IndexSpec(fs, IndexPath(file.path), codec), file.path)
    {
      var sessionId := Stem(file.path);
      var shortSessionId := Take(sessionId, 8);
      var projectFolder := Parent(file.path);
      var cwd: Option<string> := None;
      var index := LoadSessionIndex(fs, AppendComponent(projectFolder, IndexFileName), codec);
      if index.Some? {
        var entry := FirstEntry(index.value.entries, sessionId);
        if entry.Some? {
          cwd := entry.value.projectPath;
        }
      }
      return SessionMetadata(shortSessionId, cwd);
    }
  }

  /** `parseMessages`: the lines after the cursor, decoded and filtered line
      by line and block by block. */
  method ParseMessages(fs: Fs, file: SessionFile, afterLine: nat, since: Option<Time>, codec: ClaudeCodec)
    returns (r: ParseResult)
    ensures r == ParseSpec(fs, file, afterLine, since, codec)
  {
    var content := ReadText(fs, file.path);
    if content.None? {
      return ParseResult([], afterLine);
    }
    var totalLines := LineCount(content.value);
    if totalLines <= afterLine {
      return ParseResult([], totalLines);
    }
    var allLines := Lines(content.value);
    var newLines := allLines[afterLine..totalLines];
    assert newLines == NewLines(content.value, afterLine);
    var messages: seq<ConversationMessage> := [];
    var i := 0;
    while i < |newLines|
      invariant 0 <= i <= |newLines|
      invariant messages == FlatMap(LineFn(since, codec), newLines[..i])
    {
      var line := newLines[i];
      assert newLines[..i + 1][..i] == newLines[..i];
      var lineMessages := DecodeLine(line, since, codec);
      messages := messages + lineMessages;
      i := i + 1;
    }
    assert newLines[..i] == newLines;
    return ParseResult(messages, totalLines);
  }

  /** The body of the parser's per-line loop: skip blank, malformed and
      non-conversation lines, then emit the surviving text blocks. */
  method DecodeLine(line: string, since: Option<Time>, codec: ClaudeCodec) returns (messages: seq<ConversationMessage>)
    ensures messages == LineMessages(line, since, codec)
  {
    messages := [];
    if IsBlank(line) {
      return;
    }
    var decoded := codec.message(line);
    if decoded.None? {
      return;
    }
    var m := decoded.value;
    if !(m.isUserMessage || m.isAssistantMessage) || !OnOrAfter(since, m.parsedTimestamp) || m.textBlocks == [] {
      return;
    }
    messages := DecodeBlocks(m);
  }

  /** The inner loop over one record's text blocks. */
  method DecodeBlocks(m: ClaudeMessage) returns (messages: seq<ConversationMessage>)
    ensures messages == FlatMap(BlockMessages(m), m.textBlocks)
  {
    messages := [];
    var role := if m.isUserMessage then User else Assistant;
    var j := 0;
    while j < |m.textBlocks|
      invariant 0 <= j <= |m.textBlocks|
      invariant messages == FlatMap(BlockMessages(m), m.textBlocks[..j])
    {
      var text := m.textBlocks[j];
      assert m.textBlocks[..j + 1][..j] == m.textBlocks[..j];
      if KeepBlock(m, text) {
        messages := messages + [ConversationMessage(role, text, m.parsedTimestamp)];
      }
      j := j + 1;
    }
    assert m.textBlocks[..j] == m.textBlocks;
  }

  /** `findJSONLFiles`, recursing into subdirectories. */
  method FindJSONLFiles(n: Node, path: string, excludingSubagents: bool) returns (r: Result<seq<SessionFile>, FsError>)
    ensures r == JsonlIn(n, path, excludingSubagents)
    decreases n
  {
    if !(n.Dir? && n.listable) {
      return Failure(ListingFailed(path));
    }
    var contents := n.children;
    var sessionFiles: seq<SessionFile> := [];
    var i := 0;
    assert contents[0..] == contents;
    PrependNothing(sessionFiles, JsonlItems(contents, path, excludingSubagents));
    while i < |contents|
      invariant 0 <= i <= |contents|
      invariant JsonlItems(contents, path, excludingSubagents)
                == Prepend(sessionFiles, JsonlItems(contents[i..], path, excludingSubagents))
    {
      var item := contents[i];
      var itemPath := AppendComponent(path, item.name);
      assert contents[i..][0] == item && contents[i..][1..] == contents[i + 1..];
      if item.Dir? {
        if !(excludingSubagents && item.name == SubagentsFolder) {
          var sub := FindJSONLFiles(item, itemPath, excludingSubagents);
          if sub.Failure? {
            return Failure(sub.error);
          }
          PrependTwice(sessionFiles, sub.value, JsonlItems(contents[i + 1..], path, excludingSubagents));
          sessionFiles := sessionFiles + sub.value;
        } else {
          PrependNothing(sessionFiles, JsonlItems(contents[i + 1..], path, excludingSubagents));
        }
      } else if HasSuffix(item.name, ".jsonl") {
        PrependTwice(sessionFiles, [AsSession(item, itemPath)], JsonlItems(contents[i + 1..], path, excludingSubagents));
        sessionFiles := sessionFiles + [AsSession(item, itemPath)];
      } else {
        PrependNothing(sessionFiles, JsonlItems(contents[i + 1..], path, excludingSubagents));
      }
      i := i + 1;
    }
    PrependNothing(sessionFiles, JsonlItems(contents[i..], path, excludingSubagents));
    return Success(sessionFiles);
  }

  /** `findSessionFiles`: recent transcripts in recently modified project folders. */
  method FindSessionFiles(fs: Fs, basePath: string, maxAge: int, now: Time) returns (r: Result<seq<SessionFile>, FsError>)
    ensures r == FindSpec(fs, basePath, now - maxAge)
  {
    var cutoff := now - maxAge;
    if basePath !in fs.trees {
      return Success([]);
    }
    var root := fs.trees[basePath];
    if !(root.Dir? && root.listable) {
      return Failure(ListingFailed(basePath));
    }
    var projectFolders := root.children;
    var sessionFiles: seq<SessionFile> := [];
    var i := 0;
    assert projectFolders[0..] == projectFolders;
    PrependNothing(sessionFiles, FoldersSpec(projectFolders, basePath, cutoff));
    while i < |projectFolders|
      invariant 0 <= i <= |projectFolders|
      invariant FoldersSpec(projectFolders, basePath, cutoff)
                == Prepend(sessionFiles, FoldersSpec(projectFolders[i..], basePath, cutoff))
    {
      var folder := projectFolders[i];
      assert projectFolders[i..][0] == folder && projectFolders[i..][1..] == projectFolders[i + 1..];
      if folder.Dir? && folder.mtime >= cutoff {
        var files := FindJSONLFiles(folder, AppendComponent(basePath, folder.name), true);
        if files.Failure? {
          return Failure(files.error);
        }
        var recent := KeepRecent(files.value, cutoff);
        PrependTwice(sessionFiles, recent, FoldersSpec(projectFolders[i + 1..], basePath, cutoff));
        sessionFiles := sessionFiles + recent;
      }
      i := i + 1;
    }
    PrependNothing(sessionFiles, FoldersSpec(projectFolders[i..], basePath, cutoff));
    return Success(sessionFiles);
  }
}
