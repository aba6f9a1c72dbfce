# chat2md incremental sync engine, modelled in Dafny

chat2md is a macOS menu-bar app. It turns the session transcripts of three
command-line AI assistants into Markdown notes in an Obsidian vault. The
assistants are Claude Code (JSONL files under `~/.claude/projects`), Gemini
CLI (JSON session objects or a legacy `logs.json` array under `~/.gemini/tmp`)
and Codex CLI (JSONL files under `~/.codex/sessions`). On every timer tick the
`SyncService` runs a sync cycle:

- it finds the recently modified transcripts of every enabled provider;
- it parses each one from a stored per-file cursor (a line count for JSONL, an
  element count for Gemini);
- it appends only the new, filtered messages to a note, writing a YAML
  frontmatter header first when the note is new;
- it moves the cursor forward only after a successful write;
- it records the cycle as one entry of a 48-entry history, which the
  status graph draws.

The model covers that core, one Dafny module per Swift file:

| file | module | Swift source |
|---|---|---|
| `sync.dfy` | `Sync` | `Services/SyncService.swift` |
| `claude_provider.dfy` | `ClaudeProviders` | `Providers/ClaudeProvider.swift` |
| `gemini_provider.dfy` | `GeminiProviders` | `Providers/GeminiProvider.swift` |
| `codex_provider.dfy` | `CodexProviders` | `Providers/CodexProvider.swift` |
| `gemini_messages.dfy` | `GeminiMessages` | `Models/GeminiMessage.swift` |
| `codex_messages.dfy` | `CodexMessages` | `Models/CodexMessage.swift` |
| `markdown.dfy` | `Markdown` | `Services/MarkdownConverter.swift` |
| `history.dfy` | `History` | `Models/SyncHistory.swift` |
| `status_graph.dfy` | `StatusGraph` | `Views/StatusGraphView.swift` (data part) |
| `settings.dfy` | `SettingsModel` | `Models/Settings.swift` |
| `registry.dfy` | `Registry` | `Providers/ProviderRegistry.swift` |
| `providers.dfy` | `Providers` | `Providers/Provider.swift` |
| `provider_types.dfy` | `ProviderTypes` | `Providers/ProviderType.swift` |

Shared helpers:

- `sessions.dfy` (`Sessions`) holds the records the providers exchange with the service.
- `json_lines.dfy` (`JsonLines`) holds the newline cursor shared by Claude and Codex.
- `file_system.dfy` (`FileSystem`) is a read-only disk snapshot.
- `paths.dfy` (`Paths`) and `strings.dfy` (`Strings`) are simplified Foundation path and string operations.
- `seqs.dfy` (`Seqs`) holds `FlatMap`, the shape of every "append the messages of each item" loop.
- `wrappers.dfy` (`Wrappers`) holds `Option` and `Result`.

How the Swift code is represented:

- **Mutable state becomes classes.** `SyncService`, `SyncHistory`, `Settings`,
  `ProviderRegistry`, `ClaudeProvider` and `GeminiProvider` are classes whose
  methods change their fields.
- **Loops become methods proved against functions.** Each loop is a method
  with loop invariants, proved equal to a function: `Cycle`, `ParseSpec`,
  `FindSpec`, `Convert`, `Added` and so on.
- **Properties are lemmas about those functions.** Examples: cursor
  monotonicity; a second cycle over an unchanged disk writing nothing and
  moving no cursor (`Sync.CycleIdempotent`, under the hypotheses listed
  under "Left out"); notes only growing at their end; the header never being
  written twice; discovery returning exactly the recent transcripts, up to
  the rules the providers themselves follow (Claude looks only in recent project
  folders and outside "subagents", Codex skips the files of a stale folder that
  lists a `.jsonl`); and the
  48-entry sliding window.
- **The `Provider` protocol is a datatype.** `Providers.AnyProvider` has one
  case per implementation, and its dispatch methods are proved against
  per-type specification functions.
- **`SyncState` is a map.** It goes from path to `(lastLine, lastSynced)`,
  with the operations `SyncService.swift` calls on it.
- **The vault is a map from note path to text.** It comes with a set of
  paths that cannot be written.
- **Ambient inputs are parameters.** All file contents, times, decoders and
  the home folder are passed in through `Sync.Env`.

## Model

| member | source | states |
|---|---|---|
| ProviderTypes.FromRaw | Chat2MD/Providers/ProviderType.swift:3-6 | `ProviderType(rawValue:)` returns a case exactly when that case's raw value is the string, and fails only when no case has it |
| ProviderTypes.RawRoundTrip | Chat2MD/Providers/ProviderType.swift:3-8 | decoding a case's raw value gives the case back, and `id` is the raw value |
| ProviderTypes.RawInjective | Chat2MD/Providers/ProviderType.swift:3-6 | two cases have the same raw value if and only if they are the same case |
| ProviderTypes.AllCasesComplete | Chat2MD/Providers/ProviderType.swift:3-6 | `allCases` contains every case, and no case twice |
| ProviderTypes.NamesDistinct | Chat2MD/Providers/ProviderType.swift:10-24 | display names, and likewise default paths, are equal only for the same case |
| Providers.ParseContract | Chat2MD/Providers/Provider.swift:34-40 | for each of the three providers, a parse that returns messages has moved `totalLines` past `afterLine`; a file missing from disk returns no messages and the cursor it was given |
| Providers.ParseSettled | Chat2MD/Providers/Provider.swift:34-40 | for each provider, parsing again from the cursor a parse returned yields no messages and that same cursor, so nothing is emitted twice |
| Providers.FindContract | Chat2MD/Providers/Provider.swift:27-32 | for each provider, every discovered file was modified at or after the cutoff; a missing base path yields no files and no error |
| Providers.ClearCache | Chat2MD/Providers/Provider.swift:52-53 | after `clearCache` the provider's caches agree with any disk snapshot |
| Providers.FindSessionFiles | Chat2MD/Providers/Provider.swift:32 | dispatch runs the discovery of the provider's own type with cutoff `now - maxAge` |
| Providers.ParseMessages | Chat2MD/Providers/Provider.swift:40 | dispatch returns the parse of the provider's own type |
| Providers.ResolveProjectName | Chat2MD/Providers/Provider.swift:45 | with caches that agree with the disk, the name is the provider type's name for the file and the caches still agree afterwards |
| Providers.ResolveMetadata | Chat2MD/Providers/Provider.swift:50 | with caches that agree with the disk, the metadata is the provider type's metadata for the file and the caches still agree afterwards |
| Registry.Select | Chat2MD/Providers/ProviderRegistry.swift:22-35 | a `compactMap` over provider types never yields more providers than types |
| Registry.SelectMembers | Chat2MD/Providers/ProviderRegistry.swift:22-35 | every selected provider is the one registered for a wanted type, and every registered provider of a wanted type is selected |
| Registry.SelectTypes | Chat2MD/Providers/ProviderRegistry.swift:22-35 | when each type is registered under its own type, the selection's types are exactly the wanted types, in order |
| Registry.ProviderRegistry.constructor | Chat2MD/Providers/ProviderRegistry.swift:7-12 | after `init` all three types are registered, each provider under its own type; Claude and Gemini get fresh, distinct objects and Claude an empty index cache |
| Registry.ProviderRegistry.Register | Chat2MD/Providers/ProviderRegistry.swift:14-16 | the provider is stored under its own type, replacing any earlier one and leaving the other entries alone |
| Registry.ProviderRegistry.Provider | Chat2MD/Providers/ProviderRegistry.swift:18-20 | gives a provider exactly for the registered types; that provider is the registered one and has the requested type |
| Registry.ProviderRegistry.AllProviders | Chat2MD/Providers/ProviderRegistry.swift:22-24 | lists only registered providers, in `allCases` order, and every registered provider is listed |
| Registry.ProviderRegistry.EnabledProviders | Chat2MD/Providers/ProviderRegistry.swift:26-35 | the loop returns the registered providers of the enabled types, in `allCases` order |
| Registry.EnabledShape | Chat2MD/Providers/ProviderRegistry.swift:26-35 | with all types registered, the enabled providers are those of the enabled types in `allCases` order; each of them also appears in `allProviders`, and no enabled type's provider is missing |
| Sync.EnabledLineup | Chat2MD/Providers/ProviderRegistry.swift:26-35 | the enabled providers line up one-to-one with the enabled types, each is registered, and no type appears twice |
| SettingsModel.OrganizationFromRaw | Chat2MD/Models/Settings.swift:4-6 | `OutputOrganization(rawValue:)` returns a case exactly when the string is that case's raw value |
| SettingsModel.DefaultsShape | Chat2MD/Models/Settings.swift:17-41 | out of the box only Claude Code is enabled, each provider's path is its `ProviderType.defaultPath`, the layout is flat, sync is on, the interval is 5 s and the window 60 min |
| SettingsModel.OrganizationRoundTrip | Chat2MD/Models/Settings.swift:24-27 | setting the layout stores its raw value, and reading it back gives the same layout |
| SettingsModel.PathSafeIff | Chat2MD/Models/Settings.swift:101-105 | a path is safe if and only if, after tilde expansion, it is absolute and none of its components is ".." |
| SettingsModel.DotDotAfterSeparator | Chat2MD/Models/Settings.swift:104 | a component after the first is ".." if and only if the text contains "/../" or ends with "/.." |
| SettingsModel.RelativeUnsafe | Chat2MD/Models/Settings.swift:101-105 | a path that is still relative after tilde expansion is never safe |
| SettingsModel.Settings.constructor | Chat2MD/Models/Settings.swift:17-41 | a new settings object holds the defaults |
| SettingsModel.Settings.SetOutputOrganization | Chat2MD/Models/Settings.swift:24-27 | reading the layout back gives the one set; only the stored raw value changes |
| SettingsModel.Settings.SetProviderEnabled | Chat2MD/Models/Settings.swift:62-76 | `isProviderEnabled(t)` becomes the given value; the other providers' switches, all paths and every other setting are unchanged |
| SettingsModel.Settings.SetPath | Chat2MD/Models/Settings.swift:78-92 | `path(for: t)` becomes the given path; the other paths, all switches and every other setting are unchanged |
| History.RawValues | Chat2MD/Models/SyncHistory.swift:27 | the stored provider strings are the providers' raw values, one per provider, in order |
| History.KnownTypesFrom | Chat2MD/Models/SyncHistory.swift:40-42 | every type `providerTypes` decodes comes from a stored raw value |
| History.KnownTypesRoundTrip | Chat2MD/Models/SyncHistory.swift:21-42 | decoding the raw values of a list of provider types gives the same list back |
| History.NewEntry | Chat2MD/Models/SyncHistory.swift:21-28 | a new entry carries the given status, count, error message and time, and its `providerTypes` are the given providers |
| History.Window | Chat2MD/Models/SyncHistory.swift:53-58 | the last `min(n, 48)` elements, in their original order |
| History.Added | Chat2MD/Models/SyncHistory.swift:47-58 | after `add` the history holds 1 to 48 entries and the new one is last; below capacity the old entries stay in place, at capacity exactly the oldest is dropped |
| History.AddedIsWindow | Chat2MD/Models/SyncHistory.swift:53-58 | one `add` gives the window of the old entries with the new one appended: the newest 48 entries of that sequence, so the new one is last and at most 47 old entries stay |
| History.AddedAllWindow | Chat2MD/Models/SyncHistory.swift:53-58 | after any run of adds to a bounded history, it holds the newest 48 of everything, in order (a sliding window) |
| History.Last | Chat2MD/Models/SyncHistory.swift:60-62 | there is no last entry exactly when the history is empty |
| History.SyncHistory.constructor | Chat2MD/Models/SyncHistory.swift:49-51 | a new history is empty |
| History.SyncHistory.Add | Chat2MD/Models/SyncHistory.swift:53-58 | append then `removeFirst` leaves exactly the entries `Added` describes |
| History.SyncHistory.Clear | Chat2MD/Services/SyncHistoryStore.swift:43-46 | clearing leaves an empty history |
| History.LastAfterAdd | Chat2MD/Models/SyncHistory.swift:53-62 | after `add(e)` the last entry is `e`, and after one more add `e` is second to last |
| StatusGraph.FilteredEntries | Chat2MD/Views/StatusGraphView.swift:17-32 | filtering never changes the number of entries |
| StatusGraph.FilteredShape | Chat2MD/Views/StatusGraphView.swift:17-32 | with no filter the entries are unchanged; with a filter, failures and skips are unchanged, a success is kept if and only if its providers include the filtered one, and any replaced entry is a skipped entry with no files and no providers |
| StatusGraph.RightAligned | Chat2MD/Views/StatusGraphView.swift:55-61 | with at most 48 entries, bar `i` is empty if and only if `i < 48 - n`; otherwise it shows entry `i - (48 - n)`, and the last bar shows the newest entry |
| StatusGraph.BarsCoverHistory | Chat2MD/Views/StatusGraphView.swift:55-61 | for a recorded history, whose cap is 48, every entry is shown in its own right-aligned bar |
| Markdown.GenerateFrontmatter | Chat2MD/Services/MarkdownConverter.swift:10-27 | the appended lines, joined by newlines, are `---`, date, provider, project, session, an optional cwd line, `---`, and an empty line |
| Markdown.LinesOneLine | Chat2MD/Services/MarkdownConverter.swift:15-24 | when the values are single-line, no frontmatter line contains a newline |
| Markdown.FrontmatterRoundTrip | Chat2MD/Services/MarkdownConverter.swift:15-26 | with single-line values, splitting the frontmatter text at its newlines gives back exactly its lines, in order |
| Markdown.FrontmatterDelimited | Chat2MD/Services/MarkdownConverter.swift:15-26 | the frontmatter opens with "---\n" and ends with "\n---\n", so the note body starts on a fresh line |
| Markdown.FrontmatterCwd | Chat2MD/Services/MarkdownConverter.swift:20-22 | a "cwd: " line is present if and only if the working directory is known |
| Markdown.MessageLines | Chat2MD/Services/MarkdownConverter.swift:36-48 | each message contributes at least its label, its content and two empty lines |
| Markdown.ConvertForAppend | Chat2MD/Services/MarkdownConverter.swift:33-51 | the loop's text is the per-message lines of all messages, in order, joined by newlines |
| Markdown.ConvertSingle | Chat2MD/Services/MarkdownConverter.swift:36-50 | one message renders as "**User**:" or "**name**:", a newline, an extra newline before a table, the content, and a blank line |
| Markdown.ConvertEmpty | Chat2MD/Services/MarkdownConverter.swift:33-51 | an empty batch renders as the empty string |
| Markdown.ConvertConcat | Chat2MD/Services/MarkdownConverter.swift:34-50 | two non-empty batches render together as the first rendering, one newline, then the second |
| Markdown.StripProviderPrefix | Chat2MD/Services/MarkdownConverter.swift:58-65 | no name starts with two provider prefixes; a name with one has exactly that prefix removed once; other names are kept |
| Markdown.SanitizeReplaces | Chat2MD/Services/MarkdownConverter.swift:77-80 | splitting at the nine invalid characters and joining with "-" replaces each one by "-", one for one; the length is kept and none of them is left |
| Markdown.GenerateFilename | Chat2MD/Services/MarkdownConverter.swift:53-75 | the prefix loop and sanitising give `date-provider-project-session.md` in the flat layout and `date-project-session.md` otherwise |
| Markdown.FilenameShape | Chat2MD/Services/MarkdownConverter.swift:68-74 | a file name starts with the date and a dash and ends in ".md"; it has no "/" when the date, provider id and session id have none, so the note lands directly in its folder |
| JsonLines.Lines | Chat2MD/Providers/ClaudeProvider.swift:90 | `components(separatedBy: "\n")` has one more part than the content has newlines |
| JsonLines.NewLines | Chat2MD/Providers/ClaudeProvider.swift:90-91 | the examined lines are exactly `totalLines - afterLine` lines, those of the split from index `afterLine` on |
| JsonLines.ParseCursor | Chat2MD/Providers/ClaudeProvider.swift:77-87 | an unreadable file returns no messages and `afterLine`; a readable one reports its newline count; no messages come back when that count is at most `afterLine`; messages come only with progress |
| JsonLines.NewLinesComplete | Chat2MD/Providers/ClaudeProvider.swift:90-91 | no examined line contains a newline, and the unterminated text after the last newline is never examined |
| JsonLines.LinesOfAppend | Chat2MD/Providers/ClaudeProvider.swift:82-91 | appending to a transcript adds the line counts, and leaves its already terminated lines as they were |
| JsonLines.ParseIncremental | Chat2MD/Providers/ClaudeProvider.swift:76-141 | parsing an appended transcript from cursor `k` gives the old content's messages from `k`, then those from the old line count on: nothing lost, nothing repeated |
| JsonLines.ParseAtCursor | Chat2MD/Providers/ClaudeProvider.swift:85-87 | parsing again from the cursor a parse returned yields no messages |
| ClaudeProviders.LineClean | Chat2MD/Providers/ClaudeProvider.swift:96-133 | every message one transcript line yields passes all the filters |
| ClaudeProviders.EmittedMessagesClean | Chat2MD/Providers/ClaudeProvider.swift:96-138 | every emitted message is non-empty and contains none of the seven system patterns; an assistant message never starts, ignoring case, with "no response requested"; no message is dated before `since` |
| ClaudeProviders.SinceFilter | Chat2MD/Providers/ClaudeProvider.swift:107-109 | a record dated before `since` contributes nothing; an undated user or assistant record is not filtered by date |
| ClaudeProviders.SkippedLines | Chat2MD/Providers/ClaudeProvider.swift:96-104 | blank lines, lines that do not decode, and records that are neither user nor assistant contribute nothing (and do not end the parse) |
| ClaudeProviders.FolderNameFallback | Chat2MD/Providers/ClaudeProvider.swift:225-230 | a folder name resolves to its last non-empty dash-separated run |
| ClaudeProviders.FirstEntry | Chat2MD/Providers/ClaudeProvider.swift:153 | `first(where:)` returns an index entry with the session id, and returns nothing only when no entry has it |
| ClaudeProviders.NameAgreesWithMetadata | Chat2MD/Providers/ClaudeProvider.swift:143-180 | the project name is the last component of the indexed project path when the metadata has one, and the folder-name fallback otherwise; the session id is the first 8 characters of the file stem |
| ClaudeProviders.FoldersRecent | Chat2MD/Providers/ClaudeProvider.swift:43-71 | every transcript found in the project folders was modified at or after the cutoff |
| ClaudeProviders.FindRecent | Chat2MD/Providers/ClaudeProvider.swift:32-74 | every discovered transcript was modified at or after the cutoff |
| ClaudeProviders.JsonlInShape | Chat2MD/Providers/ClaudeProvider.swift:188-214 | every file found is a `.jsonl` name below the folder, reached through directories none of which is named "subagents" |
| ClaudeProviders.JsonlItemsShape | Chat2MD/Providers/ClaudeProvider.swift:194-211 | same property for the loop over one folder's entries |
| ClaudeProviders.JsonlItemsHas | Chat2MD/Providers/ClaudeProvider.swift:194-211 | in a successful listing each `.jsonl` entry is found, and so is everything found below each subfolder not skipped as "subagents" |
| ClaudeProviders.JsonlInComplete | Chat2MD/Providers/ClaudeProvider.swift:188-214 | `findJSONLFiles` finds every `.jsonl` file of the folder's tree that lies outside "subagents", when the listing succeeds |
| ClaudeProviders.FoldersComplete | Chat2MD/Providers/ClaudeProvider.swift:43-71 | a transcript modified at or after the cutoff, in the tree of a project folder modified at or after the cutoff, is among those found |
| ClaudeProviders.FindComplete | Chat2MD/Providers/ClaudeProvider.swift:32-74 | discovery is complete: when it succeeds, it returns every recent transcript outside "subagents" of every recent project folder |
| ClaudeProviders.ClaudeProvider.constructor | Chat2MD/Providers/ClaudeProvider.swift:6 | a new provider has an empty session-index cache |
| ClaudeProviders.ClaudeProvider.ClearCache | Chat2MD/Providers/ClaudeProvider.swift:182-184 | the cache becomes empty, so it agrees with any disk snapshot |
| ClaudeProviders.ClaudeProvider.LoadSessionIndex | Chat2MD/Providers/ClaudeProvider.swift:232-246 | a cached index is returned as is; otherwise the index is read from disk and cached only when it decodes; with a cache that agrees with the disk, the result is what the disk holds |
| ClaudeProviders.ClaudeProvider.ResolveProjectName | Chat2MD/Providers/ClaudeProvider.swift:143-163 | the name comes from the index beside the transcript, looked up through the cache, and the cache still agrees with the disk afterwards |
| ClaudeProviders.ClaudeProvider.ResolveMetadata | Chat2MD/Providers/ClaudeProvider.swift:165-180 | the metadata comes from the index beside the transcript, looked up through the cache; the cache's agreement with the disk is kept |
| ClaudeProviders.ParseMessages | Chat2MD/Providers/ClaudeProvider.swift:76-141 | the nested loop returns the filtered messages of the lines after the cursor, in line then block order, with the newline count as the new cursor |
| ClaudeProviders.DecodeLine | Chat2MD/Providers/ClaudeProvider.swift:97-137 | one loop iteration yields exactly the messages of that line |
| ClaudeProviders.DecodeBlocks | Chat2MD/Providers/ClaudeProvider.swift:117-133 | the inner loop yields the surviving text blocks of one record, in order |
| ClaudeProviders.FindJSONLFiles | Chat2MD/Providers/ClaudeProvider.swift:188-214 | the recursion returns the `.jsonl` files below the folder in listing order, skips "subagents" when asked to, and fails when a listing fails |
| ClaudeProviders.FindSessionFiles | Chat2MD/Providers/ClaudeProvider.swift:32-74 | discovery returns the recent transcripts of the recently modified project folders; a missing base path yields none |
| FileSystem.Recent | Chat2MD/Providers/ClaudeProvider.swift:57-69 | a file is kept if and only if it was listed and was modified at or after the cutoff |
| FileSystem.KeepRecent | Chat2MD/Providers/ClaudeProvider.swift:57-69 | the per-file cutoff loop keeps exactly the recent files, in order |
| GeminiMessages.PartTexts | Chat2MD/Models/GeminiMessage.swift:60-63 | the part texts are exactly the texts of the parts that have one, and they are empty if and only if no part has text |
| GeminiMessages.GeminiMessage.TextContent | Chat2MD/Models/GeminiMessage.swift:60-63 | a legacy turn's text is absent if and only if no part has text |
| GeminiMessages.ChatMessageShape | Chat2MD/Models/GeminiMessage.swift:21-42 | a chat message is a user message if and only if its type is "user" and an assistant message if and only if it is "gemini", never both; the text is `content`; an absent timestamp parses to nothing |
| GeminiMessages.LegacyMessageShape | Chat2MD/Models/GeminiMessage.swift:52-58 | a legacy turn is a user turn if and only if its role is "user" and an assistant turn if and only if it is "model", never both |
| GeminiMessages.PartTextsConcat | Chat2MD/Models/GeminiMessage.swift:60-63 | part texts keep the parts' order |
| CodexMessages.BlockTexts | Chat2MD/Models/CodexMessage.swift:30-38 | the texts are exactly those of the `input_text` and `output_text` blocks that carry text |
| CodexMessages.CodexMessage.TextContent | Chat2MD/Models/CodexMessage.swift:30-38 | the text is absent if and only if the payload or its content is absent |
| CodexMessages.UserMessageShape | Chat2MD/Models/CodexMessage.swift:10-28 | a user turn is a `response_item` with role "user" and text that starts with no system prefix; a turn is an assistant turn if and only if it is a `response_item` with role "assistant"; no turn is both |
| CodexMessages.SystemPrefixFiltered | Chat2MD/Models/CodexMessage.swift:14-23 | a text starting with any of the four system prefixes is never a user turn |
| CodexMessages.BlockTextsConcat | Chat2MD/Models/CodexMessage.swift:30-38 | block texts keep the blocks' order |
| CodexMessages.TimestampAbsent | Chat2MD/Models/CodexMessage.swift:40-41 | an absent timestamp parses to nothing |
| GeminiProviders.ParseCursor | Chat2MD/Providers/GeminiProvider.swift:75-150 | an unreadable file, or one that decodes as neither format, keeps the cursor; the new format is tried before the legacy one; a decoded array reports its length; messages come only with progress |
| GeminiProviders.ParseArrayIncremental | Chat2MD/Providers/GeminiProvider.swift:93-150 | appending array elements loses and repeats no message across two incremental parses |
| GeminiProviders.NewFormatEmitted | Chat2MD/Providers/GeminiProvider.swift:104-121 | a chat message yields at most one message, exactly when its type is "user" or "gemini", its content is non-empty and it passes the date filter; the role is user if and only if the type is "user" |
| GeminiProviders.LegacyEmitted | Chat2MD/Providers/GeminiProvider.swift:137-147 | a legacy turn yields at most one undated message, exactly when it has non-empty text; the role is user if and only if the role field is "user" |
| GeminiProviders.HashAfterFirstTmp | Chat2MD/Providers/GeminiProvider.swift:179-190 | the project hash is the component right after the first "tmp" |
| GeminiProviders.NoTmpNoHash | Chat2MD/Providers/GeminiProvider.swift:179-190 | without a "tmp" component the project hash is empty |
| GeminiProviders.MetadataShape | Chat2MD/Providers/GeminiProvider.swift:152-171 | the session id has at most 8 characters and is a prefix of the decoded `sessionId`; without a decodable session it is the project name, which is the hash's first 8 characters; there is never a working directory |
| GeminiProviders.HashDirFilesShape | Chat2MD/Providers/GeminiProvider.swift:23-70 | every file one hash directory contributes is a recent `.json` file |
| GeminiProviders.ChatEntriesShape | Chat2MD/Providers/GeminiProvider.swift:36-53 | every file taken from a chats listing is a recent `.json` file |
| GeminiProviders.FindShape | Chat2MD/Providers/GeminiProvider.swift:9-73 | every discovered session file is a `.json` file modified at or after the cutoff |
| GeminiProviders.ChatFound | Chat2MD/Providers/GeminiProvider.swift:23-53 | discovery is complete for chats: every recent `.json` entry of the `chats` folder of a recent hash folder is found |
| GeminiProviders.LogFound | Chat2MD/Providers/GeminiProvider.swift:55-67 | discovery is complete for the legacy log: a recent `logs.json` of a recent hash folder is found |
| GeminiProviders.ParseElements | Chat2MD/Providers/GeminiProvider.swift:95-123 | the shared loop returns the messages of the elements from index `afterLine` on, in order, with the array length as the new cursor |
| GeminiProviders.ParseNewFormat | Chat2MD/Providers/GeminiProvider.swift:93-124 | the new-format parse examines the chat messages after the cursor |
| GeminiProviders.ParseLegacyFormat | Chat2MD/Providers/GeminiProvider.swift:126-150 | the legacy parse examines the turns after the cursor |
| GeminiProviders.ParseMessages | Chat2MD/Providers/GeminiProvider.swift:75-91 | the dispatch tries the new format, then the legacy one, and keeps the cursor otherwise |
| GeminiProviders.ScanHashDir | Chat2MD/Providers/GeminiProvider.swift:26-69 | one hash directory yields its recent chats, then a recent `logs.json` |
| GeminiProviders.ScanHashDirs | Chat2MD/Providers/GeminiProvider.swift:23-70 | the loop collects the files of every hash directory, in listing order |
| GeminiProviders.FindSessionFiles | Chat2MD/Providers/GeminiProvider.swift:9-73 | discovery with cutoff `now - maxAge`; a missing base path yields none |
| GeminiProviders.GeminiProvider.constructor | Chat2MD/Providers/GeminiProvider.swift:7 | the message-count table starts empty |
| GeminiProviders.GeminiProvider.ClearCache | Chat2MD/Providers/GeminiProvider.swift:173-175 | the message-count table becomes empty |
| CodexProviders.LineClean | Chat2MD/Providers/CodexProvider.swift:92-120 | a line yields at most one message, and it passes the filters |
| CodexProviders.EmittedMessagesClean | Chat2MD/Providers/CodexProvider.swift:92-120 | every emitted message is non-empty and not dated before `since`, and a user message never starts with a system prefix |
| CodexProviders.SystemTurnSkipped | Chat2MD/Providers/CodexProvider.swift:100-109 | a user turn whose text starts with a system prefix contributes nothing |
| CodexProviders.StaleLeafSkipped | Chat2MD/Providers/CodexProvider.swift:43-53 | a folder whose listing holds a `.jsonl` name and that is older than the cutoff contributes no files, however recent they are |
| CodexProviders.JsonlInShape | Chat2MD/Providers/CodexProvider.swift:37-70 | every file found is a `.jsonl` name strictly below the folder |
| CodexProviders.JsonlItemsShape | Chat2MD/Providers/CodexProvider.swift:55-67 | same property for the loop over one folder's entries |
| CodexProviders.JsonlItemsHas | Chat2MD/Providers/CodexProvider.swift:55-67 | in a successful listing each `.jsonl` entry is found, and so is everything found below each subfolder |
| CodexProviders.EntersFolder | Chat2MD/Providers/CodexProvider.swift:43-67 | a folder listing no `.jsonl` name is always recursed, whatever its age, as is a recent one: its `.jsonl` files and everything its subfolders yield are in its result |
| CodexProviders.JsonlInComplete | Chat2MD/Providers/CodexProvider.swift:37-70 | the recursion finds every `.jsonl` file of the tree that no stale leaf folder hides, when the listing succeeds |
| CodexProviders.FindComplete | Chat2MD/Providers/CodexProvider.swift:6-35 | discovery is complete: when it succeeds, it returns every recent `.jsonl` file below the base path that no stale leaf folder hides |
| CodexProviders.FindShape | Chat2MD/Providers/CodexProvider.swift:6-35 | every discovered file is a `.jsonl` file below the base path, modified at or after the cutoff |
| CodexProviders.ShortSessionId | Chat2MD/Providers/CodexProvider.swift:145-146 | the short id is the last (at most 12) characters of the file stem |
| CodexProviders.NameAgreesWithMetadata | Chat2MD/Providers/CodexProvider.swift:125-160 | the project name starts with "codex-"; it is "codex-" plus the cwd's last component when the metadata has a cwd, and "codex-" plus the short session id otherwise |
| CodexProviders.NoMetaNoCwd | Chat2MD/Providers/CodexProvider.swift:143-160 | without a readable first-line `session_meta` record there is no cwd, and the name falls back to the short id |
| CodexProviders.DecodeLine | Chat2MD/Providers/CodexProvider.swift:93-119 | one loop iteration yields exactly the messages of that line |
| CodexProviders.ParseMessages | Chat2MD/Providers/CodexProvider.swift:72-123 | the loop returns the filtered records of the lines after the cursor, in line order, with the newline count as the new cursor |
| CodexProviders.FindJSONLFiles | Chat2MD/Providers/CodexProvider.swift:37-70 | the recursion skips stale leaf folders, always enters other folders, and fails when a listing fails |
| CodexProviders.FindSessionFiles | Chat2MD/Providers/CodexProvider.swift:6-35 | discovery keeps the recent files among those found; a missing base path yields none |
| Sync.CleanupOrphans | Chat2MD/Services/SyncService.swift:205 | a cursor survives if and only if its transcript still exists, and surviving cursors are unchanged |
| Sync.MaxAge | Chat2MD/Services/SyncService.swift:131-142 | on a cold start (no cursors) the window reaches back to the start of the day; otherwise it is the configured minutes times 60 |
| Sync.AppendShape | Chat2MD/Services/SyncService.swift:215-257 | the write fails exactly for an unwritable note and then changes nothing; a new note is the frontmatter followed by the content, an existing note gets the content at its end and no second header, no other note changes; flat notes lie in the destination, subfolder notes in `destination/<provider>` |
| Sync.WriteStepShape | Chat2MD/Services/SyncService.swift:185-196 | a failed write changes neither cursors nor notes; a successful one stores the new cursor and only appends to notes |
| Sync.WriteCursor | Chat2MD/Services/SyncService.swift:185-196 | a write either fails and changes nothing, or succeeds and stores exactly the parse's line count for the file |
| Sync.ParsedShape | Chat2MD/Services/SyncService.swift:170-196 | after a parse with progress, cursors never move back, notes only grow at their end, and a written note moves the file's cursor past `lastLine` |
| Sync.ParsedCursor | Chat2MD/Services/SyncService.swift:173-196 | after a parse the step changes nothing or leaves the cursor at the parse's line count; a failed write changes nothing |
| Sync.FileStepShape | Chat2MD/Services/SyncService.swift:156-197 | per transcript, cursors never move back and notes only grow at their end; small or unmodified files change nothing; a failed write changes nothing; a write moves the cursor forward |
| Sync.StepCursor | Chat2MD/Services/SyncService.swift:156-197 | per transcript, the step changes nothing or leaves the cursor where the parse stopped |
| Sync.SettledStep | Chat2MD/Services/SyncService.swift:167-179 | a transcript whose cursor already covers everything it holds changes nothing |
| Sync.FileStepIdempotent | Chat2MD/Services/SyncService.swift:156-197 | handing the same transcript to the loop a second time writes nothing and leaves the sync state and the notes exactly as the first pass left them; a write that failed fails again |
| Sync.StepAgain | Chat2MD/Services/SyncService.swift:156-197 | a transcript met again with the cursor entry its first pass left (or none, the file being gone from disk) changes nothing, whatever the other entries and notes are, and fails again exactly when the first pass failed |
| Sync.StepLocal | Chat2MD/Services/SyncService.swift:173-196 | a transcript's step changes only that transcript's cursor entry |
| Sync.RunFilesLocal | Chat2MD/Services/SyncService.swift:153-201 | a provider's file loop changes only the entries of the transcripts it visits |
| Sync.RunFilesReplay | Chat2MD/Services/SyncService.swift:153-201 | with distinct transcript paths, running a provider's files again from the entries the first run left changes nothing and counts nothing, including when the first run stopped at a failed write |
| Sync.StepWellBehaved | Chat2MD/Services/SyncService.swift:156-197 | every per-file step keeps cursors monotone and notes append-only, and leaves the vault alone when it writes nothing |
| Sync.RunFilesShape | Chat2MD/Services/SyncService.swift:153-201 | the per-file loop, including its early exit on a failed write, keeps cursors monotone and notes append-only |
| Sync.RunFilesCount | Chat2MD/Services/SyncService.swift:185-201 | the synced count never drops, only this provider joins the synced set, and a pass that counted nothing left the vault alone |
| Sync.ProviderStepWellBehaved | Chat2MD/Services/SyncService.swift:145-202 | every provider pass, including one with an unsafe path or a failed discovery, keeps all these properties |
| Sync.RunProvidersShape | Chat2MD/Services/SyncService.swift:145-202 | over all providers, cursors are monotone, notes append-only, the count never drops, only visited providers join the synced set, and a loop that counted nothing left the vault alone |
| Sync.RunProvidersLocal | Chat2MD/Services/SyncService.swift:145-202 | the provider loop changes only the entries of the transcripts it visits |
| Sync.RunProvidersReplay | Chat2MD/Services/SyncService.swift:145-202 | with distinct transcript paths across providers, running the provider loop again from the entries the first loop left changes nothing and counts nothing |
| Sync.LoopReplay | Chat2MD/Services/SyncService.swift:145-205 | the provider loop run again from what the orphan cleanup left changes nothing |
| Sync.EnabledTypesEnabled | Chat2MD/Services/SyncService.swift:124 | every provider the cycle visits is enabled |
| Sync.FinishShape | Chat2MD/Services/SyncService.swift:203-212 | a cycle that ran reports success; its watching count is the number of surviving cursors, each for a file that exists; every synced provider was visited; a result with zero files left the vault unchanged |
| Sync.CycleShape | Chat2MD/Services/SyncService.swift:116-213 | over a whole cycle every surviving cursor is at least where it was, and every note keeps its text as a prefix while new notes start with the frontmatter; a success watches only existing files, lists only enabled providers, and when it reports zero files it left the vault alone |
| Sync.CycleIdempotent | Chat2MD/Services/SyncService.swift:116-213 | a second cycle over the same disk and clock, choosing the same lookback window and visiting no transcript twice, writes no note, moves no cursor and reports zero synced files: the cycle is idempotent |
| Sync.CycleSucceeds | Chat2MD/Services/SyncService.swift:117-120 | a cycle that returns success passed the destination check |
| Sync.CycleUnfold | Chat2MD/Services/SyncService.swift:116-212 | a cycle past the destination check runs the enabled providers in order, from the stored cursors, with the window chosen from whether the state is empty, and then finishes |
| Sync.WarmAgain | Chat2MD/Services/SyncService.swift:136-212 | a cycle run on what a provider loop and cleanup left, choosing the same window and visiting no transcript twice, writes nothing, keeps every cursor and reports zero files |
| Sync.CycleQuiet | Chat2MD/Services/SyncService.swift:116-212 | a cycle whose provider loop changes nothing, over cursors for existing transcripts only, reports zero files and no providers and keeps state and vault |
| Sync.FinishQuiet | Chat2MD/Services/SyncService.swift:203-212 | a cycle that changed nothing, over cursors for existing files only, reports zero files, no providers and keeps every cursor |
| Sync.DisabledSkips | Chat2MD/Services/SyncService.swift:75-78 | with sync off, exactly one skipped entry is recorded and cursors and notes are untouched |
| Sync.InvalidDestinationFails | Chat2MD/Services/SyncService.swift:118-120 | an unsafe destination fails the cycle before any provider runs; one failure entry with the path-traversal message is recorded and nothing else changes |
| Sync.OutcomeRecorded | Chat2MD/Services/SyncService.swift:95-99 | a cycle that ran is recorded as a success with its count and providers if and only if it synced at least one file, and as skipped otherwise |
| Sync.ResetIsColdStart | Chat2MD/Services/SyncService.swift:62-72 | the sync a reset runs, when enabled and with a safe destination, runs the providers from no cursors with the start of the day as cutoff, and its cursors and notes are that loop's, after the orphan cleanup |
| Sync.SyncService.constructor | Chat2MD/Services/SyncService.swift:28-31 | the service starts with the given settings and the stored sync state, an empty history and a fully registered provider table |
| Sync.SyncService.PerformSync | Chat2MD/Services/SyncService.swift:74-108 | cursors, notes and history become what `performSync` specifies for the settings in force: the cycle's outcome and one history entry; with sync disabled or an unsafe destination no provider object changes |
| Sync.SyncService.RecordOutcome | Chat2MD/Services/SyncService.swift:95-105 | one history entry is added for the cycle's result: failure with its message, success with its count and providers, or skipped |
| Sync.SyncService.ResetState | Chat2MD/Services/SyncService.swift:62-72 | cursors and history are cleared, then a sync runs from that cold state; with sync disabled or an unsafe destination no provider object changes |
| Sync.SyncService.SyncAndRecord | Chat2MD/Services/SyncService.swift:87-106 | cursors and notes become the cycle's and one history entry records its outcome; an unsafe destination leaves every provider object untouched |
| Sync.SyncService.SyncAllSessions | Chat2MD/Services/SyncService.swift:116-213 | the result, cursors and notes are exactly the cycle the settings in force specify; an unsafe destination returns before any provider cache is cleared, leaving every provider object untouched |
| Sync.SyncService.RunCycle | Chat2MD/Services/SyncService.swift:122-212 | after the destination check, the provider loop over the enabled types, finished |
| Sync.SyncService.PrepareProviders | Chat2MD/Services/SyncService.swift:124-129 | the enabled providers line up with the enabled types, cursors and notes are untouched, and every cache is cleared before discovery |
| Sync.SyncService.ClearCaches | Chat2MD/Services/SyncService.swift:127-129 | after the loop every enabled provider's cache agrees with the disk |
| Sync.SyncService.RunEnabled | Chat2MD/Services/SyncService.swift:131-212 | the provider loop with its running count and synced set, the orphan cleanup and the result, all as the cycle specifies |
| Sync.SyncService.SyncProvider | Chat2MD/Services/SyncService.swift:146-201 | one provider's pass is as specified: an unsafe path or a failed discovery skips the provider, otherwise its files run |
| Sync.SyncService.SyncProviderFiles | Chat2MD/Services/SyncService.swift:153-201 | the per-file loop, where a failed write ends this provider's pass and keeps what earlier files did |
| Sync.SyncService.SyncFile | Chat2MD/Services/SyncService.swift:156-197 | one file is skipped, has its cursor moved, or is written, exactly as the per-file step specifies |
| Sync.SyncService.ReadSession | Chat2MD/Services/SyncService.swift:167-170 | a due file is parsed from its cursor with `since` the start of the day, then handled |
| Sync.SyncService.HandleParsed | Chat2MD/Services/SyncService.swift:173-196 | no messages only moves the cursor; new messages are written |
| Sync.SyncService.MoveCursor | Chat2MD/Services/SyncService.swift:173-179 | with no messages, the cursor moves to the line count only when that is beyond it, and the notes do not change |
| Sync.SyncService.WriteNew | Chat2MD/Services/SyncService.swift:181-196 | resolving the names and writing is the specified write step |
| Sync.SyncService.ResolveSession | Chat2MD/Services/SyncService.swift:181-182 | the project name and metadata are the provider's, and cursors and notes are unchanged |
| Sync.SyncService.WriteSession | Chat2MD/Services/SyncService.swift:185-196 | the append, then the cursor update only on success |
| Sync.SyncService.Commit | Chat2MD/Services/SyncService.swift:192-196 | the cursor is stored only when the write succeeded, which counts the file as synced; the notes do not change |
| Sync.SyncService.AppendMarkdown | Chat2MD/Services/SyncService.swift:215-257 | the notes become what the header-or-append write specifies (see `Sync.AppendShape`), an unwritable note gives an error and changes nothing, and cursors are untouched |

## Left out

- Timers, dispatch queues and the `@Published` UI state (`status`, `lastSyncTime`, `lastError`, `watchingProjectsCount`) are left out. `startPeriodicSync`, `stopPeriodicSync` and `syncNow` are only scheduling. `performSync` is modelled as one sequential cycle followed by its history entry.
- Clocks are inputs. `Date()` and `startOfDay` are inputs of the cycle (`Env.now`, `Env.todayStart`). The "yyyy-MM-dd" text is an input too (`Env.date`), so the frontmatter date and the file name date are one value per cycle. Every history entry and every cursor update is stamped with `Env.now` rather than a fresh `Date()`.
- The settings are read once per cycle, as one snapshot (`Settings.Snapshot()`). The Swift code reads the `@AppStorage` values afresh at each use, and a concurrent change could be seen part-way through a cycle.
- JSON decoding and ISO-8601 parsing are parameters: `ClaudeCodec`, `GeminiCodec`, `CodexCodec` and `Codec`, functions of the raw text. A malformed record is `None`. Decoding a `GeminiLogFile` (Chat2MD/Models/GeminiMessage.swift:71-78) is the codec parameter `GeminiCodec.log`, which returns its `messages`.
- Foundation path helpers are approximations in `Paths`: split on "/", ignore empty segments, and expand `~` and `~/` only. Normalisation of ".", "..", symbolic links, `~user` and trailing slashes is not modelled, and neither are `URL` percent-encoding or the `.jsonl` and `.json` extension checks beyond `hasSuffix`.
- Strings are sequences of characters. Swift's grapheme clusters, Unicode case folding in `lowercased()` (only ASCII letters are lowered) and the exact `CharacterSet.whitespaces` set (tab and space separators are modelled) are approximations.
- The disk is a read-only snapshot per cycle (`FileSystem.Fs`). Directory trees carry names, kinds, modification dates, sizes and whether a listing succeeds. File contents are kept with a UTF-8 flag.
  - A failing `attributesOfItem` for a folder or file inside a listing is not modelled separately; every listed entry has attributes.
  - `fileExists(atPath:isDirectory:)` on a listed entry is taken to succeed.
- The vault is a map from note path to text, with a set of paths that cannot be written. Directory creation, atomic writes, file handles and partial writes are abstracted into "the note is written" or "the write fails and changes nothing".
- SyncState.swift is not part of this model. The sync state is the map `path -> (lastLine, lastSynced)` with the operations `SyncService.swift` calls. Its JSON load and save are left out, and so is `cleanupOrphans` beyond "drop entries whose file no longer exists in the snapshot". `FileSystem.FileExists` is membership in the map of files that can be opened, so a transcript that exists but cannot be read counts as gone: the cleanup drops its cursor, where `fileExists(atPath:)` would keep it, and the file is parsed from line 0 once it becomes readable.
- SessionMetadata.swift, ClaudeMessage.swift and ConversationMessage.swift are not part of this model. Their records are datatypes carrying the fields the core reads (`Sessions`, `ClaudeProviders.ClaudeMessage`). The Claude record's `isUserMessage`, `isAssistantMessage`, `parsedTimestamp` and text blocks are inputs.
- Sync.CycleIdempotent: proved only when both cycles pick the same lookback window and no transcript is visited twice in one cycle. Both hypotheses are needed. The window comes from whether the sync state is empty (Chat2MD/Services/SyncService.swift:136-142). A cold cycle shortly after midnight reaches back only to the start of the day. A warm cycle that follows reaches back `sessionMaxAgeMinutes` and can pick up older transcripts the cold one skipped. Two providers may be configured with overlapping folders, so the same `.jsonl` transcript can be visited by Claude and by Codex. Then a failed write in the first provider's pass, followed by a successful write of that transcript in the second, lets the next cycle skip the file in the first pass and continue to files the failed pass never reached. Both cycles are also assumed to see the same disk and clock.
- `Sync.SyncedList`: the Swift code returns `Array(syncedProviders)` from a `Set`, whose order is unspecified. The model lists the set in `allCases` order.
- `SyncHistoryStore.swift` is left out (JSON load and save of the history, and the `addSuccess`, `addFailure` and `addSkipped` wrappers). Only `clear`, which `resetState` uses, is modelled, as `History.SyncHistory.Clear`.
- `SyncHistoryEntry.init(from:)` decodes stored JSON and is left out. A history entry's `UUID` is left out.
- `GeminiProvider.lastMessageCounts` is declared and cleared but never filled or read. It is modelled as an empty map that `ClearCache` keeps empty.
- SwiftUI is left out: `SettingsView`, `MenuBarView`, and the colours, hover and tooltips of `StatusGraphView`. The status graph's `filteredEntries` and `entryForBar` are modelled.
- `OutputOrganization.description` and the deprecated `claudeProjectsPath` and `isClaudeProjectsPathValid` accessors are display and compatibility text. They are left out.
