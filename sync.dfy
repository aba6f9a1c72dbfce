/** `SyncService`: one sync cycle over every enabled provider, the per-file
    cursor discipline, the header-or-append write into the vault, and the
    history entry each cycle leaves. */
module Sync {
  import opened Wrappers
  import opened Strings
  import opened Paths
  import opened Sessions
  import opened FileSystem
  import opened ProviderTypes
  import opened Providers
  import opened SettingsModel
  import opened Registry
  import opened Markdown
  import History

  /** Transcripts smaller than this are not synced. */
  const SessionMinSizeBytes: int := 1000

  /** What the sync state stores per transcript path. */
  datatype SessionState = SessionState(lastLine: nat, lastSynced: Time)

  type SyncState = map<string, SessionState>

  /** `getLastLine(for:)`: 0 for a path never synced. */
  function LastLine(state: SyncState, path: string): nat {
    if path in state then state[path].lastLine else 0
  }

  /** `getLastSyncedTimestamp(for:)`. */
  function LastSynced(state: SyncState, path: string): Option<Time> {
    if path in state then Some(state[path].lastSynced) else None
  }

  /** `updateSession(_:lastLine:)`, stamped with the cycle's clock. */
  function UpdateSession(state: SyncState, path: string, lastLine: nat, now: Time): SyncState {
    state[path := SessionState(lastLine, now)]
  }

  /** `cleanupOrphans`: the entries whose transcript no longer exists are dropped. */
  function CleanupOrphans(state: SyncState, fs: Fs): (r: SyncState)
    ensures forall p :: p in r <==> p in state && FileExists(fs, p)
    ensures forall p :: p in r ==> r[p] == state[p]
  {
    map p | p in state && FileExists(fs, p) :: state[p]
  }

  datatype SyncError = ProjectsPathNotFound | DestinationPathNotFound | InvalidPath(name: string)

  /** `errorDescription`. */
  function ErrorDescription(e: SyncError): string {
    match e
    case ProjectsPathNotFound => "Claude projects path not found"
    case DestinationPathNotFound => "Destination path not found"
    case InvalidPath(name) => name + " contains invalid characters (path traversal not allowed)"
  }

  /** A failed directory creation, write or file-handle open for a note. */
  datatype WriteError = WriteFailed(path: string)

  /** Everything a cycle reads besides the settings, the sync state and the
      vault: the disk snapshot, the decoders, the clock (`now`, the start of
      the day and the day's "yyyy-MM-dd" text), the home folder, and the
      notes that cannot be written. */
  datatype Env = Env(
    fs: Fs,
    codec: Codec,
    now: Time,
    todayStart: Time,
    date: string,
    home: string,
    unwritable: set<string>)

  datatype SyncResult = SyncResult(syncedCount: nat, watchingCount: nat, syncedProviders: seq<ProviderType>)

  /** The folder a provider's notes go to. */
  function NoteFolder(config: Config, home: string, t: ProviderType): string {
    var base := config.ExpandedDestinationPath(home);
    match config.OutputOrganization()
    case Flat => base
    case Subfolder => AppendComponent(base, RawValue(t))
  }

  /** The note a session's messages go to. */
  function NotePath(config: Config, home: string, t: ProviderType, projectName: string, metadata: SessionMetadata, date: string): string {
    AppendComponent(NoteFolder(config, home, t),
                    Filename(projectName, metadata.sessionId, date, RawValue(t), config.OutputOrganization() == Flat))
  }

  function Frontmatter(t: ProviderType, projectName: string, metadata: SessionMetadata, date: string): string {
    Join(FrontmatterLines(t, projectName, metadata, date), "\n")
  }

  /** `appendMarkdown` on the vault's notes. */
  function AppendSpec(config: Config, env: Env, vault: map<string, string>, messages: seq<ConversationMessage>,
                      projectName: string, t: ProviderType, displayName: string, metadata: SessionMetadata)
    : Result<map<string, string>, WriteError>
  {
    var path := NotePath(config, env.home, t, projectName, metadata, env.date);
    var content := Convert(messages, displayName);
    if path in env.unwritable then Failure(WriteFailed(path))
    else if path !in vault then Success(vault[path := Frontmatter(t, projectName, metadata, env.date) + content])
    else Success(vault[path := vault[path] + content])
  }

  /** A new note is the frontmatter followed by the messages; an existing note
      gets the messages appended at its end and no second header; no other
      note changes; a failed write changes nothing. Flat notes lie directly
      in the destination, subfolder notes in the provider's folder under it. */
  lemma AppendShape(config: Config, env: Env, vault: map<string, string>, messages: seq<ConversationMessage>,
                    projectName: string, t: ProviderType, displayName: string, metadata: SessionMetadata)
    ensures var path := NotePath(config, env.home, t, projectName, metadata, env.date);
            var content := Convert(messages, displayName);
            var r := AppendSpec(config, env, vault, messages, projectName, t, displayName, metadata);
            && (r.Failure? <==> path in env.unwritable)
            && (r.Success? ==>
                  && r.value.Keys == vault.Keys + {path}
                  && (forall p :: p in vault && p != path ==> r.value[p] == vault[p])
                  && (path in vault ==> r.value[path] == vault[path] + content)
                  && (path !in vault ==> HasPrefix(r.value[path], Delimiter + "\n")
                                         && HasSuffix(r.value[path], content)))
    ensures var base := config.ExpandedDestinationPath(env.home);
            var flat := config.OutputOrganization() == Flat;
            var name := Filename(projectName, metadata.sessionId, env.date, RawValue(t), flat);
            NotePath(config, env.home, t, projectName, metadata, env.date)
            == if flat then base + "/" + name else base + "/" + RawValue(t) + "/" + name
  {
    var path := NotePath(config, env.home, t, projectName, metadata, env.date);
    var content := Convert(messages, displayName);
    var header := Frontmatter(t, projectName, metadata, env.date);
    FrontmatterDelimited(t, projectName, metadata, env.date);
    PrefixOfPrefix(header + content, header, Delimiter + "\n");
    SuffixOfAppend(header, content, content);
  }

  /** The inputs of one cycle, fixed before the first provider runs. */
  datatype Ctx = Ctx(config: Config, env: Env, cutoff: Time)

  /** What one transcript does to the cycle: the new sync state and vault,
      whether a note was written, and whether the write failed (which ends the
      provider's pass). */
  datatype FileOutcome = FileOutcome(state: SyncState, vault: map<string, string>, appended: bool, failed: bool)

  /** The body of the per-file loop of `syncAllSessions`. */
  function FileStep(ctx: Ctx, t: ProviderType, state: SyncState, vault: map<string, string>, file: SessionFile): FileOutcome {
    var env := ctx.env;
    var lastSynced := LastSynced(state, file.path);
    if file.size < SessionMinSizeBytes then FileOutcome(state, vault, false, false)
    else if lastSynced.Some? && file.modificationDate <= lastSynced.value then FileOutcome(state, vault, false, false)
    else ReadStep(ctx, t, state, vault, file)
  }

  /** A transcript that is due: parse past the cursor, then move the cursor
      or write the new messages. */
  function ReadStep(ctx: Ctx, t: ProviderType, state: SyncState, vault: map<string, string>, file: SessionFile): FileOutcome {
    var env := ctx.env;
    ParsedStep(ctx, t, state, vault, file, ParseSpec(t, env.fs, file, LastLine(state, file.path), Some(env.todayStart), env.codec))
  }

  /** What the parse found decides: no new messages only move the cursor
      past the lines read, new messages are written. */
  function ParsedStep(ctx: Ctx, t: ProviderType, state: SyncState, vault: map<string, string>, file: SessionFile, result: ParseResult)
    : FileOutcome
  {
    var env := ctx.env;
    var lastLine := LastLine(state, file.path);
    if result.messages == [] then
      var state' := if result.totalLines > lastLine then UpdateSession(state, file.path, result.totalLines, env.now) else state;
      FileOutcome(state', vault, false, false)
    else WriteStep(ctx, t, state, vault, file, result, NameSpec(t, env.fs, file, env.codec), MetadataSpec(t, env.fs, file, env.codec))
  }

  /** New messages of the session named `projectName`: write them, and store
      the new cursor only when the write succeeded. */
  function WriteStep(ctx: Ctx, t: ProviderType, state: SyncState, vault: map<string, string>, file: SessionFile, result: ParseResult,
                     projectName: string, metadata: SessionMetadata)
    : FileOutcome
  {
    var env := ctx.env;
    var written := AppendSpec(ctx.config, env, vault, result.messages, projectName, t, ProviderTypes.DisplayName(t), metadata);
    if written.Failure? then FileOutcome(state, vault, false, true)
    else FileOutcome(UpdateSession(state, file.path, result.totalLines, env.now), written.value, true, false)
  }

  /** The running totals of a cycle. */
  datatype Acc = Acc(state: SyncState, vault: map<string, string>, count: nat, synced: set<ProviderType>)

  /** A per-file step, for a fixed cycle context and provider. */
  type Stepper = (SyncState, map<string, string>, SessionFile) -> FileOutcome

  function StepFn(ctx: Ctx, t: ProviderType): Stepper {
    (state, vault, file) => FileStep(ctx, t, state, vault, file)
  }

  /** `step` is the cycle's per-file step for `ctx` and provider `t`. */
  ghost predicate FileStepsAs(step: Stepper, ctx: Ctx, t: ProviderType) {
    forall state, vault, file {:trigger FileStep(ctx, t, state, vault, file)} ::
      step(state, vault, file) == FileStep(ctx, t, state, vault, file)
  }

  /** The per-file loop: a failed write skips the provider's remaining files,
      keeping the state the step left. */
  function RunFiles(step: Stepper, t: ProviderType, acc: Acc, files: seq<SessionFile>): Acc
    decreases |files|
  {
    if files == [] then acc
    else
      var o := step(acc.state, acc.vault, files[0]);
      if o.failed then Acc(o.state, o.vault, acc.count, acc.synced)
      else
        var acc' := Acc(o.state, o.vault, acc.count + (if o.appended then 1 else 0),
                        if o.appended then acc.synced + {t} else acc.synced);
        RunFiles(step, t, acc', files[1..])
  }

  /** One provider's pass: an unsafe path or a failed discovery skips it. */
  function ProviderStep(ctx: Ctx, t: ProviderType, acc: Acc): Acc {
    var config := ctx.config;
    if !config.IsPathValid(t, ctx.env.home) then acc
    else
      match FindSpec(t, ctx.env.fs, config.ExpandedPath(t, ctx.env.home), ctx.cutoff)
      case Failure(_) => acc
      case Success(files) => RunFiles(StepFn(ctx, t), t, acc, files)
  }

  /** A per-provider step, for a fixed cycle context. */
  type ProviderStepper = (ProviderType, Acc) -> Acc

  function ProviderStepFn(ctx: Ctx): ProviderStepper {
    (t, acc) => ProviderStep(ctx, t, acc)
  }

  /** `step` is the cycle's per-provider step for `ctx`. */
  ghost predicate StepsAs(step: ProviderStepper, ctx: Ctx) {
    forall t, acc {:trigger ProviderStep(ctx, t, acc)} :: step(t, acc) == ProviderStep(ctx, t, acc)
  }

  /** A step for `ctx`, known only by `StepsAs`: the cycle's own step. */
  lemma StepFor(ctx: Ctx) returns (step: ProviderStepper)
    ensures StepsAs(step, ctx)
  {
    step := ProviderStepFn(ctx);
  }

  /** The provider loop, over the enabled types in order. */
  function RunProviders(step: ProviderStepper, acc: Acc, types: seq<ProviderType>): Acc
    decreases |types|
  {
    if types == [] then acc else RunProviders(step, step(types[0], acc), types[1..])
  }

  /** Any step for `ctx` runs the provider loop as the cycle's own step does. */
  lemma {:induction false} RunProvidersAs(step: ProviderStepper, ctx: Ctx, acc: Acc, types: seq<ProviderType>)
    requires StepsAs(step, ctx)
    ensures RunProviders(step, acc, types) == RunProviders(ProviderStepFn(ctx), acc, types)
    decreases |types|
  {
    if types != [] {
      assert step(types[0], acc) == ProviderStepFn(ctx)(types[0], acc) == ProviderStep(ctx, types[0], acc);
      RunProvidersAs(step, ctx, step(types[0], acc), types[1..]);
    }
  }

  /** The lookback window: the time since the start of the day on a cold
      start (no stored state), the configured age otherwise. */
  function MaxAge(config: Config, env: Env, state: SyncState): (r: int)
    ensures state == map[] ==> env.now - r == env.todayStart
    ensures state != map[] ==> r == config.sessionMaxAgeMinutes * 60
  {
    if state == map[] then env.now - env.todayStart else config.sessionMaxAgeMinutes * 60
  }

  /** The enabled types, in `allCases` order. */
  function EnabledTypes(config: Config): seq<ProviderType> {
    Kept(AllCases, EnabledIn(config))
  }

  /** `Array(syncedProviders)`; the model lists the set in `allCases` order. */
  function SyncedList(synced: set<ProviderType>): seq<ProviderType> {
    Kept(AllCases, t => t in synced)
  }

  datatype Outcome = Outcome(result: Result<SyncResult, SyncError>, state: SyncState, vault: map<string, string>)

  /** `syncAllSessions`: the result together with the new sync state and vault. */
  function Cycle(config: Config, env: Env, state: SyncState, vault: map<string, string>): Outcome {
    if !config.IsDestinationPathValid(env.home) then Outcome(Failure(InvalidPath("Destination path")), state, vault)
    else
      var ctx := Ctx(config, env, env.now - MaxAge(config, env, state));
      Finish(env, RunProviders(ProviderStepFn(ctx), Acc(state, vault, 0, {}), EnabledTypes(config)))
  }

  /** A cycle whose destination is valid is the provider loop with any step
      for its context, finished. */
  lemma CycleRuns(config: Config, env: Env, state: SyncState, vault: map<string, string>, step: ProviderStepper)
    requires config.IsDestinationPathValid(env.home)
    requires StepsAs(step, Ctx(config, env, env.now - MaxAge(config, env, state)))
    ensures Cycle(config, env, state, vault) == Finish(env, RunProviders(step, Acc(state, vault, 0, {}), EnabledTypes(config)))
  {
    CycleUnfold(config, env, state, vault);
    RunProvidersAs(step, Ctx(config, env, env.now - MaxAge(config, env, state)), Acc(state, vault, 0, {}), EnabledTypes(config));
  }

  /** The end of a cycle that ran: orphaned cursors are dropped and the
      result reports the count, the cursors left and the providers that wrote. */
  function Finish(env: Env, acc: Acc): Outcome {
    var final := CleanupOrphans(acc.state, env.fs);
    Outcome(Success(SyncResult(acc.count, |final|, SyncedList(acc.synced))), final, acc.vault)
  }

  /** The history entry a cycle's result becomes. */
  function OutcomeEntry(result: Result<SyncResult, SyncError>, now: Time): History.SyncHistoryEntry {
    match result
    case Failure(e) => History.NewEntry(History.SyncStatus.Failure, 0, Some(ErrorDescription(e)), [], now)
    case Success(r) =>
      if r.syncedCount > 0 then History.NewEntry(History.SyncStatus.Success, r.syncedCount, None, r.syncedProviders, now)
      else History.NewEntry(History.Skipped, 0, None, [], now)
  }

  /** The state a `SyncService` keeps between cycles. */
  datatype ServiceState = ServiceState(state: SyncState, vault: map<string, string>, entries: seq<History.SyncHistoryEntry>)

  /** `performSync`. */
  function PerformSpec(config: Config, env: Env, s: ServiceState): ServiceState {
    if !config.syncEnabled then ServiceState(s.state, s.vault, History.Added(s.entries, History.NewEntry(History.Skipped, 0, None, [], env.now)))
    else
      var o := Cycle(config, env, s.state, s.vault);
      ServiceState(o.state, o.vault, History.Added(s.entries, OutcomeEntry(o.result, env.now)))
  }

  // ---------------------------------------------------------------------
  // Properties of the cycle

  /** No stored cursor moves backwards and no entry is lost. */
  ghost predicate Grows(s: SyncState, s': SyncState) {
    forall p :: p in s ==> p in s' && s'[p].lastLine >= s[p].lastLine
  }

  /** Every note keeps its text as a prefix, and every new note starts with
      the frontmatter delimiter. */
  ghost predicate Extends(v: map<string, string>, v': map<string, string>) {
    && (forall p :: p in v ==> p in v' && HasPrefix(v'[p], v[p]))
    && (forall p :: p in v' && p !in v ==> HasPrefix(v'[p], Delimiter + "\n"))
  }

  lemma ExtendsTrans(a: map<string, string>, b: map<string, string>, c: map<string, string>)
    requires Extends(a, b) && Extends(b, c)
    ensures Extends(a, c)
  {
    forall p | p in a ensures p in c && HasPrefix(c[p], a[p]) {
      PrefixOfPrefix(c[p], b[p], a[p]);
    }
    forall p | p in c && p !in a ensures HasPrefix(c[p], Delimiter + "\n") {
      if p in b {
        PrefixOfPrefix(c[p], b[p], Delimiter + "\n");
      }
    }
  }

  lemma ExtendsRefl(a: map<string, string>)
    ensures Extends(a, a)
  {
    forall p | p in a ensures HasPrefix(a[p], a[p]) {
      assert a[p][..|a[p]|] == a[p];
    }
  }

  /** A write either fails and changes nothing, or stores the new cursor
      and grows the vault. */
  lemma WriteStepShape(ctx: Ctx, t: ProviderType, state: SyncState, vault: map<string, string>, file: SessionFile, result: ParseResult,
                       projectName: string, metadata: SessionMetadata)
    requires result.totalLines > LastLine(state, file.path)
    ensures var o := WriteStep(ctx, t, state, vault, file, result, projectName, metadata);
            && Grows(state, o.state)
            && Extends(vault, o.vault)
            && (o.failed <==> !o.appended)
            && (o.failed ==> o.state == state && o.vault == vault)
            && (o.appended ==> file.path in o.state && o.state[file.path].lastLine == result.totalLines)
  {
    var env := ctx.env;
    var o := WriteStep(ctx, t, state, vault, file, result, projectName, metadata);
    var displayName := ProviderTypes.DisplayName(t);
    AppendShape(ctx.config, env, vault, result.messages, projectName, t, displayName, metadata);
    if o.appended {
      var path := NotePath(ctx.config, env.home, t, projectName, metadata, env.date);
      forall p | p in vault ensures p in o.vault && HasPrefix(o.vault[p], vault[p]) {
        if p != path {
          PrefixOfAppend(vault[p], "");
          assert vault[p] + "" == vault[p];
        } else {
          PrefixOfAppend(vault[p], Convert(result.messages, displayName));
        }
      }
    } else {
      ExtendsRefl(vault);
    }
  }

  /** One transcript: the cursor only moves forward, the vault only grows, a
      failed write changes nothing, small or unmodified transcripts change
      nothing, and a written note moves the cursor past `lastLine`. */
  lemma FileStepShape(ctx: Ctx, t: ProviderType, state: SyncState, vault: map<string, string>, file: SessionFile)
    ensures var o := FileStep(ctx, t, state, vault, file);
            && Grows(state, o.state)
            && Extends(vault, o.vault)
            && (o.failed ==> o.state == state && o.vault == vault && !o.appended)
            && (file.size < SessionMinSizeBytes ==> o == FileOutcome(state, vault, false, false))
            && (file.path in state && file.modificationDate <= state[file.path].lastSynced ==> o == FileOutcome(state, vault, false, false))
            && (!o.appended ==> o.vault == vault)
            && (o.appended ==> file.path in o.state && o.state[file.path].lastLine > LastLine(state, file.path))
  {
    var env := ctx.env;
    var lastLine := LastLine(state, file.path);
    var result := ParseSpec(t, env.fs, file, lastLine, Some(env.todayStart), env.codec);
    ExtendsRefl(vault);
    if !(file.size < SessionMinSizeBytes
         || (LastSynced(state, file.path).Some? && file.modificationDate <= LastSynced(state, file.path).value)) {
      assert FileStep(ctx, t, state, vault, file) == ParsedStep(ctx, t, state, vault, file, result);
      ParseContract(t, env.fs, file, lastLine, Some(env.todayStart), env.codec);
      ParsedShape(ctx, t, state, vault, file, result);
    }
  }

  /** The step after a parse that kept the cursor contract. */
  lemma ParsedShape(ctx: Ctx, t: ProviderType, state: SyncState, vault: map<string, string>, file: SessionFile, result: ParseResult)
    requires Advances(result, LastLine(state, file.path))
    ensures var o := ParsedStep(ctx, t, state, vault, file, result);
            && Grows(state, o.state)
            && Extends(vault, o.vault)
            && (o.failed ==> o.state == state && o.vault == vault && !o.appended)
            && (!o.appended ==> o.vault == vault)
            && (o.appended ==> file.path in o.state && o.state[file.path].lastLine > LastLine(state, file.path))
  {
    var env := ctx.env;
    ExtendsRefl(vault);
    if result.messages != [] {
      WriteStepShape(ctx, t, state, vault, file, result, NameSpec(t, env.fs, file, env.codec), MetadataSpec(t, env.fs, file, env.codec));
    }
  }

  lemma PrefixOfAppend(a: string, b: string)
    ensures HasPrefix(a + b, a)
  {
    assert (a + b)[..|a|] == a;
  }

  /** Handing a transcript to the cycle twice writes nothing the second time
      and leaves the sync state and the vault as the first pass left them:
      the cursor the first pass stored parses to no new messages, or the
      unchanged modification time skips the file; a write that failed fails
      again and still changes nothing. */
  lemma FileStepIdempotent(ctx: Ctx, t: ProviderType, state: SyncState, vault: map<string, string>, file: SessionFile)
    ensures var o := FileStep(ctx, t, state, vault, file);
            FileStep(ctx, t, o.state, o.vault, file) == FileOutcome(o.state, o.vault, false, o.failed)
  {
    var o := FileStep(ctx, t, state, vault, file);
    StepAgain(ctx, t, state, vault, file, o.state, o.vault);
  }

  /** `s` and `s'` hold the same entry for path `p`. */
  ghost predicate SameEntry(s: SyncState, s': SyncState, p: string) {
    (p in s <==> p in s') && (p in s ==> s[p] == s'[p])
  }

  /** The entry `s` holds for `p` is the one `s'` holds, or none because the
      transcript is gone from the disk (what `cleanupOrphans` leaves). */
  ghost predicate KeptOrGone(fs: Fs, s: SyncState, s': SyncState, p: string) {
    SameEntry(s, s', p) || (!FileExists(fs, p) && p !in s)
  }

  /** A transcript handed to the cycle again, when the sync state holds the
      entry its first step left for it (or none, the transcript being gone),
      changes nothing, whatever else the state and the vault hold, and fails
      again exactly when the first step failed. */
  lemma StepAgain(ctx: Ctx, t: ProviderType, state: SyncState, vault: map<string, string>, file: SessionFile,
                  state2: SyncState, vault2: map<string, string>)
    requires KeptOrGone(ctx.env.fs, state2, FileStep(ctx, t, state, vault, file).state, file.path)
    ensures FileStep(ctx, t, state2, vault2, file)
            == FileOutcome(state2, vault2, false, FileStep(ctx, t, state, vault, file).failed)
  {
    var env := ctx.env;
    var o := FileStep(ctx, t, state, vault, file);
    StepCursor(ctx, t, state, vault, file);
    if !FileExists(env.fs, file.path) && file.path !in state2 {
      StepAgainGone(ctx, t, state, vault, file, state2, vault2);
    } else if o.failed {
      StepAgainFailed(ctx, t, state, vault, file, state2, vault2);
    } else if o.state == state && !o.appended {
      StepAgainUnchanged(ctx, t, state, vault, file, state2, vault2);
    } else {
      var r := ParseSpec(t, env.fs, file, LastLine(state, file.path), Some(env.todayStart), env.codec);
      ParseSettled(t, env.fs, file, LastLine(state, file.path), Some(env.todayStart), env.codec);
      SettledStep(ctx, t, state2, vault2, file);
    }
  }

  /** A transcript gone from the disk parses to nothing from any cursor, so
      neither pass writes or fails. */
  lemma StepAgainGone(ctx: Ctx, t: ProviderType, state: SyncState, vault: map<string, string>, file: SessionFile,
                      state2: SyncState, vault2: map<string, string>)
    requires !FileExists(ctx.env.fs, file.path) && file.path !in state2
    ensures !FileStep(ctx, t, state, vault, file).failed
    ensures FileStep(ctx, t, state2, vault2, file) == FileOutcome(state2, vault2, false, false)
  {
    var env := ctx.env;
    var r := ParseSpec(t, env.fs, file, LastLine(state, file.path), Some(env.todayStart), env.codec);
    ParseContract(t, env.fs, file, LastLine(state, file.path), Some(env.todayStart), env.codec);
    ParseContract(t, env.fs, file, 0, Some(env.todayStart), env.codec);
    SettledStep(ctx, t, state2, vault2, file);
    assert ParsedStep(ctx, t, state, vault, file, r).failed == false;
  }

  /** With the same entry for the transcript, a failed write fails again:
      the parse and the note path do not depend on the rest of the state
      or on the vault. */
  lemma StepAgainFailed(ctx: Ctx, t: ProviderType, state: SyncState, vault: map<string, string>, file: SessionFile,
                        state2: SyncState, vault2: map<string, string>)
    requires SameEntry(state2, state, file.path)
    requires FileStep(ctx, t, state, vault, file).failed
    ensures FileStep(ctx, t, state2, vault2, file) == FileOutcome(state2, vault2, false, true)
  {
    var env := ctx.env;
    var p := file.path;
    var r := ParseSpec(t, env.fs, file, LastLine(state, p), Some(env.todayStart), env.codec);
    assert LastLine(state2, p) == LastLine(state, p) && LastSynced(state2, p) == LastSynced(state, p);
    assert FileStep(ctx, t, state, vault, file) == ParsedStep(ctx, t, state, vault, file, r);
    assert FileStep(ctx, t, state2, vault2, file) == ParsedStep(ctx, t, state2, vault2, file, r);
    var name := NameSpec(t, env.fs, file, env.codec);
    var meta := MetadataSpec(t, env.fs, file, env.codec);
    AppendShape(ctx.config, env, vault, r.messages, name, t, ProviderTypes.DisplayName(t), meta);
    AppendShape(ctx.config, env, vault2, r.messages, name, t, ProviderTypes.DisplayName(t), meta);
  }

  /** With the same entry for the transcript, a step that changed nothing
      changes nothing again. */
  lemma StepAgainUnchanged(ctx: Ctx, t: ProviderType, state: SyncState, vault: map<string, string>, file: SessionFile,
                           state2: SyncState, vault2: map<string, string>)
    requires SameEntry(state2, state, file.path)
    requires var o := FileStep(ctx, t, state, vault, file);
             o.state == state && !o.appended && !o.failed
    ensures FileStep(ctx, t, state2, vault2, file) == FileOutcome(state2, vault2, false, false)
  {
    var env := ctx.env;
    var p := file.path;
    var r := ParseSpec(t, env.fs, file, LastLine(state, p), Some(env.todayStart), env.codec);
    assert LastLine(state2, p) == LastLine(state, p) && LastSynced(state2, p) == LastSynced(state, p);
    if file.size >= SessionMinSizeBytes
       && !(LastSynced(state, p).Some? && file.modificationDate <= LastSynced(state, p).value) {
      assert FileStep(ctx, t, state, vault, file) == ParsedStep(ctx, t, state, vault, file, r);
      if r.messages != [] {
        WriteCursor(ctx, t, state, vault, file, r, NameSpec(t, env.fs, file, env.codec), MetadataSpec(t, env.fs, file, env.codec));
      }
      assert r.totalLines <= LastLine(state, p);
      SettledStep(ctx, t, state2, vault2, file);
    }
  }

  /** A step changes at most the entry of its own transcript. */
  lemma StepLocal(ctx: Ctx, t: ProviderType, state: SyncState, vault: map<string, string>, file: SessionFile, p: string)
    requires p != file.path
    ensures SameEntry(FileStep(ctx, t, state, vault, file).state, state, p)
  {
    var env := ctx.env;
    var r := ParseSpec(t, env.fs, file, LastLine(state, file.path), Some(env.todayStart), env.codec);
    if file.size >= SessionMinSizeBytes
       && !(LastSynced(state, file.path).Some? && file.modificationDate <= LastSynced(state, file.path).value) {
      assert FileStep(ctx, t, state, vault, file) == ParsedStep(ctx, t, state, vault, file, r);
      ParsedUpdates(ctx, t, state, vault, file, r);
    }
  }

  /** After a parse, the state is unchanged or stores the parse's cursor for
      the transcript. */
  lemma ParsedUpdates(ctx: Ctx, t: ProviderType, state: SyncState, vault: map<string, string>, file: SessionFile, result: ParseResult)
    ensures var s' := ParsedStep(ctx, t, state, vault, file, result).state;
            s' == state || s' == UpdateSession(state, file.path, result.totalLines, ctx.env.now)
  {
    if result.messages != [] {
      var env := ctx.env;
      WriteCursor(ctx, t, state, vault, file, result, NameSpec(t, env.fs, file, env.codec), MetadataSpec(t, env.fs, file, env.codec));
    }
  }

  /** Every step changes at most the entry of its own transcript. */
  ghost predicate StepsLocal(step: Stepper) {
    forall state: SyncState, vault: map<string, string>, file: SessionFile, p: string ::
      p != file.path ==> SameEntry(step(state, vault, file).state, state, p)
  }

  /** Every step, repeated from a state holding the entry it left for its
      transcript (or none, the transcript being gone from `fs`), changes
      nothing and fails again exactly when it failed. */
  ghost predicate StepsReplay(step: Stepper, fs: Fs) {
    forall state: SyncState, vault: map<string, string>, file: SessionFile, state2: SyncState, vault2: map<string, string> ::
      KeptOrGone(fs, state2, step(state, vault, file).state, file.path) ==>
      step(state2, vault2, file) == FileOutcome(state2, vault2, false, step(state, vault, file).failed)
  }

  lemma StepFnLocal(ctx: Ctx, t: ProviderType)
    ensures StepsLocal(StepFn(ctx, t))
  {
    forall state: SyncState, vault: map<string, string>, file: SessionFile, p: string | p != file.path
      ensures SameEntry(StepFn(ctx, t)(state, vault, file).state, state, p)
    {
      StepLocal(ctx, t, state, vault, file, p);
    }
  }

  lemma StepFnReplay(ctx: Ctx, t: ProviderType)
    ensures StepsReplay(StepFn(ctx, t), ctx.env.fs)
  {
    var step := StepFn(ctx, t);
    forall state: SyncState, vault: map<string, string>, file: SessionFile, state2: SyncState, vault2: map<string, string>
      | KeptOrGone(ctx.env.fs, state2, step(state, vault, file).state, file.path)
      ensures step(state2, vault2, file) == FileOutcome(state2, vault2, false, step(state, vault, file).failed)
    {
      StepAgain(ctx, t, state, vault, file, state2, vault2);
    }
  }

  /** One transcript either changes nothing or leaves its cursor where the
      parse stopped; a failed write changes nothing. */
  lemma StepCursor(ctx: Ctx, t: ProviderType, state: SyncState, vault: map<string, string>, file: SessionFile)
    ensures var o := FileStep(ctx, t, state, vault, file);
            var r := ParseSpec(t, ctx.env.fs, file, LastLine(state, file.path), Some(ctx.env.todayStart), ctx.env.codec);
            && ((o.state == state && o.vault == vault && !o.appended) || LastLine(o.state, file.path) == r.totalLines)
            && (o.failed ==> o.state == state && o.vault == vault && !o.appended)
  {
    var env := ctx.env;
    var result := ParseSpec(t, env.fs, file, LastLine(state, file.path), Some(env.todayStart), env.codec);
    if !(file.size < SessionMinSizeBytes
         || (LastSynced(state, file.path).Some? && file.modificationDate <= LastSynced(state, file.path).value)) {
      assert FileStep(ctx, t, state, vault, file) == ParsedStep(ctx, t, state, vault, file, result);
      ParsedCursor(ctx, t, state, vault, file, result);
    }
  }

  /** The step after a parse `result`: nothing changes, or the cursor is at
      the result's line count; a failed write changes nothing. */
  lemma ParsedCursor(ctx: Ctx, t: ProviderType, state: SyncState, vault: map<string, string>, file: SessionFile, result: ParseResult)
    ensures var o := ParsedStep(ctx, t, state, vault, file, result);
            && ((o.state == state && o.vault == vault && !o.appended) || LastLine(o.state, file.path) == result.totalLines)
            && (o.failed ==> o.state == state && o.vault == vault && !o.appended)
  {
    if result.messages != [] {
      var env := ctx.env;
      WriteCursor(ctx, t, state, vault, file, result, NameSpec(t, env.fs, file, env.codec), MetadataSpec(t, env.fs, file, env.codec));
    }
  }

  /** A write fails and changes nothing, or stores the result's line count. */
  lemma WriteCursor(ctx: Ctx, t: ProviderType, state: SyncState, vault: map<string, string>, file: SessionFile, result: ParseResult,
                    projectName: string, metadata: SessionMetadata)
    ensures var o := WriteStep(ctx, t, state, vault, file, result, projectName, metadata);
            || (o.failed && !o.appended && o.state == state && o.vault == vault)
            || (!o.failed && o.appended && o.state == UpdateSession(state, file.path, result.totalLines, ctx.env.now))
  {
  }

  /** A transcript whose stored cursor already reaches everything it holds
      writes nothing and changes nothing. */
  lemma SettledStep(ctx: Ctx, t: ProviderType, state: SyncState, vault: map<string, string>, file: SessionFile)
    requires var r := ParseSpec(t, ctx.env.fs, file, LastLine(state, file.path), Some(ctx.env.todayStart), ctx.env.codec);
             r.messages == [] && r.totalLines <= LastLine(state, file.path)
    ensures FileStep(ctx, t, state, vault, file) == FileOutcome(state, vault, false, false)
  {
  }

  lemma GrowsTrans(a: SyncState, b: SyncState, c: SyncState)
    requires Grows(a, b) && Grows(b, c)
    ensures Grows(a, c)
  {
  }

  /** What every per-file step keeps: cursors only move forward, notes only
      grow at their end, and a step that wrote nothing left the vault alone. */
  ghost predicate WellBehaved(step: Stepper) {
    forall state, vault, file ::
      && Grows(state, step(state, vault, file).state)
      && Extends(vault, step(state, vault, file).vault)
      && (step(state, vault, file).failed ==> !step(state, vault, file).appended)
      && (!step(state, vault, file).appended ==> step(state, vault, file).vault == vault)
  }

  lemma StepWellBehaved(ctx: Ctx, t: ProviderType)
    ensures WellBehaved(StepFn(ctx, t))
  {
    forall state, vault, file
      ensures var o := StepFn(ctx, t)(state, vault, file);
              Grows(state, o.state) && Extends(vault, o.vault) && (o.failed ==> !o.appended) && (!o.appended ==> o.vault == vault)
    {
      FileStepShape(ctx, t, state, vault, file);
    }
  }

  /** The file loop only moves cursors forward and only appends to notes. */
  lemma {:induction false} RunFilesShape(step: Stepper, t: ProviderType, acc: Acc, files: seq<SessionFile>)
    requires WellBehaved(step)
    ensures var r := RunFiles(step, t, acc, files);
            Grows(acc.state, r.state) && Extends(acc.vault, r.vault)
    decreases |files|
  {
    if files == [] {
      ExtendsRefl(acc.vault);
    } else {
      var o := step(acc.state, acc.vault, files[0]);
      if !o.failed {
        var acc' := Acc(o.state, o.vault, acc.count + (if o.appended then 1 else 0),
                        if o.appended then acc.synced + {t} else acc.synced);
        RunFilesShape(step, t, acc', files[1..]);
        var r := RunFiles(step, t, acc', files[1..]);
        GrowsTrans(acc.state, o.state, r.state);
        ExtendsTrans(acc.vault, o.vault, r.vault);
      }
    }
  }

  /** The count grows by the notes written, only this provider joins the
      synced set, and a pass that wrote nothing left the vault alone. */
  lemma {:induction false} RunFilesCount(step: Stepper, t: ProviderType, acc: Acc, files: seq<SessionFile>)
    requires WellBehaved(step)
    ensures var r := RunFiles(step, t, acc, files);
            r.count >= acc.count && acc.synced <= r.synced <= acc.synced + {t}
            && (r.count == acc.count ==> r.vault == acc.vault && r.synced == acc.synced)
    decreases |files|
  {
    if files != [] {
      var o := step(acc.state, acc.vault, files[0]);
      if !o.failed {
        var acc' := Acc(o.state, o.vault, acc.count + (if o.appended then 1 else 0),
                        if o.appended then acc.synced + {t} else acc.synced);
        RunFilesCount(step, t, acc', files[1..]);
      }
    }
  }

  /** What every provider pass keeps: cursors only move forward, notes only
      grow at their end, the count never drops, only the pass's own provider
      joins the synced set, and a pass that wrote nothing left the vault alone. */
  ghost predicate PassWellBehaved(step: ProviderStepper) {
    forall t: ProviderType, acc: Acc ::
      && Grows(acc.state, step(t, acc).state)
      && Extends(acc.vault, step(t, acc).vault)
      && step(t, acc).count >= acc.count
      && acc.synced <= step(t, acc).synced <= acc.synced + {t}
      && (step(t, acc).count == acc.count ==> step(t, acc).vault == acc.vault && step(t, acc).synced == acc.synced)
  }

  lemma ProviderStepWellBehaved(ctx: Ctx)
    ensures PassWellBehaved(ProviderStepFn(ctx))
  {
    forall t: ProviderType, acc: Acc
      ensures var r := ProviderStepFn(ctx)(t, acc);
              && Grows(acc.state, r.state) && Extends(acc.vault, r.vault) && r.count >= acc.count
              && acc.synced <= r.synced <= acc.synced + {t}
              && (r.count == acc.count ==> r.vault == acc.vault && r.synced == acc.synced)
    {
      var found := FindSpec(t, ctx.env.fs, ctx.config.ExpandedPath(t, ctx.env.home), ctx.cutoff);
      if ctx.config.IsPathValid(t, ctx.env.home) && found.Success? {
        StepWellBehaved(ctx, t);
        RunFilesShape(StepFn(ctx, t), t, acc, found.value);
        RunFilesCount(StepFn(ctx, t), t, acc, found.value);
      } else {
        ExtendsRefl(acc.vault);
      }
    }
  }

  /** Over all providers: cursors only move forward, notes only grow at their
      end, only the listed types join the synced set, and a loop that wrote
      nothing left the vault and the synced set alone. */
  lemma {:induction false} RunProvidersShape(step: ProviderStepper, acc: Acc, types: seq<ProviderType>)
    requires PassWellBehaved(step)
    ensures var r := RunProviders(step, acc, types);
            Grows(acc.state, r.state) && Extends(acc.vault, r.vault) && r.count >= acc.count
            && acc.synced <= r.synced
            && (forall t :: t in r.synced && t !in acc.synced ==> t in types)
            && (r.count == acc.count ==> r.vault == acc.vault && r.synced == acc.synced)
    decreases |types|
  {
    if types == [] {
      ExtendsRefl(acc.vault);
    } else {
      var next := step(types[0], acc);
      RunProvidersShape(step, next, types[1..]);
      ExtendsTrans(acc.vault, next.vault, RunProviders(step, next, types[1..]).vault);
      GrowsTrans(acc.state, next.state, RunProviders(step, next, types[1..]).state);
    }
  }


  /** Over a whole cycle: every surviving cursor is at least where it was,
      every watched path exists, every note grows only at its end, new notes
      start with the frontmatter, the providers listed in the result are
      enabled ones, and the cycle is a success with a count of zero exactly
      when it left the vault alone. */
  lemma CycleShape(config: Config, env: Env, state: SyncState, vault: map<string, string>)
    ensures var o := Cycle(config, env, state, vault);
            && (forall p :: p in o.state && p in state ==> o.state[p].lastLine >= state[p].lastLine)
            && (o.result.Success? ==> forall p :: p in o.state ==> FileExists(env.fs, p))
            && Extends(vault, o.vault)
            && (o.result.Success? ==> o.result.value.watchingCount == |o.state|)
            && (o.result.Success? ==> forall t :: t in o.result.value.syncedProviders ==> config.IsProviderEnabled(t))
            && (o.result.Success? && o.result.value.syncedCount == 0 ==> o.vault == vault && o.result.value.syncedProviders == [])
  {
    if config.IsDestinationPathValid(env.home) {
      var ctx := Ctx(config, env, env.now - MaxAge(config, env, state));
      assert Cycle(config, env, state, vault) == Finish(env, RunProviders(ProviderStepFn(ctx), Acc(state, vault, 0, {}), EnabledTypes(config)));
      FinishShape(ctx, state, vault, EnabledTypes(config));
      EnabledTypesEnabled(config);
    } else {
      ExtendsRefl(vault);
    }
  }

  /** The transcripts one provider's pass goes through: none when its path is
      unsafe or its discovery fails. */
  ghost function PassFiles(ctx: Ctx, t: ProviderType): seq<SessionFile> {
    if !ctx.config.IsPathValid(t, ctx.env.home) then []
    else
      match FindSpec(t, ctx.env.fs, ctx.config.ExpandedPath(t, ctx.env.home), ctx.cutoff)
      case Failure(_) => []
      case Success(files) => files
  }

  /** The transcripts of the passes over `types`, provider by provider. */
  ghost function FilesOver(filesOf: ProviderType -> seq<SessionFile>, types: seq<ProviderType>): seq<SessionFile>
    decreases |types|
  {
    if types == [] then [] else filesOf(types[0]) + FilesOver(filesOf, types[1..])
  }

  /** The transcripts a cycle goes through. */
  ghost function CycleFiles(ctx: Ctx, types: seq<ProviderType>): seq<SessionFile> {
    FilesOver(t => PassFiles(ctx, t), types)
  }

  /** `step` runs, for each provider, the per-file loop over `filesOf` with a
      per-file step from `steps`, and those steps are local and replay. */
  ghost predicate PassesAs(step: ProviderStepper, steps: ProviderType -> Stepper, filesOf: ProviderType -> seq<SessionFile>, fs: Fs) {
    && (forall t, acc {:trigger step(t, acc)} :: step(t, acc) == RunFiles(steps(t), t, acc, filesOf(t)))
    && (forall t :: StepsLocal(steps(t)) && StepsReplay(steps(t), fs))
  }

  /** The cycle's own provider step is such a loop. */
  lemma CyclePasses(ctx: Ctx)
    ensures PassesAs(ProviderStepFn(ctx), t => StepFn(ctx, t), t => PassFiles(ctx, t), ctx.env.fs)
  {
    forall t, acc ensures ProviderStepFn(ctx)(t, acc) == RunFiles(StepFn(ctx, t), t, acc, PassFiles(ctx, t)) {
      PassRuns(ctx, t, acc);
    }
    forall t ensures StepsLocal(StepFn(ctx, t)) && StepsReplay(StepFn(ctx, t), ctx.env.fs) {
      StepFnLocal(ctx, t);
      StepFnReplay(ctx, t);
    }
  }

  /** No transcript is visited twice. */
  ghost predicate DistinctPaths(files: seq<SessionFile>) {
    forall i, j :: 0 <= i < j < |files| ==> files[i].path != files[j].path
  }

  lemma PassRuns(ctx: Ctx, t: ProviderType, acc: Acc)
    ensures ProviderStep(ctx, t, acc) == RunFiles(StepFn(ctx, t), t, acc, PassFiles(ctx, t))
  {
  }

  /** The per-file loop changes only the entries of the transcripts it visits. */
  lemma {:induction false} RunFilesLocal(step: Stepper, t: ProviderType, acc: Acc, files: seq<SessionFile>, p: string)
    requires StepsLocal(step)
    requires forall i :: 0 <= i < |files| ==> files[i].path != p
    ensures SameEntry(RunFiles(step, t, acc, files).state, acc.state, p)
    decreases |files|
  {
    if files != [] {
      var o := step(acc.state, acc.vault, files[0]);
      assert SameEntry(o.state, acc.state, p);
      if !o.failed {
        var acc' := Acc(o.state, o.vault, acc.count + (if o.appended then 1 else 0),
                        if o.appended then acc.synced + {t} else acc.synced);
        assert RunFiles(step, t, acc, files) == RunFiles(step, t, acc', files[1..]);
        RunFilesLocal(step, t, acc', files[1..], p);
      }
    }
  }

  /** The provider loop changes only the entries of the transcripts it visits. */
  lemma {:induction false} RunProvidersLocal(step: ProviderStepper, steps: ProviderType -> Stepper,
                                             filesOf: ProviderType -> seq<SessionFile>, fs: Fs,
                                             acc: Acc, types: seq<ProviderType>, p: string)
    requires PassesAs(step, steps, filesOf, fs)
    requires forall i :: 0 <= i < |FilesOver(filesOf, types)| ==> FilesOver(filesOf, types)[i].path != p
    ensures SameEntry(RunProviders(step, acc, types).state, acc.state, p)
    decreases |types|
  {
    if types != [] {
      var t := types[0];
      var files := filesOf(t);
      var rest := FilesOver(filesOf, types[1..]);
      var all := FilesOver(filesOf, types);
      assert all == files + rest;
      forall i | 0 <= i < |files| ensures files[i].path != p {
        assert files[i] == all[i];
      }
      forall i | 0 <= i < |rest| ensures rest[i].path != p {
        assert rest[i] == all[|files| + i];
      }
      assert step(t, acc) == RunFiles(steps(t), t, acc, files);
      RunFilesLocal(steps(t), t, acc, files, p);
      RunProvidersLocal(step, steps, filesOf, fs, step(t, acc), types[1..], p);
    }
  }

  /** Running a provider's files again, from a state holding for each of
      them the entry the first run left (or none, the transcript being gone),
      changes nothing and counts nothing. */
  lemma {:induction false} RunFilesReplay(step: Stepper, fs: Fs, t: ProviderType, acc: Acc, files: seq<SessionFile>,
                                          state2: SyncState, vault2: map<string, string>, count: nat, synced: set<ProviderType>)
    requires StepsLocal(step) && StepsReplay(step, fs)
    requires DistinctPaths(files)
    requires forall i :: 0 <= i < |files| ==> KeptOrGone(fs, state2, RunFiles(step, t, acc, files).state, files[i].path)
    ensures RunFiles(step, t, Acc(state2, vault2, count, synced), files) == Acc(state2, vault2, count, synced)
    decreases |files|
  {
    if files != [] {
      var f := files[0];
      var o := step(acc.state, acc.vault, f);
      var end := RunFiles(step, t, acc, files).state;
      assert KeptOrGone(fs, state2, end, f.path);
      if o.failed {
        assert end == o.state;
        assert step(state2, vault2, f) == FileOutcome(state2, vault2, false, true);
      } else {
        var acc' := Acc(o.state, o.vault, acc.count + (if o.appended then 1 else 0),
                        if o.appended then acc.synced + {t} else acc.synced);
        assert end == RunFiles(step, t, acc', files[1..]).state;
        forall i | 0 <= i < |files[1..]| ensures files[1..][i].path != f.path {
          assert files[1..][i] == files[i + 1];
        }
        RunFilesLocal(step, t, acc', files[1..], f.path);
        assert KeptOrGone(fs, state2, o.state, f.path);
        assert step(state2, vault2, f) == FileOutcome(state2, vault2, false, false);
        forall i | 0 <= i < |files[1..]| ensures KeptOrGone(fs, state2, end, files[1..][i].path) {
          assert files[1..][i] == files[i + 1];
        }
        RunFilesReplay(step, fs, t, acc', files[1..], state2, vault2, count, synced);
      }
    }
  }

  /** Running the provider loop again, from a state holding for each visited
      transcript the entry the first loop left (or none, the transcript
      being gone), changes nothing and counts nothing. */
  lemma {:induction false} RunProvidersReplay(step: ProviderStepper, steps: ProviderType -> Stepper,
                                              filesOf: ProviderType -> seq<SessionFile>, fs: Fs,
                                              acc: Acc, types: seq<ProviderType>,
                                              state2: SyncState, vault2: map<string, string>, count: nat, synced: set<ProviderType>)
    requires PassesAs(step, steps, filesOf, fs)
    requires DistinctPaths(FilesOver(filesOf, types))
    requires forall i :: 0 <= i < |FilesOver(filesOf, types)| ==>
               KeptOrGone(fs, state2, RunProviders(step, acc, types).state, FilesOver(filesOf, types)[i].path)
    ensures RunProviders(step, Acc(state2, vault2, count, synced), types) == Acc(state2, vault2, count, synced)
    decreases |types|
  {
    if types != [] {
      var t := types[0];
      var files := filesOf(t);
      var rest := FilesOver(filesOf, types[1..]);
      var all := FilesOver(filesOf, types);
      assert all == files + rest;
      var acc1 := step(t, acc);
      var end := RunProviders(step, acc1, types[1..]).state;
      assert acc1 == RunFiles(steps(t), t, acc, files);
      assert step(t, Acc(state2, vault2, count, synced)) == RunFiles(steps(t), t, Acc(state2, vault2, count, synced), files);
      forall i | 0 <= i < |files| ensures KeptOrGone(fs, state2, acc1.state, files[i].path) {
        assert files[i] == all[i];
        forall j | 0 <= j < |rest| ensures rest[j].path != files[i].path {
          assert rest[j] == all[|files| + j];
        }
        RunProvidersLocal(step, steps, filesOf, fs, acc1, types[1..], files[i].path);
      }
      assert DistinctPaths(files) by {
        forall i, j | 0 <= i < j < |files| ensures files[i].path != files[j].path {
          assert files[i] == all[i] && files[j] == all[j];
        }
      }
      RunFilesReplay(steps(t), fs, t, acc, files, state2, vault2, count, synced);
      assert DistinctPaths(rest) by {
        forall i, j | 0 <= i < j < |rest| ensures rest[i].path != rest[j].path {
          assert rest[i] == all[|files| + i] && rest[j] == all[|files| + j];
        }
      }
      forall i | 0 <= i < |rest| ensures KeptOrGone(fs, state2, end, rest[i].path) {
        assert rest[i] == all[|files| + i];
      }
      RunProvidersReplay(step, steps, filesOf, fs, acc1, types[1..], state2, vault2, count, synced);
    }
  }

  /** A second cycle over an unchanged disk, at the same clock, adds nothing:
      it writes no note, moves no cursor and reports zero files, when the
      two cycles choose the same lookback window (both warm or both cold)
      and no transcript is visited twice in a cycle. */
  lemma CycleIdempotent(config: Config, env: Env, state: SyncState, vault: map<string, string>)
    requires var o := Cycle(config, env, state, vault);
             o.result.Success? && (state == map[] <==> o.state == map[])
    requires DistinctPaths(CycleFiles(Ctx(config, env, env.now - MaxAge(config, env, state)), EnabledTypes(config)))
    ensures var o := Cycle(config, env, state, vault);
            Cycle(config, env, o.state, o.vault) == Outcome(Success(SyncResult(0, |o.state|, [])), o.state, o.vault)
  {
    var acc := RunProviders(ProviderStepFn(Ctx(config, env, env.now - MaxAge(config, env, state))),
                            Acc(state, vault, 0, {}), EnabledTypes(config));
    CycleSucceeds(config, env, state, vault);
    CycleUnfold(config, env, state, vault);
    WarmAgain(config, env, state, vault, acc);
  }

  /** The cycle run again on what a cycle's provider loop and cleanup left,
      in the same window, changes nothing. */
  lemma WarmAgain(config: Config, env: Env, state: SyncState, vault: map<string, string>, acc: Acc)
    requires config.IsDestinationPathValid(env.home)
    requires acc == RunProviders(ProviderStepFn(Ctx(config, env, env.now - MaxAge(config, env, state))),
                                 Acc(state, vault, 0, {}), EnabledTypes(config))
    requires state == map[] <==> CleanupOrphans(acc.state, env.fs) == map[]
    requires DistinctPaths(CycleFiles(Ctx(config, env, env.now - MaxAge(config, env, state)), EnabledTypes(config)))
    ensures var s2 := CleanupOrphans(acc.state, env.fs);
            Cycle(config, env, s2, acc.vault) == Outcome(Success(SyncResult(0, |s2|, [])), s2, acc.vault)
  {
    var ctx := Ctx(config, env, env.now - MaxAge(config, env, state));
    var s2 := CleanupOrphans(acc.state, env.fs);
    LoopReplay(ctx, EnabledTypes(config), state, vault);
    assert Ctx(config, env, env.now - MaxAge(config, env, s2)) == ctx;
    CycleQuiet(config, env, s2, acc.vault);
  }

  /** A cycle whose provider loop changes nothing, from a state whose
      transcripts all exist, reports zero files and keeps the state. */
  lemma CycleQuiet(config: Config, env: Env, state: SyncState, vault: map<string, string>)
    requires config.IsDestinationPathValid(env.home)
    requires RunProviders(ProviderStepFn(Ctx(config, env, env.now - MaxAge(config, env, state))), Acc(state, vault, 0, {}), EnabledTypes(config))
             == Acc(state, vault, 0, {})
    requires forall p :: p in state ==> FileExists(env.fs, p)
    ensures Cycle(config, env, state, vault) == Outcome(Success(SyncResult(0, |state|, [])), state, vault)
  {
    CycleUnfold(config, env, state, vault);
    FinishQuiet(env, state, vault);
  }

  /** A cycle that succeeds passed the destination check. */
  lemma CycleSucceeds(config: Config, env: Env, state: SyncState, vault: map<string, string>)
    ensures Cycle(config, env, state, vault).result.Success? ==> config.IsDestinationPathValid(env.home)
  {
  }

  /** A cycle that passes the destination check is its provider loop, finished. */
  lemma CycleUnfold(config: Config, env: Env, state: SyncState, vault: map<string, string>)
    requires config.IsDestinationPathValid(env.home)
    ensures Cycle(config, env, state, vault)
            == Finish(env, RunProviders(ProviderStepFn(Ctx(config, env, env.now - MaxAge(config, env, state))),
                                        Acc(state, vault, 0, {}), EnabledTypes(config)))
  {
  }

  /** The provider loop run again from what the cycle's cleanup left
      changes nothing. */
  lemma LoopReplay(ctx: Ctx, types: seq<ProviderType>, state: SyncState, vault: map<string, string>)
    requires DistinctPaths(CycleFiles(ctx, types))
    ensures var acc := RunProviders(ProviderStepFn(ctx), Acc(state, vault, 0, {}), types);
            var state2 := CleanupOrphans(acc.state, ctx.env.fs);
            RunProviders(ProviderStepFn(ctx), Acc(state2, acc.vault, 0, {}), types) == Acc(state2, acc.vault, 0, {})
  {
    var acc := RunProviders(ProviderStepFn(ctx), Acc(state, vault, 0, {}), types);
    var state2 := CleanupOrphans(acc.state, ctx.env.fs);
    var all := CycleFiles(ctx, types);
    forall i | 0 <= i < |all| ensures KeptOrGone(ctx.env.fs, state2, acc.state, all[i].path) {
    }
    CyclePasses(ctx);
    RunProvidersReplay(ProviderStepFn(ctx), t => StepFn(ctx, t), t => PassFiles(ctx, t), ctx.env.fs,
                       Acc(state, vault, 0, {}), types, state2, acc.vault, 0, {});
  }

  /** Finishing a cycle that changed nothing, from a state whose transcripts
      all exist, reports zero files and keeps the state. */
  lemma FinishQuiet(env: Env, state: SyncState, vault: map<string, string>)
    requires forall p :: p in state ==> FileExists(env.fs, p)
    ensures Finish(env, Acc(state, vault, 0, {})) == Outcome(Success(SyncResult(0, |state|, [])), state, vault)
  {
    assert CleanupOrphans(state, env.fs) == state;
    var none: set<ProviderType> := {};
    KeptNone(AllCases, t => t in none);
    assert SyncedList(none) == [];
  }

  /** The providers a cycle visits are enabled ones. */
  lemma EnabledTypesEnabled(config: Config)
    ensures forall t :: t in EnabledTypes(config) ==> config.IsProviderEnabled(t)
  {
    KeptShape(AllCases, EnabledIn(config));
  }



  /** The end of a cycle that ran its providers. */
  lemma FinishShape(ctx: Ctx, state: SyncState, vault: map<string, string>, types: seq<ProviderType>)
    ensures var o := Finish(ctx.env, RunProviders(ProviderStepFn(ctx), Acc(state, vault, 0, {}), types));
            && (forall p :: p in o.state && p in state ==> o.state[p].lastLine >= state[p].lastLine)
            && (forall p :: p in o.state ==> FileExists(ctx.env.fs, p))
            && Extends(vault, o.vault)
            && o.result.Success? && o.result.value.watchingCount == |o.state|
            && (forall t :: t in o.result.value.syncedProviders ==> t in types)
            && (o.result.value.syncedCount == 0 ==> o.vault == vault && o.result.value.syncedProviders == [])
  {
    var acc := RunProviders(ProviderStepFn(ctx), Acc(state, vault, 0, {}), types);
    ProviderStepWellBehaved(ctx);
    RunProvidersShape(ProviderStepFn(ctx), Acc(state, vault, 0, {}), types);
    KeptShape(AllCases, t => t in acc.synced);
    if acc.count == 0 {
      assert SyncedList(acc.synced) == [] by {
        KeptNone(AllCases, t => t in acc.synced);
      }
    }
  }



  lemma {:induction false} KeptShape(types: seq<ProviderType>, wanted: ProviderType -> bool)
    ensures forall t :: t in Kept(types, wanted) <==> t in types && wanted(t)
    decreases |types|
  {
    if types != [] {
      KeptShape(types[..|types| - 1], wanted);
      assert types == types[..|types| - 1] + [types[|types| - 1]];
    }
  }

  lemma {:induction false} KeptNone(types: seq<ProviderType>, wanted: ProviderType -> bool)
    requires forall t :: !wanted(t)
    ensures Kept(types, wanted) == []
    decreases |types|
  {
    if types != [] {
      KeptNone(types[..|types| - 1], wanted);
    }
  }

  /** `ps` are registered providers, one per type of `types`, in that order,
      and no type is listed twice. */
  ghost predicate Lineup(ps: seq<AnyProvider>, types: seq<ProviderType>, providers: map<ProviderType, AnyProvider>) {
    && |types| == |ps|
    && NoDuplicates(types)
    && (forall k :: 0 <= k < |ps| ==> ps[k].Type() == types[k] && ps[k] in providers.Values)
  }

  lemma EnabledLineup(providers: map<ProviderType, AnyProvider>, config: Config)
    requires forall t :: t in providers && providers[t].Type() == t
    ensures Lineup(Select(providers, AllCases, EnabledIn(config)), EnabledTypes(config), providers)
  {
    var r := Select(providers, AllCases, EnabledIn(config));
    EnabledShape(providers, config);
    SelectMembers(providers, AllCases, EnabledIn(config));
    forall k | 0 <= k < |r| ensures r[k] in providers.Values {
      assert Picked(providers, AllCases, EnabledIn(config), r[k]);
    }
    AllCasesComplete(Claude);
    KeptDistinct(AllCases, EnabledIn(config));
  }

  /** Every provider's mutable objects lie inside `objs`. */
  ghost predicate Within(ps: seq<AnyProvider>, objs: set<object>) {
    forall k :: 0 <= k < |ps| ==> ps[k].Objects() <= objs
  }

  /** No provider type is listed twice. */
  predicate NoDuplicates(types: seq<ProviderType>) {
    forall i, j :: 0 <= i < j < |types| ==> types[i] != types[j]
  }

  /** Keeping some of a list without duplicates keeps it without duplicates. */
  lemma {:induction false} KeptDistinct(types: seq<ProviderType>, wanted: ProviderType -> bool)
    requires NoDuplicates(types)
    ensures NoDuplicates(Kept(types, wanted))
    decreases |types|
  {
    if types != [] {
      var init := types[..|types| - 1];
      var last := types[|types| - 1];
      KeptDistinct(init, wanted);
      KeptShape(init, wanted);
      forall k | 0 <= k < |init| ensures init[k] != last {
        assert init[k] == types[k];
      }
      assert last !in init;
      var r := Kept(types, wanted);
      var r' := Kept(init, wanted);
      assert r == r' + (if wanted(last) then [last] else []);
      forall i, j | 0 <= i < j < |r| ensures r[i] != r[j] {
        assert r[i] == r'[i];
        if j < |r'| {
          assert r[j] == r'[j];
        } else {
          assert r[i] in r' && r[i] in init && r[j] == last;
        }
      }
    }
  }

  /** With sync switched off a cycle records exactly one skipped entry and
      touches neither the sync state nor the vault. */
  lemma DisabledSkips(config: Config, env: Env, s: ServiceState)
    requires !config.syncEnabled
    ensures var s' := PerformSpec(config, env, s);
            s'.state == s.state && s'.vault == s.vault
            && History.Last(s'.entries) == Some(History.NewEntry(History.Skipped, 0, None, [], env.now))
            && (|s.entries| < History.MaxEntries ==> |s'.entries| == |s.entries| + 1)
  {
  }

  /** An unsafe destination fails the cycle before any provider runs: one
      failure entry with the path-traversal message, nothing else changes. */
  lemma InvalidDestinationFails(config: Config, env: Env, s: ServiceState)
    requires config.syncEnabled && !config.IsDestinationPathValid(env.home)
    ensures var s' := PerformSpec(config, env, s);
            var e := History.Last(s'.entries).value;
            s'.state == s.state && s'.vault == s.vault
            && e.status == History.SyncStatus.Failure
            && e.errorMessage == Some(ErrorDescription(InvalidPath("Destination path")))
  {
    assert Cycle(config, env, s.state, s.vault) == Outcome(Failure(InvalidPath("Destination path")), s.state, s.vault);
    var e := History.NewEntry(History.SyncStatus.Failure, 0, Some(ErrorDescription(InvalidPath("Destination path"))), [], env.now);
    assert PerformSpec(config, env, s) == ServiceState(s.state, s.vault, History.Added(s.entries, e));
    History.LastAfterAdd(s.entries, e, e);
  }

  /** A completed cycle is recorded as a success exactly when it synced at
      least one file, with that count and the providers that synced. */
  lemma OutcomeRecorded(config: Config, env: Env, s: ServiceState)
    requires config.syncEnabled && config.IsDestinationPathValid(env.home)
    ensures var o := Cycle(config, env, s.state, s.vault);
            var e := History.Last(PerformSpec(config, env, s).entries).value;
            && o.result.Success?
            && (e.status == History.SyncStatus.Success <==> o.result.value.syncedCount > 0)
            && (e.status.Success? ==> e.filesProcessed == o.result.value.syncedCount
                                      && History.ProviderTypesOf(e) == o.result.value.syncedProviders)
            && (!e.status.Success? ==> e.status == History.Skipped)
  {
  }

  /** After a reset the sync it runs is a cold start: the providers run
      from no cursors with the start of the day as cutoff. */
  lemma ResetIsColdStart(config: Config, env: Env, vault: map<string, string>)
    ensures var s' := PerformSpec(config, env, ServiceState(map[], vault, []));
            var acc := RunProviders(ProviderStepFn(Ctx(config, env, env.todayStart)), Acc(map[], vault, 0, {}), EnabledTypes(config));
            config.syncEnabled && config.IsDestinationPathValid(env.home) ==>
              s'.state == CleanupOrphans(acc.state, env.fs) && s'.vault == acc.vault
  {
    if config.syncEnabled && config.IsDestinationPathValid(env.home) {
      assert Ctx(config, env, env.now - MaxAge(config, env, map[])) == Ctx(config, env, env.todayStart);
      CycleUnfold(config, env, map[], vault);
    }
  }

  // ---------------------------------------------------------------------
  // The service

  class SyncService {
    const settings: Settings
    const registry: ProviderRegistry
    const history: History.SyncHistory
    var syncState: SyncState
    /** The notes in the destination folder, by path. */
    var vault: map<string, string>

    ghost predicate Valid()
      reads this, registry
    {
      registry.Valid() && forall t :: t in registry.providers
    }

    /** The objects the providers' operations may change. */
    ghost function ProviderObjects(): set<object>
      reads registry
    {
      set p, o | p in registry.providers.Values && o in p.Objects() :: o
    }

    /** `init(settings:)`, with the stored sync state passed in. */
    constructor (settings: Settings, saved: SyncState, vault: map<string, string>)
      ensures Valid()
      ensures this.settings == settings && syncState == saved && this.vault == vault
      ensures fresh(history) && history.entries == []
      ensures fresh(registry)
    {
      this.settings := settings;
      this.syncState := saved;
      this.vault := vault;
      this.history := new History.SyncHistory();
      this.registry := new ProviderRegistry();
    }

    function State(): ServiceState
      reads this, history
    {
      ServiceState(syncState, vault, history.entries)
    }

    /** `performSync`. */
    method PerformSync(env: Env)
      requires Valid()
      modifies this, history, ProviderObjects()
      ensures State() == PerformSpec(old(settings.Snapshot()), env, old(State()))
      ensures !old(settings.Snapshot()).syncEnabled || !old(settings.Snapshot()).IsDestinationPathValid(env.home) ==> unchanged(old(ProviderObjects()))
    {
      if !settings.syncEnabled {
        history.Add(History.NewEntry(History.Skipped, 0, None, [], env.now));
        return;
      }
      SyncAndRecord(env);
    }

    /** The enabled branch of `performSync`: run a cycle and record its outcome. */
    method SyncAndRecord(env: Env)
      requires Valid()
      modifies this, history, ProviderObjects()
      ensures var o := Cycle(old(settings.Snapshot()), env, old(syncState), old(vault));
              syncState == o.state && vault == o.vault
              && history.entries == History.Added(old(history.entries), OutcomeEntry(o.result, env.now))
      ensures !old(settings.Snapshot()).IsDestinationPathValid(env.home) ==> unchanged(old(ProviderObjects()))
    {
      var result := SyncAllSessions(env);
      RecordOutcome(result, env.now);
    }

    /** The history entry `performSync` adds for a cycle's result. */
    method RecordOutcome(result: Result<SyncResult, SyncError>, now: Time)
      modifies history
      ensures history.entries == History.Added(old(history.entries), OutcomeEntry(result, now))
    {
      if result.Failure? {
        history.Add(History.NewEntry(History.SyncStatus.Failure, 0, Some(ErrorDescription(result.error)), [], now));
      } else if result.value.syncedCount > 0 {
        history.Add(History.NewEntry(History.SyncStatus.Success, result.value.syncedCount, None, result.value.syncedProviders, now));
      } else {
        history.Add(History.NewEntry(History.Skipped, 0, None, [], now));
      }
    }

    /** `resetState`: forget every cursor and the history, then sync. */
    method ResetState(env: Env)
      requires Valid()
      modifies this, history, ProviderObjects()
      ensures State() == PerformSpec(old(settings.Snapshot()), env, ServiceState(map[], old(vault), []))
      ensures !old(settings.Snapshot()).syncEnabled || !old(settings.Snapshot()).IsDestinationPathValid(env.home) ==> unchanged(old(ProviderObjects()))
    {
      syncState := map[];
      history.Clear();
      PerformSync(env);
    }

    /** `syncAllSessions`. */
    method SyncAllSessions(env: Env) returns (result: Result<SyncResult, SyncError>)
      requires Valid()
      modifies this, ProviderObjects()
      ensures Outcome(result, syncState, vault) == Cycle(old(settings.Snapshot()), env, old(syncState), old(vault))
      ensures !old(settings.Snapshot()).IsDestinationPathValid(env.home) ==> unchanged(this) && unchanged(old(ProviderObjects()))
    {
      var config := settings.Snapshot();
      if !config.IsDestinationPathValid(env.home) {
        return Failure(InvalidPath("Destination path"));
      }
      ghost var step := StepFor(Ctx(config, env, env.now - MaxAge(config, env, syncState)));
      CycleRuns(config, env, syncState, vault, step);
      result := RunCycle(config, env, step);
    }

    /** A cycle past the destination check: prepare the providers, fix the
        lookback, and run the provider loop. */
    method RunCycle(config: Config, env: Env, ghost step: ProviderStepper) returns (result: Result<SyncResult, SyncError>)
      requires Valid() && config == settings.Snapshot()
      requires StepsAs(step, Ctx(config, env, env.now - MaxAge(config, env, syncState)))
      modifies this, ProviderObjects()
      ensures Outcome(result, syncState, vault) == Finish(env, RunProviders(step, Acc(old(syncState), old(vault), 0, {}), EnabledTypes(config)))
    {
      ghost var objs := ProviderObjects();
      var enabledProviders := PrepareProviders(config, env, objs);
      var maxAge := MaxAge(config, env, syncState);
      var ctx := Ctx(config, env, env.now - maxAge);
      result := RunEnabled(enabledProviders, EnabledTypes(config), objs, step, ctx, maxAge);
    }

    /** The enabled providers, in `allCases` order, with their caches cleared. */
    method PrepareProviders(config: Config, env: Env, ghost objs: set<object>) returns (enabledProviders: seq<AnyProvider>)
      requires Valid() && config == settings.Snapshot() && objs == ProviderObjects()
      modifies objs
      ensures syncState == old(syncState) && vault == old(vault)
      ensures Lineup(enabledProviders, EnabledTypes(config), registry.providers)
      ensures Within(enabledProviders, objs)
      ensures forall k :: 0 <= k < |enabledProviders| ==> enabledProviders[k].Coherent(env.fs, env.codec)
    {
      enabledProviders := registry.EnabledProviders(settings);
      EnabledLineup(registry.providers, config);
      ClearCaches(enabledProviders, objs, env);
    }

    /** `provider.clearCache()` for every enabled provider. */
    method ClearCaches(enabledProviders: seq<AnyProvider>, ghost objs: set<object>, env: Env)
      requires Within(enabledProviders, objs)
      modifies objs
      ensures forall k :: 0 <= k < |enabledProviders| ==> enabledProviders[k].Coherent(env.fs, env.codec)
    {
      var i := 0;
      while i < |enabledProviders|
        invariant 0 <= i <= |enabledProviders|
        invariant forall k :: 0 <= k < i ==> enabledProviders[k].Coherent(env.fs, env.codec)
      {
        ClearCache(enabledProviders[i]);
        i := i + 1;
      }
    }

    /** The lookback, the provider loop and the cleanup of a cycle that passed
        the destination check; the providers run in `allCases` order. */
    method RunEnabled(enabledProviders: seq<AnyProvider>, ghost types: seq<ProviderType>, ghost objs: set<object>,
                      ghost step: ProviderStepper, ctx: Ctx, maxAge: int)
      returns (result: Result<SyncResult, SyncError>)
      requires ctx.cutoff == ctx.env.now - maxAge && StepsAs(step, ctx)
      requires Lineup(enabledProviders, types, registry.providers)
      requires Within(enabledProviders, objs)
      requires forall k :: 0 <= k < |enabledProviders| ==> enabledProviders[k].Coherent(ctx.env.fs, ctx.env.codec)
      modifies this, objs
      ensures Outcome(result, syncState, vault) == Finish(ctx.env, RunProviders(step, Acc(old(syncState), old(vault), 0, {}), types))
    {
      var env := ctx.env;
      ghost var start := Acc(syncState, vault, 0, {});
      var totalSyncedCount: nat, syncedProviders: set<ProviderType> := 0, {};
      var i := 0;
      while i < |enabledProviders|
        invariant 0 <= i <= |enabledProviders|
        invariant RunProviders(step, start, types) == RunProviders(step, Acc(syncState, vault, totalSyncedCount, syncedProviders), types[i..])
        invariant forall k :: i <= k < |enabledProviders| ==> enabledProviders[k].Coherent(env.fs, env.codec)
      {
        var provider := enabledProviders[i];
        assert types[i..][0] == provider.Type() && types[i..][1..] == types[i + 1..];
        forall k | i < k < |enabledProviders| ensures enabledProviders[k].Objects() !! provider.Objects() {
          assert types[i] != types[k];
        }
        totalSyncedCount, syncedProviders := SyncProvider(provider, ctx, maxAge, step, totalSyncedCount, syncedProviders);
        i := i + 1;
      }
      assert types[i..] == [];
      syncState := CleanupOrphans(syncState, env.fs);
      result := Success(SyncResult(totalSyncedCount, |syncState|, SyncedList(syncedProviders)));
    }

    /** One provider's pass of the provider loop. */
    method SyncProvider(provider: AnyProvider, ctx: Ctx, maxAge: int, ghost step: ProviderStepper, count: nat, synced: set<ProviderType>)
      returns (count': nat, synced': set<ProviderType>)
      requires ctx.cutoff == ctx.env.now - maxAge && StepsAs(step, ctx)
      requires provider.Coherent(ctx.env.fs, ctx.env.codec)
      modifies this, provider.Objects()
      ensures provider.Coherent(ctx.env.fs, ctx.env.codec)
      ensures Acc(syncState, vault, count', synced') == step(provider.Type(), Acc(old(syncState), old(vault), count, synced))
    {
      ghost var before := Acc(syncState, vault, count, synced);
      var env := ctx.env;
      var providerType := provider.Type();
      count', synced' := count, synced;
      if ctx.config.IsPathValid(providerType, env.home) {
        var providerPath := ctx.config.ExpandedPath(providerType, env.home);
        var sessionFiles := FindSessionFiles(provider, env.fs, providerPath, maxAge, env.now);
        if sessionFiles.Success? {
          count', synced' := SyncProviderFiles(provider, ctx, StepFn(ctx, providerType), sessionFiles.value, count, synced);
        }
      }
      assert Acc(syncState, vault, count', synced') == ProviderStep(ctx, provider.Type(), before);
    }

    /** The per-file loop for one provider; a failed write ends it. */
    method SyncProviderFiles(provider: AnyProvider, ctx: Ctx, ghost step: Stepper, sessionFiles: seq<SessionFile>,
                             count: nat, synced: set<ProviderType>)
      returns (count': nat, synced': set<ProviderType>)
      requires FileStepsAs(step, ctx, provider.Type())
      requires provider.Coherent(ctx.env.fs, ctx.env.codec)
      modifies this, provider.Objects()
      ensures provider.Coherent(ctx.env.fs, ctx.env.codec)
      ensures Acc(syncState, vault, count', synced')
              == RunFiles(step, provider.Type(), Acc(old(syncState), old(vault), count, synced), sessionFiles)
    {
      var t := provider.Type();
      ghost var start := Acc(syncState, vault, count, synced);
      count', synced' := count, synced;
      var j := 0;
      while j < |sessionFiles|
        invariant 0 <= j <= |sessionFiles|
        invariant provider.Coherent(ctx.env.fs, ctx.env.codec)
        invariant RunFiles(step, t, start, sessionFiles) == RunFiles(step, t, Acc(syncState, vault, count', synced'), sessionFiles[j..])
      {
        var file := sessionFiles[j];
        assert sessionFiles[j..][0] == file && sessionFiles[j..][1..] == sessionFiles[j + 1..];
        var appended, failed := SyncFile(provider, ctx, step, file);
        if failed {
          return;
        }
        if appended {
          count' := count' + 1;
          synced' := synced' + {t};
        }
        j := j + 1;
      }
    }

    /** One transcript: skip it, move its cursor, or write its new messages. */
    method SyncFile(provider: AnyProvider, ctx: Ctx, ghost step: Stepper, file: SessionFile) returns (appended: bool, failed: bool)
      requires FileStepsAs(step, ctx, provider.Type())
      requires provider.Coherent(ctx.env.fs, ctx.env.codec)
      modifies this, provider.Objects()
      ensures provider.Coherent(ctx.env.fs, ctx.env.codec)
      ensures FileOutcome(syncState, vault, appended, failed) == step(old(syncState), old(vault), file)
    {
      ghost var expected := FileStep(ctx, provider.Type(), syncState, vault, file);
      if file.size < SessionMinSizeBytes {
        return false, false;
      }
      var lastSyncTime := LastSynced(syncState, file.path);
      if lastSyncTime.Some? && file.modificationDate <= lastSyncTime.value {
        return false, false;
      }
      appended, failed := ReadSession(provider, ctx, file);
    }

    /** A transcript that is due: parse it and act on what it holds. */
    method ReadSession(provider: AnyProvider, ctx: Ctx, file: SessionFile) returns (appended: bool, failed: bool)
      requires provider.Coherent(ctx.env.fs, ctx.env.codec)
      modifies this, provider.Objects()
      ensures provider.Coherent(ctx.env.fs, ctx.env.codec)
      ensures FileOutcome(syncState, vault, appended, failed) == ReadStep(ctx, provider.Type(), old(syncState), old(vault), file)
    {
      var env := ctx.env;
      ghost var before, notes := syncState, vault;
      var lastLine := LastLine(syncState, file.path);
      var result := ParseMessages(provider, env.fs, file, lastLine, Some(env.todayStart), env.codec);
      assert syncState == before && vault == notes;
      appended, failed := HandleParsed(provider, ctx, file, result);
    }

    /** The branch on the parse result: move the cursor, or write. */
    method HandleParsed(provider: AnyProvider, ctx: Ctx, file: SessionFile, result: ParseResult) returns (appended: bool, failed: bool)
      requires provider.Coherent(ctx.env.fs, ctx.env.codec)
      modifies this, provider.Objects()
      ensures provider.Coherent(ctx.env.fs, ctx.env.codec)
      ensures FileOutcome(syncState, vault, appended, failed) == ParsedStep(ctx, provider.Type(), old(syncState), old(vault), file, result)
    {
      if result.messages == [] {
        MoveCursor(file.path, result.totalLines, ctx.env.now);
        return false, false;
      }
      appended, failed := WriteNew(provider, ctx, file, result);
    }

    /** No new messages: the cursor moves past the lines read, if any. */
    method MoveCursor(path: string, totalLines: nat, now: Time)
      modifies this
      ensures vault == old(vault)
      ensures syncState == if totalLines > LastLine(old(syncState), path) then UpdateSession(old(syncState), path, totalLines, now)
                           else old(syncState)
    {
      var lastLine := LastLine(syncState, path);
      if totalLines > lastLine {
        syncState := UpdateSession(syncState, path, totalLines, now);
      }
    }

    /** New messages: resolve the session's names, then write. */
    method WriteNew(provider: AnyProvider, ctx: Ctx, file: SessionFile, result: ParseResult) returns (appended: bool, failed: bool)
      requires provider.Coherent(ctx.env.fs, ctx.env.codec)
      modifies this, provider.Objects()
      ensures provider.Coherent(ctx.env.fs, ctx.env.codec)
      ensures FileOutcome(syncState, vault, appended, failed)
              == WriteStep(ctx, provider.Type(), old(syncState), old(vault), file, result,
                           NameSpec(provider.Type(), ctx.env.fs, file, ctx.env.codec), MetadataSpec(provider.Type(), ctx.env.fs, file, ctx.env.codec))
    {
      var projectName, metadata := ResolveSession(provider, ctx.env, file);
      appended, failed := WriteSession(provider, ctx, file, result, projectName, metadata);
    }

    /** The session's project name and metadata, through the provider's caches. */
    method ResolveSession(provider: AnyProvider, env: Env, file: SessionFile) returns (projectName: string, metadata: SessionMetadata)
      requires provider.Coherent(env.fs, env.codec)
      modifies provider.Objects()
      ensures provider.Coherent(env.fs, env.codec)
      ensures syncState == old(syncState) && vault == old(vault)
      ensures projectName == NameSpec(provider.Type(), env.fs, file, env.codec)
      ensures metadata == MetadataSpec(provider.Type(), env.fs, file, env.codec)
    {
      projectName := ResolveProjectName(provider, env.fs, file, env.codec);
      metadata := ResolveMetadata(provider, env.fs, file, env.codec);
    }

    /** The part of the per-file loop after new messages were found. */
    method WriteSession(provider: AnyProvider, ctx: Ctx, file: SessionFile, result: ParseResult,
                        projectName: string, metadata: SessionMetadata)
      returns (appended: bool, failed: bool)
      modifies this
      ensures old(provider.Coherent(ctx.env.fs, ctx.env.codec)) ==> provider.Coherent(ctx.env.fs, ctx.env.codec)
      ensures FileOutcome(syncState, vault, appended, failed)
              == WriteStep(ctx, provider.Type(), old(syncState), old(vault), file, result, projectName, metadata)
    {
      var env := ctx.env;
      var err := AppendMarkdown(ctx.config, env, result.messages, projectName, provider.Type(), provider.DisplayName(), metadata);
      appended, failed := Commit(err, file.path, result.totalLines, env.now);
    }

    /** After the write: the cursor moves only when the note was written. */
    method Commit(err: Option<WriteError>, path: string, totalLines: nat, now: Time) returns (appended: bool, failed: bool)
      modifies this
      ensures appended == err.None? && failed == err.Some? && vault == old(vault)
      ensures syncState == if err.Some? then old(syncState) else UpdateSession(old(syncState), path, totalLines, now)
    {
      if err.Some? {
        return false, true;
      }
      syncState := UpdateSession(syncState, path, totalLines, now);
      return true, false;
    }

    /** `appendMarkdown`: create the note with its frontmatter, or append. */
    method AppendMarkdown(config: Config, env: Env, messages: seq<ConversationMessage>, projectName: string, providerType: ProviderType,
                          providerDisplayName: string, metadata: SessionMetadata)
      returns (err: Option<WriteError>)
      modifies this
      ensures syncState == old(syncState)
      ensures var r := AppendSpec(config, env, old(vault), messages, projectName, providerType, providerDisplayName, metadata);
              (r.Success? ==> err.None? && vault == r.value) && (r.Failure? ==> err == Some(r.error) && vault == old(vault))
    {
      var basePath := config.ExpandedDestinationPath(env.home);
      var destPath: string;
      var filename: string;
      if config.OutputOrganization() == Flat {
        destPath := basePath;
        filename := GenerateFilename(projectName, metadata.sessionId, env.date, RawValue(providerType), true);
      } else {
        destPath := AppendComponent(basePath, RawValue(providerType));
        filename := GenerateFilename(projectName, metadata.sessionId, env.date, RawValue(providerType), false);
      }
      var filePath := AppendComponent(destPath, filename);
      if filePath in env.unwritable {
        return Some(WriteFailed(filePath));
      }
      var content := ConvertForAppend(messages, providerDisplayName);
      var isNewFile := filePath !in vault;
      if isNewFile {
        var frontmatter := GenerateFrontmatter(providerType, projectName, metadata, env.date);
        vault := vault[filePath := frontmatter + content];
      } else {
        vault := vault[filePath := vault[filePath] + content];
      }
      return None;
    }
  }
}
