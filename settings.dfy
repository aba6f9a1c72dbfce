/** The user preferences: destination vault, sync interval and age window,
    output layout, and each provider's switch and base path. */
module SettingsModel {
  import opened Wrappers
  import opened Strings
  import opened Paths
  import opened ProviderTypes

  datatype OutputOrganization = Flat | Subfolder

  function OrganizationRaw(o: OutputOrganization): string {
    match o
    case Flat => "flat"
    case Subfolder => "subfolder"
  }

  /** `OutputOrganization(rawValue:)`. */
  function OrganizationFromRaw(s: string): (r: Option<OutputOrganization>)
    ensures r.Some? ==> OrganizationRaw(r.value) == s
    ensures r.None? ==> forall o :: OrganizationRaw(o) != s
  {
    if s == "flat" then Some(Flat) else if s == "subfolder" then Some(Subfolder) else None
  }

  /** The stored values of every setting at one moment. */
  datatype Config = Config(
    destinationPath: string,
    syncIntervalSeconds: int,
    syncEnabled: bool,
    sessionMaxAgeMinutes: int,
    launchAtLogin: bool,
    outputOrganizationRaw: string,
    claudeEnabled: bool,
    claudePath: string,
    geminiEnabled: bool,
    geminiPath: string,
    codexEnabled: bool,
    codexPath: string)
  {
    /** An unknown stored raw value reads as the flat layout. */
    function OutputOrganization(): OutputOrganization {
      OrganizationFromRaw(outputOrganizationRaw).GetOr(Flat)
    }

    function IsProviderEnabled(t: ProviderType): bool {
      match t
      case Claude => claudeEnabled
      case Gemini => geminiEnabled
      case Codex => codexEnabled
    }

    function Path(t: ProviderType): string {
      match t
      case Claude => claudePath
      case Gemini => geminiPath
      case Codex => codexPath
    }

    function ExpandedPath(t: ProviderType, home: string): string {
      ExpandTilde(Path(t), home)
    }

    function ExpandedDestinationPath(home: string): string {
      ExpandTilde(destinationPath, home)
    }

    predicate IsDestinationPathValid(home: string) {
      IsPathSafe(destinationPath, home)
    }

    predicate IsPathValid(t: ProviderType, home: string) {
      IsPathSafe(Path(t), home)
    }
  }

  const DefaultDestination: string := "~/Library/Mobile Documents/iCloud~md~obsidian/Documents/vault/claude"

  /** The `@AppStorage` defaults. */
  const Defaults: Config := Config(DefaultDestination, 5, true, 60, false, "flat",
                                   true, "~/.claude/projects", false, "~/.gemini/tmp", false, "~/.codex/sessions")

  /** Out of the box only Claude Code is synced, every provider reads its
      own default location, and the layout is flat. */
  lemma DefaultsShape(t: ProviderType)
    ensures Defaults.Path(t) == DefaultPath(t)
    ensures Defaults.IsProviderEnabled(t) <==> t == Claude
    ensures Defaults.OutputOrganization() == Flat
    ensures Defaults.syncEnabled && Defaults.syncIntervalSeconds == 5 && Defaults.sessionMaxAgeMinutes == 60
  {
  }

  lemma OrganizationRoundTrip(o: OutputOrganization)
    ensures OrganizationFromRaw(OrganizationRaw(o)) == Some(o)
    ensures Defaults.(outputOrganizationRaw := OrganizationRaw(o)).OutputOrganization() == o
  {
  }

  const Slash: set<char> := {'/'}

  /** `isPathSafe`: after tilde expansion the path is absolute and has no
      "/../" inside and no "/.." at the end. */
  predicate IsPathSafe(path: string, home: string) {
    var e := ExpandTilde(path, home);
    HasPrefix(e, "/") && !Contains(e, "/../") && !HasSuffix(e, "/..")
  }

  /** An absolute path passes the check exactly when none of its components
      is "..": the two substring tests catch every parent reference. */
  lemma PathSafeIff(path: string, home: string)
    ensures var e := ExpandTilde(path, home);
            IsPathSafe(path, home) <==> HasPrefix(e, "/") && ".." !in Components(e)
  {
    var e := ExpandTilde(path, home);
    if HasPrefix(e, "/") {
      DotDotAfterSeparator(e);
      var parts := Split(e, Slash);
      assert parts[0] == "";
      assert ".." in parts <==> ".." in parts[1..];
      assert ".." in Components(e) <==> ".." in parts;
    }
  }

  /** A component after the first is ".." exactly when "/../" occurs or the
      text ends with "/..". */
  lemma {:induction false} DotDotAfterSeparator(s: string)
    ensures ".." in Split(s, Slash)[1..] <==> Contains(s, "/../") || HasSuffix(s, "/..")
    decreases |s|
  {
    if s != [] {
      DotDotAfterSeparator(s[1..]);
      SuffixStep(s, "/..");
      ContainsStep(s, "/../");
      if s[0] == '/' {
        DotDotAtSlash(s);
      } else {
        DotDotElsewhere(s);
      }
    }
  }

  /** The step of `DotDotAfterSeparator` at any other character: nothing starts here. */
  lemma DotDotElsewhere(s: string)
    requires s != [] && s[0] != '/'
    ensures (".." in Split(s, Slash)[1..] <==> ".." in Split(s[1..], Slash)[1..])
    ensures !HasPrefix(s, "/../") && s != "/.."
  {
    assert Split(s, Slash)[1..] == Split(s[1..], Slash)[1..];
    assert s[0] != "/../"[0];
  }

  /** The step of `DotDotAfterSeparator` at a separator: the component that
      starts right after it is ".." exactly when "/../" or a final "/.." starts here. */
  lemma DotDotAtSlash(s: string)
    requires s != [] && s[0] == '/'
    ensures var rest := Split(s[1..], Slash);
            (".." in Split(s, Slash)[1..] <==> rest[0] == ".." || ".." in rest[1..])
            && (rest[0] == ".." <==> HasPrefix(s, "/../") || s == "/..")
  {
    var s' := s[1..];
    var rest := Split(s', Slash);
    assert Split(s, Slash)[1..] == rest;
    assert ".." in rest <==> rest[0] == ".." || ".." in rest[1..];
    FirstPart(s', "..", Slash);
    assert HasPrefix(s, "/../") <==> |s'| >= 3 && s'[..2] == ".." && s'[2] == '/';
    assert s == "/.." <==> s' == "..";
  }

  /** A relative path, such as an unexpanded "~user/..." or "vault", is never safe. */
  lemma RelativeUnsafe(path: string, home: string)
    requires !HasPrefix(ExpandTilde(path, home), "/")
    ensures !IsPathSafe(path, home)
  {
  }

  /** The stored settings; each setter changes its own value only. */
  class Settings {
    var destinationPath: string
    var syncIntervalSeconds: int
    var syncEnabled: bool
    var sessionMaxAgeMinutes: int
    var launchAtLogin: bool
    var outputOrganizationRaw: string
    var claudeEnabled: bool
    var claudePath: string
    var geminiEnabled: bool
    var geminiPath: string
    var codexEnabled: bool
    var codexPath: string

    constructor ()
      ensures Snapshot() == Defaults
    {
      destinationPath := DefaultDestination;
      syncIntervalSeconds := 5;
      syncEnabled := true;
      sessionMaxAgeMinutes := 60;
      launchAtLogin := false;
      outputOrganizationRaw := "flat";
      claudeEnabled := true;
      claudePath := "~/.claude/projects";
      geminiEnabled := false;
      geminiPath := "~/.gemini/tmp";
      codexEnabled := false;
      codexPath := "~/.codex/sessions";
    }

    function Snapshot(): Config
      reads this
    {
      Config(destinationPath, syncIntervalSeconds, syncEnabled, sessionMaxAgeMinutes, launchAtLogin,
             outputOrganizationRaw, claudeEnabled, claudePath, geminiEnabled, geminiPath, codexEnabled, codexPath)
    }

    ghost predicate SameGeneral(c: Config)
      reads this
    {
      destinationPath == c.destinationPath && syncIntervalSeconds == c.syncIntervalSeconds
      && syncEnabled == c.syncEnabled && sessionMaxAgeMinutes == c.sessionMaxAgeMinutes
      && launchAtLogin == c.launchAtLogin
    }

    /** The `outputOrganization` setter: reading it back gives `o`. */
    method SetOutputOrganization(o: OutputOrganization)
      modifies this
      ensures Snapshot().OutputOrganization() == o
      ensures Snapshot() == old(Snapshot()).(outputOrganizationRaw := OrganizationRaw(o))
    {
      outputOrganizationRaw := OrganizationRaw(o);
    }

    method SetProviderEnabled(t: ProviderType, enabled: bool)
      modifies this
      ensures Snapshot().IsProviderEnabled(t) == enabled
      ensures forall u :: u != t ==> Snapshot().IsProviderEnabled(u) == old(Snapshot()).IsProviderEnabled(u)
      ensures forall u :: Snapshot().Path(u) == old(Snapshot()).Path(u)
      ensures SameGeneral(old(Snapshot())) && outputOrganizationRaw == old(outputOrganizationRaw)
    {
      match t
      case Claude => claudeEnabled := enabled;
      case Gemini => geminiEnabled := enabled;
      case Codex => codexEnabled := enabled;
    }

    method SetPath(path: string, t: ProviderType)
      modifies this
      ensures Snapshot().Path(t) == path
      ensures forall u :: u != t ==> Snapshot().Path(u) == old(Snapshot()).Path(u)
      ensures forall u :: Snapshot().IsProviderEnabled(u) == old(Snapshot()).IsProviderEnabled(u)
      ensures SameGeneral(old(Snapshot())) && outputOrganizationRaw == old(outputOrganizationRaw)
    {
      match t
      case Claude => claudePath := path;
      case Gemini => geminiPath := path;
      case Codex => codexPath := path;
    }
  }
}
