/** The three supported command-line assistants and their fixed attributes. */
module ProviderTypes {
  import opened Wrappers

  datatype ProviderType = Claude | Gemini | Codex

  /** `ProviderType.allCases`, in declaration order. */
  const AllCases: seq<ProviderType> := [Claude, Gemini, Codex]

  function RawValue(t: ProviderType): string {
    match t
    case Claude => "claude"
    case Gemini => "gemini"
    case Codex => "codex"
  }

  /** `id` is the raw value. */
  function Id(t: ProviderType): string {
    RawValue(t)
  }

  /** `ProviderType(rawValue:)`: the case whose raw value is `s`, if any. */
  function FromRaw(s: string): (r: Option<ProviderType>)
    ensures r.Some? ==> RawValue(r.value) == s
    ensures r.None? ==> forall t :: RawValue(t) != s
  {
    if s == "claude" then Some(Claude)
    else if s == "gemini" then Some(Gemini)
    else if s == "codex" then Some(Codex)
    else None
  }

  function DisplayName(t: ProviderType): string {
    match t
    case Claude => "Claude Code"
    case Gemini => "Gemini CLI"
    case Codex => "Codex CLI"
  }

  function DefaultPath(t: ProviderType): string {
    match t
    case Claude => "~/.claude/projects"
    case Gemini => "~/.gemini/tmp"
    case Codex => "~/.codex/sessions"
  }

  /** Raw values round-trip, so they are pairwise distinct. */
  lemma RawRoundTrip(t: ProviderType)
    ensures FromRaw(RawValue(t)) == Some(t)
    ensures Id(t) == RawValue(t)
  {
  }

  lemma RawInjective(t: ProviderType, u: ProviderType)
    ensures RawValue(t) == RawValue(u) <==> t == u
  {
    RawRoundTrip(t);
    RawRoundTrip(u);
  }

  /** `allCases` lists every case exactly once. */
  lemma AllCasesComplete(t: ProviderType)
    ensures t in AllCases
    ensures forall i, j :: 0 <= i < j < |AllCases| ==> AllCases[i] != AllCases[j]
  {
  }

  /** Display names and default paths tell the cases apart. */
  lemma NamesDistinct(t: ProviderType, u: ProviderType)
    ensures DisplayName(t) == DisplayName(u) <==> t == u
    ensures DefaultPath(t) == DefaultPath(u) <==> t == u
  {
  }
}
