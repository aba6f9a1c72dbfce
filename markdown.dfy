/** `MarkdownConverter`: the YAML frontmatter of a new note, the rendering
    of a batch of messages, and the note's file name. */
module Markdown {
  import opened Wrappers
  import opened Seqs
  import opened Strings
  import opened Sessions
  import opened ProviderTypes

  const Delimiter: string := "---"

  /** The frontmatter lines, in order; `date` is the formatted "yyyy-MM-dd"
      of the current day. */
  function FrontmatterLines(provider: ProviderType, projectName: string, metadata: SessionMetadata, date: string): seq<string> {
    [Delimiter, "date: \"[[" + date + "]]\"", "provider: " + RawValue(provider), "project: " + projectName,
     "session: " + metadata.sessionId]
    + (if metadata.workingDirectory.Some? then ["cwd: " + metadata.workingDirectory.value] else [])
    + [Delimiter, ""]
  }

  method GenerateFrontmatter(provider: ProviderType, projectName: string, metadata: SessionMetadata, date: string)
    returns (frontmatter: string)
    ensures frontmatter == Join(FrontmatterLines(provider, projectName, metadata, date), "\n")
  {
    var lines: seq<string> := [Delimiter];
    lines := lines + ["date: \"[[" + date + "]]\""];
    lines := lines + ["provider: " + RawValue(provider)];
    lines := lines + ["project: " + projectName];
    lines := lines + ["session: " + metadata.sessionId];
    if metadata.workingDirectory.Some? {
      lines := lines + ["cwd: " + metadata.workingDirectory.value];
    }
    lines := lines + [Delimiter];
    lines := lines + [""];
    assert lines == FrontmatterLines(provider, projectName, metadata, date);
    return Join(lines, "\n");
  }

  /** Single-line frontmatter values. */
  predicate OneLine(s: string) {
    '\n' !in s
  }

  predicate FieldsOneLine(projectName: string, metadata: SessionMetadata, date: string) {
    OneLine(projectName) && OneLine(metadata.sessionId) && OneLine(date)
    && (metadata.workingDirectory.Some? ==> OneLine(metadata.workingDirectory.value))
  }

  /** The frontmatter lines when the values are single-line: none holds a newline. */
  lemma LinesOneLine(provider: ProviderType, projectName: string, metadata: SessionMetadata, date: string)
    requires FieldsOneLine(projectName, metadata, date)
    ensures var lines := FrontmatterLines(provider, projectName, metadata, date);
            forall i :: 0 <= i < |lines| ==> '\n' !in lines[i]
  {
    assert '\n' !in RawValue(provider) by {
      match provider
      case Claude =>
      case Gemini =>
      case Codex =>
    }
  }

  /** Splitting the frontmatter text at its newlines gives its lines back. */
  lemma FrontmatterRoundTrip(provider: ProviderType, projectName: string, metadata: SessionMetadata, date: string)
    requires FieldsOneLine(projectName, metadata, date)
    ensures var lines := FrontmatterLines(provider, projectName, metadata, date);
            Split(Join(lines, "\n"), {'\n'}) == lines
  {
    LinesOneLine(provider, projectName, metadata, date);
    SplitJoin(FrontmatterLines(provider, projectName, metadata, date), '\n');
  }

  /** The frontmatter text opens with "---" and a newline and closes with
      "---" and a newline, so the note body starts on a fresh line. */
  lemma FrontmatterDelimited(provider: ProviderType, projectName: string, metadata: SessionMetadata, date: string)
    ensures var text := Join(FrontmatterLines(provider, projectName, metadata, date), "\n");
            HasPrefix(text, Delimiter + "\n") && HasSuffix(text, "\n" + Delimiter + "\n")
  {
    var lines := FrontmatterLines(provider, projectName, metadata, date);
    var n := |lines|;
    assert n >= 7 && lines[0] == Delimiter && lines[n - 2] == Delimiter && lines[n - 1] == "";
    JoinFramed(lines, Delimiter, "\n");
  }

  /** A "cwd: " line is present exactly when the working directory is known. */
  lemma FrontmatterCwd(provider: ProviderType, projectName: string, metadata: SessionMetadata, date: string)
    ensures var lines := FrontmatterLines(provider, projectName, metadata, date);
            (exists i :: 0 <= i < |lines| && HasPrefix(lines[i], "cwd: ")) <==> metadata.workingDirectory.Some?
  {
    var lines := FrontmatterLines(provider, projectName, metadata, date);
    forall i | 0 <= i < |lines| ensures HasPrefix(lines[i], "cwd: ") ==> metadata.workingDirectory.Some? {
      if metadata.workingDirectory.None? || i != 5 {
        assert |lines[i]| < 5 || lines[i][1] != 'w';
      }
    }
    if metadata.workingDirectory.Some? {
      assert HasPrefix(lines[5], "cwd: ");
    }
  }

  /** The label of a message block. */
  function Label(role: Role, assistantName: string): string {
    if role == User then "**User**:" else "**" + assistantName + "**:"
  }

  /** The lines one message contributes: its label, a blank line before a
      table, the content, and two empty strings. */
  function MessageLines(m: ConversationMessage, assistantName: string): (r: seq<string>)
    ensures |r| >= 4
  {
    [Label(m.role, assistantName)] + (if HasPrefix(m.content, "|") then [""] else []) + [m.content, "", ""]
  }

  function MessageLinesFn(assistantName: string): ConversationMessage -> seq<string> {
    m => MessageLines(m, assistantName)
  }

  /** The text `convertForAppend` produces. */
  function Convert(messages: seq<ConversationMessage>, assistantName: string): string {
    Join(FlatMap(MessageLinesFn(assistantName), messages), "\n")
  }

  method ConvertForAppend(messages: seq<ConversationMessage>, assistantName: string) returns (text: string)
    ensures text == Convert(messages, assistantName)
  {
    var lines: seq<string> := [];
    var i := 0;
    while i < |messages|
      invariant 0 <= i <= |messages|
      invariant lines == FlatMap(MessageLinesFn(assistantName), messages[..i])
    {
      var message := messages[i];
      assert messages[..i + 1][..i] == messages[..i];
      var prefix := if message.role == User then "**User**:" else "**" + assistantName + "**:";
      var content := message.content;
      lines := lines + [prefix];
      if HasPrefix(content, "|") {
        lines := lines + [""];
      }
      lines := lines + [content];
      lines := lines + [""];
      lines := lines + [""];
      i := i + 1;
    }
    assert messages[..i] == messages;
    return Join(lines, "\n");
  }

  /** One message renders as its label line, an extra newline before a
      table, the content, and a blank line. */
  lemma ConvertSingle(m: ConversationMessage, assistantName: string)
    ensures Convert([m], assistantName)
            == Label(m.role, assistantName) + "\n" + (if HasPrefix(m.content, "|") then "\n" else "") + m.content + "\n\n"
  {
    assert [m][..0] == [];
    assert FlatMap(MessageLinesFn(assistantName), [m]) == MessageLines(m, assistantName);
    var heading := Label(m.role, assistantName);
    var lines := MessageLines(m, assistantName);
    var body := if HasPrefix(m.content, "|") then [heading, "", m.content] else [heading, m.content];
    assert lines == body + ["", ""];
    JoinTwoEmpty(body, "\n");
    var gap := if HasPrefix(m.content, "|") then "\n" else "";
    if HasPrefix(m.content, "|") {
      assert body[1..] == ["", m.content] && body[1..][1..] == [m.content];
      assert Join(body[1..], "\n") == "" + "\n" + m.content;
    } else {
      assert body[1..] == [m.content];
    }
    var text := heading + "\n" + gap + m.content;
    assert Join(body, "\n") == text;
    assert text + "\n" + "\n" == text + "\n\n";
  }

  lemma ConvertEmpty(assistantName: string)
    ensures Convert([], assistantName) == ""
  {
    assert FlatMap(MessageLinesFn(assistantName), []) == [];
  }

  lemma {:induction false} FlatMapLinesNonEmpty(messages: seq<ConversationMessage>, assistantName: string)
    requires messages != []
    ensures |FlatMap(MessageLinesFn(assistantName), messages)| >= 4
    decreases |messages|
  {
    assert |MessageLines(messages[|messages| - 1], assistantName)| >= 4;
  }

  /** Rendering two non-empty batches at once equals rendering them apart
      and joining with one newline. */
  lemma ConvertConcat(a: seq<ConversationMessage>, b: seq<ConversationMessage>, assistantName: string)
    requires a != [] && b != []
    ensures Convert(a + b, assistantName) == Convert(a, assistantName) + "\n" + Convert(b, assistantName)
  {
    var f := MessageLinesFn(assistantName);
    FlatMapConcat(f, a, b);
    FlatMapLinesNonEmpty(a, assistantName);
    FlatMapLinesNonEmpty(b, assistantName);
    JoinConcat(FlatMap(f, a), FlatMap(f, b), "\n");
  }

  const ProviderPrefixes: seq<string> := ["claude-", "gemini-", "codex-"]

  /** The project name with the first matching provider prefix removed. */
  function StripPrefix(name: string, prefixes: seq<string>): string
    decreases |prefixes|
  {
    if prefixes == [] then name
    else if HasPrefix(name, prefixes[0]) then name[|prefixes[0]|..]
    else StripPrefix(name, prefixes[1..])
  }

  lemma PrefixSecond(name: string, p: string)
    requires |p| > 1
    ensures HasPrefix(name, p) ==> name[1] == p[1]
  {
    if HasPrefix(name, p) {
      assert name[..|p|][1] == name[1];
    }
  }

  /** No name starts with two of the provider prefixes, so stripping the first
      match removes the one prefix the name has, once; a name with none is kept. */
  lemma StripProviderPrefix(name: string)
    ensures forall i, j :: 0 <= i < j < |ProviderPrefixes| ==> !(HasPrefix(name, ProviderPrefixes[i]) && HasPrefix(name, ProviderPrefixes[j]))
    ensures forall i :: 0 <= i < |ProviderPrefixes| && HasPrefix(name, ProviderPrefixes[i]) ==>
              StripPrefix(name, ProviderPrefixes) == name[|ProviderPrefixes[i]|..]
    ensures (forall i :: 0 <= i < |ProviderPrefixes| ==> !HasPrefix(name, ProviderPrefixes[i])) ==>
              StripPrefix(name, ProviderPrefixes) == name
  {
    forall i, j | 0 <= i < j < |ProviderPrefixes|
      ensures !(HasPrefix(name, ProviderPrefixes[i]) && HasPrefix(name, ProviderPrefixes[j]))
    {
      PrefixSecond(name, ProviderPrefixes[i]);
      PrefixSecond(name, ProviderPrefixes[j]);
      assert ProviderPrefixes[i][1] != ProviderPrefixes[j][1];
    }
    var ps := ProviderPrefixes;
    assert ps[1..] == ["gemini-", "codex-"] && ps[1..][1..] == ["codex-"] && ps[1..][1..][1..] == [];
  }

  /** `sanitizeFilename`'s separators. */
  const Invalid: set<char> := {'/', '\\', ':', '*', '?', '"', '<', '>', '|'}

  function Sanitize(name: string): string {
    Join(Split(name, Invalid), "-")
  }

  /** Sanitising replaces each invalid character by '-', one for one. */
  lemma SanitizeReplaces(name: string)
    ensures Sanitize(name) == Replace(name, Invalid, '-')
    ensures |Sanitize(name)| == |name|
    ensures forall i :: 0 <= i < |name| ==> Sanitize(name)[i] !in Invalid
  {
    JoinSplit(name, Invalid, '-');
  }

  /** The note's file name; the flat layout adds the provider id. */
  function Filename(projectName: string, sessionId: string, date: string, providerId: string, usePrefix: bool): string {
    date + "-" + NameMiddle(Sanitize(StripPrefix(projectName, ProviderPrefixes)), sessionId, providerId, usePrefix) + ".md"
  }

  /** The part of the name between the date and ".md". */
  function NameMiddle(project: string, sessionId: string, providerId: string, usePrefix: bool): string {
    if usePrefix then providerId + "-" + project + "-" + sessionId else project + "-" + sessionId
  }

  method GenerateFilename(projectName: string, sessionId: string, date: string, providerId: string, usePrefix: bool)
    returns (filename: string)
    ensures filename == Filename(projectName, sessionId, date, providerId, usePrefix)
  {
    var cleanProjectName := projectName;
    var i := 0;
    while i < |ProviderPrefixes|
      invariant 0 <= i <= |ProviderPrefixes|
      invariant StripPrefix(projectName, ProviderPrefixes) == StripPrefix(cleanProjectName, ProviderPrefixes[i..])
    {
      var provider := ProviderPrefixes[i];
      assert ProviderPrefixes[i..][0] == provider && ProviderPrefixes[i..][1..] == ProviderPrefixes[i + 1..];
      if HasPrefix(cleanProjectName, provider) {
        cleanProjectName := cleanProjectName[|provider|..];
        break;
      }
      i := i + 1;
    }
    var sanitizedProject := Sanitize(cleanProjectName);
    if usePrefix {
      return date + "-" + providerId + "-" + sanitizedProject + "-" + sessionId + ".md";
    } else {
      return date + "-" + sanitizedProject + "-" + sessionId + ".md";
    }
  }

  /** The name ends in ".md", starts with the date, and contains no '/' when
      the date, provider id and session id contain none: the note always
      lands directly in its folder. */
  lemma FilenameShape(projectName: string, sessionId: string, date: string, providerId: string, usePrefix: bool)
    ensures var f := Filename(projectName, sessionId, date, providerId, usePrefix);
            HasSuffix(f, ".md") && HasPrefix(f, date + "-")
    ensures '/' !in date && '/' !in providerId && '/' !in sessionId ==>
              '/' !in Filename(projectName, sessionId, date, providerId, usePrefix)
  {
    var project := Sanitize(StripPrefix(projectName, ProviderPrefixes));
    SanitizeNoSlash(StripPrefix(projectName, ProviderPrefixes));
    NameFrame(date + "-", NameMiddle(project, sessionId, providerId, usePrefix));
  }

  /** A sanitised name has no '/'. */
  lemma SanitizeNoSlash(name: string)
    ensures '/' !in Sanitize(name)
  {
    SanitizeReplaces(name);
  }

  /** A name assembled as a head, a middle and ".md". */
  lemma NameFrame(head: string, mid: string)
    ensures HasSuffix(head + mid + ".md", ".md") && HasPrefix(head + mid + ".md", head)
    ensures '/' !in head && '/' !in mid ==> '/' !in head + mid + ".md"
  {
    var f := head + mid + ".md";
    assert f[|f| - 3..] == ".md";
    assert f[..|head|] == head;
  }
}
