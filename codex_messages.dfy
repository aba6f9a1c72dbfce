/** One decoded line of a Codex CLI session log and the properties the
    parser reads from it. */
module CodexMessages {
  import opened Wrappers
  import opened Strings
  import opened Sessions

  datatype CodexContentBlock = CodexContentBlock(kind: Option<string>, text: Option<string>) {
    predicate IsText() {
      kind == Some("input_text") || kind == Some("output_text")
    }
  }

  datatype CodexPayload = CodexPayload(
    kind: Option<string>,
    role: Option<string>,
    content: Option<seq<CodexContentBlock>>,
    cwd: Option<string>)

  /** Text a user turn starts with when it is an injected system message. */
  const SystemPrefixes: seq<string> := ["<permissions", "<environment_context>", "# AGENTS.md", "<INSTRUCTIONS>"]

  predicate HasSystemPrefix(text: string) {
    exists p :: p in SystemPrefixes && HasPrefix(text, p)
  }

  /** `compactMap` over the content blocks: the texts of the text blocks. */
  function BlockTexts(blocks: seq<CodexContentBlock>): (r: seq<string>)
    ensures forall t :: t in r <==> exists b :: b in blocks && b.IsText() && b.text == Some(t)
    decreases |blocks|
  {
    if blocks == [] then []
    else
      var b := blocks[0];
      assert forall x :: x in blocks <==> x == b || x in blocks[1..];
      (if b.IsText() && b.text.Some? then [b.text.value] else []) + BlockTexts(blocks[1..])
  }

  datatype CodexMessage = CodexMessage(timestamp: Option<string>, kind: Option<string>, payload: Option<CodexPayload>) {

    /** `payload?.role`. */
    function Role(): Option<string> {
      if payload.None? then None else payload.value.role
    }

    /** `payload?.content?.compactMap { ... }.joined(separator: "\n")`. */
    function TextContent(): (r: Option<string>)
      ensures r.None? <==> payload.None? || payload.value.content.None?
    {
      if payload.None? || payload.value.content.None? then None
      else Some(Join(BlockTexts(payload.value.content.value), "\n"))
    }

    predicate IsUserMessage() {
      kind == Some("response_item") && Role() == Some("user")
      && TextContent().Some? && !HasSystemPrefix(TextContent().value)
    }

    predicate IsAssistantMessage() {
      kind == Some("response_item") && Role() == Some("assistant")
    }

    /** `parsedTimestamp`; `parseTime` stands for the two ISO-8601 formatters. */
    function ParsedTimestamp(parseTime: string -> Option<Time>): Option<Time> {
      if timestamp.None? then None else parseTime(timestamp.value)
    }
  }

  /** What being a user turn requires, and that no turn is both. */
  lemma UserMessageShape(m: CodexMessage)
    ensures m.IsUserMessage() ==>
              m.kind == Some("response_item") && m.Role() == Some("user") && m.TextContent().Some?
              && forall i :: 0 <= i < |SystemPrefixes| ==> !HasPrefix(m.TextContent().value, SystemPrefixes[i])
    ensures !(m.IsUserMessage() && m.IsAssistantMessage())
    ensures m.IsAssistantMessage() <==> m.kind == Some("response_item") && m.Role() == Some("assistant")
  {
  }

  /** A user turn starting with any system prefix is filtered out. */
  lemma SystemPrefixFiltered(m: CodexMessage, i: nat)
    requires i < |SystemPrefixes| && m.TextContent().Some? && HasPrefix(m.TextContent().value, SystemPrefixes[i])
    ensures !m.IsUserMessage()
  {
    assert SystemPrefixes[i] in SystemPrefixes;
  }

  /** Block texts keep the blocks' order. */
  lemma {:induction false} BlockTextsConcat(a: seq<CodexContentBlock>, b: seq<CodexContentBlock>)
    ensures BlockTexts(a + b) == BlockTexts(a) + BlockTexts(b)
    decreases |a|
  {
    if a == [] {
      assert a + b == b;
    } else {
      assert (a + b)[0] == a[0];
      assert (a + b)[1..] == a[1..] + b;
      BlockTextsConcat(a[1..], b);
    }
  }

  lemma TimestampAbsent(m: CodexMessage, parseTime: string -> Option<Time>)
    requires m.timestamp.None?
    ensures m.ParsedTimestamp(parseTime).None?
  {
  }
}
