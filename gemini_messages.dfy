/** The two Gemini CLI session formats: a session object holding chat
    messages (the `.json` files of a chats folder) and the legacy bare array of turns (logs.json). */
module GeminiMessages {
  import opened Wrappers
  import opened Strings
  import opened Sessions

  datatype GeminiChatMessage = GeminiChatMessage(
    id: Option<string>,
    timestamp: Option<string>,
    kind: string,
    content: Option<string>)
  {
    predicate IsUserMessage() { kind == "user" }

    predicate IsAssistantMessage() { kind == "gemini" }

    function TextContent(): Option<string> { content }

    /** `parsedTimestamp`; `parseTime` stands for the two ISO-8601 formatters. */
    function ParsedTimestamp(parseTime: string -> Option<Time>): Option<Time> {
      if timestamp.None? then None else parseTime(timestamp.value)
    }
  }

  datatype GeminiSessionFile = GeminiSessionFile(
    sessionId: string,
    projectHash: Option<string>,
    startTime: Option<string>,
    lastUpdated: Option<string>,
    messages: seq<GeminiChatMessage>)

  datatype GeminiPart = GeminiPart(text: Option<string>)

  /** `parts.compactMap { $0.text }`. */
  function PartTexts(parts: seq<GeminiPart>): (r: seq<string>)
    ensures forall t :: t in r <==> GeminiPart(Some(t)) in parts
    ensures r == [] <==> forall i :: 0 <= i < |parts| ==> parts[i].text.None?
    decreases |parts|
  {
    if parts == [] then []
    else
      assert forall x :: x in parts <==> x == parts[0] || x in parts[1..];
      (if parts[0].text.Some? then [parts[0].text.value] else []) + PartTexts(parts[1..])
  }

  /** A turn of the legacy format. */
  datatype GeminiMessage = GeminiMessage(role: string, parts: seq<GeminiPart>) {
    predicate IsUserMessage() { role == "user" }

    predicate IsAssistantMessage() { role == "model" }

    function TextContent(): (r: Option<string>)
      ensures r.None? <==> forall i :: 0 <= i < |parts| ==> parts[i].text.None?
    {
      var texts := PartTexts(parts);
      if texts == [] then None else Some(Join(texts, "\n"))
    }
  }

  /** The chat message roles are decided by `type` and exclude each other,
      the text is the content, and no timestamp means no date. */
  lemma ChatMessageShape(m: GeminiChatMessage, parseTime: string -> Option<Time>)
    ensures m.IsUserMessage() <==> m.kind == "user"
    ensures m.IsAssistantMessage() <==> m.kind == "gemini"
    ensures !(m.IsUserMessage() && m.IsAssistantMessage())
    ensures m.TextContent() == m.content
    ensures m.timestamp.None? ==> m.ParsedTimestamp(parseTime).None?
  {
  }

  /** Legacy roles: "user" and "model", never both. */
  lemma LegacyMessageShape(m: GeminiMessage)
    ensures m.IsUserMessage() <==> m.role == "user"
    ensures m.IsAssistantMessage() <==> m.role == "model"
    ensures !(m.IsUserMessage() && m.IsAssistantMessage())
  {
  }

  /** Part texts keep the parts' order. */
  lemma {:induction false} PartTextsConcat(a: seq<GeminiPart>, b: seq<GeminiPart>)
    ensures PartTexts(a + b) == PartTexts(a) + PartTexts(b)
    decreases |a|
  {
    if a == [] {
      assert a + b == b;
    } else {
      assert (a + b)[0] == a[0];
      assert (a + b)[1..] == a[1..] + b;
      PartTextsConcat(a[1..], b);
    }
  }
}
