/** The values every provider exchanges with the sync service: session files,
    conversation messages, parse results and session metadata. */
module Sessions {
  import opened Wrappers

  /** Instants, in whole seconds. */
  type Time = int

  datatype Role = User | Assistant

  /** One rendered turn of a conversation. */
  datatype ConversationMessage = ConversationMessage(role: Role, content: string, timestamp: Option<Time>)

  /** A discovered transcript with the attributes read while listing it. */
  datatype SessionFile = SessionFile(path: string, modificationDate: Time, size: int)

  /** The messages after the cursor, paired with the cursor value they reach. */
  datatype ParseResult = ParseResult(messages: seq<ConversationMessage>, totalLines: nat)

  /** What the frontmatter records about a session. */
  datatype SessionMetadata = SessionMetadata(sessionId: string, workingDirectory: Option<string>)

  /** The `since` filter shared by all parsers: a record is dropped only when
      both a threshold and a timestamp are known and the timestamp is earlier. */
  predicate OnOrAfter(since: Option<Time>, at: Option<Time>) {
    !(since.Some? && at.Some? && at.value < since.value)
  }

  /** The part of the provider contract the sync service relies on: a result
      with messages has moved the cursor forward. */
  predicate Advances(r: ParseResult, afterLine: nat) {
    r.messages != [] ==> r.totalLines > afterLine
  }
}
