/** The cursor discipline shared by the Claude and Codex parsers: the cursor
    counts newline characters, and only the complete lines from the cursor on
    are handed to a per-line decoder. */
module JsonLines {
  import opened Wrappers
  import opened Seqs
  import opened Strings
  import opened Sessions

  const Newline: set<char> := {'\n'}

  /** `content.filter { $0 == "\n" }.count`, the `wc -l` count. */
  function LineCount(content: string): nat {
    CountIn(content, Newline)
  }

  /** `content.components(separatedBy: "\n")`. */
  function Lines(content: string): (r: seq<string>)
    ensures |r| == LineCount(content) + 1
  {
    Split(content, Newline)
  }

  /** `allLines.dropFirst(afterLine).prefix(totalLines - afterLine)`: the
      terminated lines from index `afterLine` on. */
  function NewLines(content: string, afterLine: nat): (r: seq<string>)
    requires afterLine <= LineCount(content)
    ensures |r| == LineCount(content) - afterLine
    ensures forall i :: 0 <= i < |r| ==> r[i] == Lines(content)[afterLine + i]
  {
    Lines(content)[afterLine..LineCount(content)]
  }

  /** The parse of a JSONL transcript (`content` is `None` when the file
      cannot be read as UTF-8); `f` turns one line into its messages. */
  function Parse(content: Option<string>, afterLine: nat, f: string -> seq<ConversationMessage>): ParseResult {
    if content.None? then ParseResult([], afterLine)
    else
      var total := LineCount(content.value);
      if total <= afterLine then ParseResult([], total)
      else ParseResult(FlatMap(f, NewLines(content.value, afterLine)), total)
  }

  /** Error and no-progress paths: an unreadable file keeps the cursor, a
      readable one reports its line count, and messages come only with progress. */
  lemma ParseCursor(content: Option<string>, afterLine: nat, f: string -> seq<ConversationMessage>)
    ensures content.None? ==> Parse(content, afterLine, f) == ParseResult([], afterLine)
    ensures content.Some? ==> Parse(content, afterLine, f).totalLines == LineCount(content.value)
    ensures content.Some? && LineCount(content.value) <= afterLine ==> Parse(content, afterLine, f).messages == []
    ensures Advances(Parse(content, afterLine, f), afterLine)
  {
  }

  /** No examined line contains a newline, and the unterminated text after the
      last newline is never among them. */
  lemma NewLinesComplete(content: string, afterLine: nat, i: nat)
    requires afterLine <= LineCount(content) && i < LineCount(content) - afterLine
    ensures '\n' !in NewLines(content, afterLine)[i]
    ensures afterLine + i < |Lines(content)| - 1
  {
    var k := afterLine + i;
    SplitPartsFree(content, Newline, k);
    var line := Lines(content)[k];
    if '\n' in line {
      var j :| 0 <= j < |line| && line[j] == '\n';
      CountPositive(line, Newline, j);
    }
  }

  lemma {:induction false} CountPositive(s: string, chars: set<char>, j: nat)
    requires j < |s| && s[j] in chars
    ensures CountIn(s, chars) > 0
    decreases j
  {
    if j > 0 {
      CountPositive(s[1..], chars, j - 1);
    }
  }

  /** Appending to a transcript never changes its already terminated lines. */
  lemma LinesOfAppend(a: string, b: string, k: nat)
    requires k <= LineCount(a)
    ensures LineCount(a + b) == LineCount(a) + LineCount(b)
    ensures NewLines(a + b, k) == NewLines(a, k) + NewLines(a + b, LineCount(a))
  {
    CountConcat(a, b, Newline);
    SplitConcat(a, b, Newline);
    var n := LineCount(a);
    var A := Lines(a);
    var AB := Lines(a + b);
    assert AB[..n] == A[..n];
    var N := LineCount(a + b);
    assert AB[k..n] == A[k..n];
    assert AB[k..N] == AB[k..n] + AB[n..N];
  }

  /** Incremental parsing loses and repeats nothing: reading an appended
      transcript from cursor `k` gives the messages of the old content from
      `k`, followed by those from the old content's line count on. */
  lemma ParseIncremental(a: string, b: string, k: nat, f: string -> seq<ConversationMessage>)
    requires k <= LineCount(a)
    ensures Parse(Some(a + b), k, f).messages
            == Parse(Some(a), k, f).messages + Parse(Some(a + b), LineCount(a), f).messages
  {
    LinesOfAppend(a, b, k);
    var n := LineCount(a);
    var tail := NewLines(a + b, n);
    assert Parse(Some(a + b), n, f).messages == FlatMap(f, tail);
    if k < n {
      FlatMapConcat(f, NewLines(a, k), tail);
    } else {
      var rest := Parse(Some(a + b), n, f).messages;
      assert Parse(Some(a), k, f).messages == [] && [] + rest == rest;
    }
  }

  /** Parsing again from the cursor a parse returned yields nothing new. */
  lemma ParseAtCursor(content: string, afterLine: nat, f: string -> seq<ConversationMessage>)
    ensures var r := Parse(Some(content), afterLine, f);
            Parse(Some(content), r.totalLines, f).messages == []
  {
  }
}
