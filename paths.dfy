/** Simplified versions of the Foundation path helpers the providers use
    (`pathComponents`, `lastPathComponent`, `deletingLastPathComponent`,
    `deletingPathExtension`, `appendingPathComponent`, `expandingTildeInPath`).
    Paths are split on '/' and empty segments are ignored; Foundation's
    normalisation (".", "..", symbolic links, `~user`) is not modelled. */
module Paths {
  import opened Strings

  /** The non-empty segments of `parts`, in order. */
  function NonEmpty(parts: seq<string>): (r: seq<string>)
    ensures forall i :: 0 <= i < |r| ==> r[i] != "" && r[i] in parts
    ensures forall x :: x in parts && x != "" ==> x in r
    decreases |parts|
  {
    if parts == [] then []
    else (if parts[0] == "" then [] else [parts[0]]) + NonEmpty(parts[1..])
  }

  /** `URL(fileURLWithPath: p).pathComponents`, without the leading "/". */
  function Components(p: string): seq<string> {
    NonEmpty(Split(p, {'/'}))
  }

  /** `URL(fileURLWithPath: p).lastPathComponent`. */
  function LastComponent(p: string): string {
    var c := Components(p);
    if c == [] then "" else c[|c| - 1]
  }

  /** `URL(fileURLWithPath: p).deletingLastPathComponent().path`. */
  function Parent(p: string): string {
    var c := Components(p);
    if c == [] then "/" else "/" + Join(c[..|c| - 1], "/")
  }

  /** `(base as NSString).appendingPathComponent(name)`. */
  function AppendComponent(base: string, name: string): string {
    base + "/" + name
  }

  /** Index of the last occurrence of `ch` in `s`, or -1. */
  function LastIndexOf(s: string, ch: char): (k: int)
    ensures -1 <= k < |s|
    ensures k >= 0 ==> s[k] == ch
    ensures forall j :: k < j < |s| ==> s[j] != ch
    decreases |s|
  {
    if s == [] then -1
    else if s[|s| - 1] == ch then |s| - 1
    else LastIndexOf(s[..|s| - 1], ch)
  }

  /** `deletingPathExtension` on one component: the text before the last '.',
      unless that '.' is the first character. */
  function DeletingExtension(name: string): string {
    var k := LastIndexOf(name, '.');
    if k > 0 then name[..k] else name
  }

  /** `URL(fileURLWithPath: p).deletingPathExtension().lastPathComponent`. */
  function Stem(p: string): string {
    DeletingExtension(LastComponent(p))
  }

  /** `(p as NSString).expandingTildeInPath` for the current user's `home`. */
  function ExpandTilde(p: string, home: string): string {
    if p == "~" then home
    else if HasPrefix(p, "~/") then home + p[1..]
    else p
  }
}
