/** A read-only snapshot of the disk as the providers see it during one sync
    cycle: directory trees under the provider base paths (names, kinds,
    modification dates, sizes, whether a listing succeeds) and the contents
    of the files that can be opened. */
module FileSystem {
  import opened Wrappers
  import opened Sessions

  datatype Node =
    | File(name: string, mtime: Time, size: int)
    | Dir(name: string, mtime: Time, size: int, listable: bool, children: seq<Node>)

  /** Raw bytes of a file, shown as text, and whether they are valid UTF-8. */
  datatype FileData = FileData(text: string, utf8: bool)

  datatype Fs = Fs(trees: map<string, Node>, files: map<string, FileData>)

  /** `contentsOfDirectory(atPath:)` failed at this path. */
  datatype FsError = ListingFailed(path: string)

  /** `contentsOfDirectory`: the entries of a listable directory, `None` when
      the call throws (a plain file, or a directory that cannot be read). */
  function Listing(n: Node): (r: Option<seq<Node>>)
    ensures r.Some? <==> n.Dir? && n.listable
  {
    if n.Dir? && n.listable then Some(n.children) else None
  }

  /** The child with the given name, if the directory lists one. */
  function Child(n: Node, name: string): (r: Option<Node>)
    ensures r.Some? ==> r.value.name == name && n.Dir? && r.value in n.children
  {
    if n.File? then None else ChildIn(n.children, name)
  }

  function ChildIn(items: seq<Node>, name: string): (r: Option<Node>)
    ensures r.Some? ==> r.value.name == name && r.value in items
    ensures r.None? ==> forall i :: 0 <= i < |items| ==> items[i].name != name
    decreases |items|
  {
    if items == [] then None
    else if items[0].name == name then Some(items[0])
    else ChildIn(items[1..], name)
  }

  /** `String(contentsOfFile:encoding: .utf8)`. */
  function ReadText(fs: Fs, path: string): Option<string> {
    if path in fs.files && fs.files[path].utf8 then Some(fs.files[path].text) else None
  }

  /** `Data(contentsOf:)`. */
  function ReadData(fs: Fs, path: string): Option<string> {
    if path in fs.files then Some(fs.files[path].text) else None
  }

  /** `fileExists(atPath:)` for a file outside the provider trees. */
  predicate FileExists(fs: Fs, path: string) {
    path in fs.files
  }

  /** The session file a listed entry becomes (`attributesOfItem`). */
  function AsSession(n: Node, path: string): SessionFile {
    SessionFile(path, n.mtime, n.size)
  }

  /** The discovered files modified at or after `cutoff`, in order
      (`if modDate < cutoffDate { continue }`). */
  function Recent(files: seq<SessionFile>, cutoff: Time): (r: seq<SessionFile>)
    ensures forall f :: f in r <==> f in files && f.modificationDate >= cutoff
    decreases |files|
  {
    if files == [] then []
    else
      var last := files[|files| - 1];
      assert forall f :: f in files <==> f in files[..|files| - 1] || f == last;
      Recent(files[..|files| - 1], cutoff) + (if last.modificationDate < cutoff then [] else [last])
  }

  /** The per-file loop of `findSessionFiles`: keep the recent files, in order. */
  method KeepRecent(files: seq<SessionFile>, cutoff: Time) returns (kept: seq<SessionFile>)
    ensures kept == Recent(files, cutoff)
  {
    kept := [];
    var j := 0;
    while j < |files|
      invariant 0 <= j <= |files|
      invariant kept == Recent(files[..j], cutoff)
    {
      var file := files[j];
      assert files[..j + 1][..j] == files[..j];
      if file.modificationDate >= cutoff {
        kept := kept + [file];
      }
      j := j + 1;
    }
    assert files[..j] == files;
  }
}
