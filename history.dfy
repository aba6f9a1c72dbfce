/** The sync history: one entry per cycle, newest last, bounded to the
    number of bars the status graph shows. */
module History {
  import opened Wrappers
  import opened Sessions
  import opened ProviderTypes

  datatype SyncStatus = Success | Failure | Skipped

  /** A recorded cycle. The entry's UUID is not modelled; `timestamp` is the
      instant the entry was built. */
  datatype SyncHistoryEntry = SyncHistoryEntry(
    timestamp: Time,
    status: SyncStatus,
    filesProcessed: int,
    errorMessage: Option<string>,
    providers: seq<string>)

  /** The raw values of `types`, in order. */
  function RawValues(types: seq<ProviderType>): (r: seq<string>)
    ensures |r| == |types|
    ensures forall i :: 0 <= i < |types| ==> r[i] == RawValue(types[i])
  {
    if types == [] then [] else [RawValue(types[0])] + RawValues(types[1..])
  }

  /** `compactMap { ProviderType(rawValue: $0) }`: the known raw values decoded,
      unknown ones dropped. */
  function KnownTypes(raws: seq<string>): seq<ProviderType> {
    if raws == [] then []
    else match FromRaw(raws[0])
      case Some(t) => [t] + KnownTypes(raws[1..])
      case None => KnownTypes(raws[1..])
  }

  /** Every decoded type stems from one of the stored raw values. */
  lemma {:induction false} KnownTypesFrom(raws: seq<string>)
    ensures forall t :: t in KnownTypes(raws) ==> RawValue(t) in raws
  {
    if raws != [] {
      KnownTypesFrom(raws[1..]);
    }
  }

  /** Decoding the raw values of a list of types gives the list back. */
  lemma {:induction false} KnownTypesRoundTrip(types: seq<ProviderType>)
    ensures KnownTypes(RawValues(types)) == types
  {
    if types != [] {
      RawRoundTrip(types[0]);
      assert RawValues(types)[1..] == RawValues(types[1..]);
      KnownTypesRoundTrip(types[1..]);
    }
  }

  /** `SyncHistoryEntry(status:filesProcessed:errorMessage:providers:)`, at `now`. */
  function NewEntry(status: SyncStatus, filesProcessed: int, errorMessage: Option<string>, providers: seq<ProviderType>, now: Time)
    : (e: SyncHistoryEntry)
    ensures KnownTypes(e.providers) == providers
    ensures e.status == status && e.filesProcessed == filesProcessed && e.errorMessage == errorMessage && e.timestamp == now
  {
    KnownTypesRoundTrip(providers);
    SyncHistoryEntry(now, status, filesProcessed, errorMessage, RawValues(providers))
  }

  /** `providerTypes` of an entry. */
  function ProviderTypesOf(e: SyncHistoryEntry): seq<ProviderType> {
    KnownTypes(e.providers)
  }

  const MaxEntries: nat := 48

  /** The newest `MaxEntries` of `s`. */
  function Window<T>(s: seq<T>): (r: seq<T>)
    ensures |r| <= MaxEntries
    ensures |r| == (if |s| <= MaxEntries then |s| else MaxEntries)
    ensures forall i :: 0 <= i < |r| ==> r[i] == s[|s| - |r| + i]
  {
    if |s| > MaxEntries then s[|s| - MaxEntries..] else s
  }

  /** The entries after `add(entry)`. */
  function Added(entries: seq<SyncHistoryEntry>, entry: SyncHistoryEntry): (r: seq<SyncHistoryEntry>)
    ensures 0 < |r| <= MaxEntries
    ensures r[|r| - 1] == entry
    ensures |entries| < MaxEntries ==> r == entries + [entry]
    ensures |entries| == MaxEntries ==> r == entries[1..] + [entry]
  {
    var appended := entries + [entry];
    if |appended| > MaxEntries then
      assert |entries| == MaxEntries ==> appended[|appended| - MaxEntries..] == entries[1..] + [entry];
      appended[|appended| - MaxEntries..]
    else appended
  }

  /** The entries after adding `es` one by one. */
  function AddedAll(entries: seq<SyncHistoryEntry>, es: seq<SyncHistoryEntry>): seq<SyncHistoryEntry>
    decreases |es|
  {
    if es == [] then entries else AddedAll(Added(entries, es[0]), es[1..])
  }

  lemma WindowOfWindow<T>(s: seq<T>, x: T)
    ensures Window(Window(s) + [x]) == Window(s + [x])
  {
    var a := Window(s) + [x];
    var b := s + [x];
    assert |Window(a)| == |Window(b)|;
    forall i | 0 <= i < |Window(a)| ensures Window(a)[i] == Window(b)[i] {
      var k := |a| - |Window(a)| + i;
      if k < |a| - 1 {
        assert a[k] == Window(s)[k] == s[|s| - |Window(s)| + k];
        assert b[|b| - |Window(b)| + i] == s[|s| - |Window(s)| + k];
      }
    }
  }

  /** The history is a sliding window: after any run of additions it holds
      the newest `MaxEntries` of everything added, in order. */
  lemma {:induction false} AddedAllWindow(entries: seq<SyncHistoryEntry>, es: seq<SyncHistoryEntry>)
    requires |entries| <= MaxEntries
    ensures AddedAll(entries, es) == Window(entries + es)
    decreases |es|
  {
    if es == [] {
      assert entries + es == entries;
    } else {
      var first := entries + [es[0]];
      calc {
        AddedAll(entries, es);
        AddedAll(Added(entries, es[0]), es[1..]);
        { AddedIsWindow(entries, es[0]); }
        AddedAll(Window(first), es[1..]);
        { AddedAllWindow(Window(first), es[1..]); }
        Window(Window(first) + es[1..]);
        { WindowAppendAll(first, es[1..]); }
        Window(first + es[1..]);
        { assert first + es[1..] == entries + es; }
        Window(entries + es);
      }
    }
  }

  lemma AddedIsWindow(entries: seq<SyncHistoryEntry>, entry: SyncHistoryEntry)
    ensures Added(entries, entry) == Window(entries + [entry])
  {
  }

  lemma {:induction false} WindowAppendAll<T>(s: seq<T>, es: seq<T>)
    ensures Window(Window(s) + es) == Window(s + es)
    decreases |es|
  {
    if es == [] {
      assert Window(s) + es == Window(s) && s + es == s;
      assert Window(Window(s)) == Window(s);
    } else {
      var init := es[..|es| - 1];
      var x := es[|es| - 1];
      WindowAppendAll(s, init);
      assert Window(s) + es == (Window(s) + init) + [x];
      assert s + es == (s + init) + [x];
      WindowOfWindow(Window(s) + init, x);
      WindowOfWindow(s + init, x);
    }
  }

  /** `entries.last`. */
  function Last(entries: seq<SyncHistoryEntry>): (r: Option<SyncHistoryEntry>)
    ensures r.None? <==> entries == []
  {
    if entries == [] then None else Some(entries[|entries| - 1])
  }

  /** The history the sync service records into. */
  class SyncHistory {
    var entries: seq<SyncHistoryEntry>

    /** A new history is empty. */
    constructor ()
      ensures entries == []
    {
      entries := [];
    }

    method Add(entry: SyncHistoryEntry)
      modifies this
      ensures entries == Added(old(entries), entry)
    {
      entries := entries + [entry];
      if |entries| > MaxEntries {
        entries := entries[|entries| - MaxEntries..];
      }
    }

    function LastEntry(): Option<SyncHistoryEntry>
      reads this
    {
      Last(entries)
    }

    /** `SyncHistoryStore.clear`: back to an empty history. */
    method Clear()
      modifies this
      ensures entries == []
    {
      entries := [];
    }
  }

  /** After `add(e)` the last entry is `e`, and adding a second entry keeps
      the first just before it. */
  lemma LastAfterAdd(entries: seq<SyncHistoryEntry>, e: SyncHistoryEntry, f: SyncHistoryEntry)
    ensures Last(Added(entries, e)) == Some(e)
    ensures var r := Added(Added(entries, e), f); |r| >= 2 && r[|r| - 2] == e
  {
    var once := Added(entries, e);
    var r := Added(once, f);
    if |once| < MaxEntries {
      assert r == once + [f];
    } else {
      assert r == once[1..] + [f];
    }
  }
}
