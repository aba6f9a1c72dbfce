/** The data side of the menu-bar status graph: which history entries the
    48 bars show, optionally narrowed to one provider. */
module StatusGraph {
  import opened Wrappers
  import opened Sessions
  import opened ProviderTypes
  import opened History

  const BarCount: nat := 48

  /** How an entry looks under a provider filter: a success that did not
      involve the provider shows as a fresh skipped entry built at `now`. */
  function FilterEntry(e: SyncHistoryEntry, provider: ProviderType, now: Time): SyncHistoryEntry {
    if e.status.Success? && provider !in ProviderTypesOf(e) then NewEntry(Skipped, 0, None, [], now)
    else e
  }

  function FilteredEntries(entries: seq<SyncHistoryEntry>, providerFilter: Option<ProviderType>, now: Time)
    : (r: seq<SyncHistoryEntry>)
    ensures |r| == |entries|
  {
    match providerFilter
    case None => entries
    case Some(provider) => seq(|entries|, i requires 0 <= i < |entries| => FilterEntry(entries[i], provider, now))
  }

  /** No filter shows the history as is; a filter keeps the length, leaves
      failures and skips alone, keeps a success exactly when it names the
      provider, and shows every other success as skipped. */
  lemma FilteredShape(entries: seq<SyncHistoryEntry>, providerFilter: Option<ProviderType>, now: Time)
    ensures providerFilter.None? ==> FilteredEntries(entries, providerFilter, now) == entries
    ensures var r := FilteredEntries(entries, providerFilter, now);
            forall i :: 0 <= i < |entries| ==>
              && (!entries[i].status.Success? ==> r[i] == entries[i])
              && (providerFilter.Some? && entries[i].status.Success? ==>
                    (r[i] == entries[i] <==> providerFilter.value in ProviderTypesOf(entries[i])))
              && (r[i] != entries[i] ==> r[i].status.Skipped? && r[i].filesProcessed == 0 && r[i].providers == [])
  {
  }

  /** The entry bar `index` shows, if any: the data is right-aligned, so the
      newest entry is in the last bar. */
  function EntryForBar(filtered: seq<SyncHistoryEntry>, index: int): (r: Option<SyncHistoryEntry>)
    requires index < BarCount
  {
    var offset := BarCount - |filtered|;
    if index < offset then None else Some(filtered[index - offset])
  }

  /** With at most `BarCount` entries, bar `index` is empty exactly for the
      first `BarCount - n` bars, shows entry `index - (BarCount - n)` after
      that, and the last bar shows the newest entry. */
  lemma RightAligned(filtered: seq<SyncHistoryEntry>, index: int)
    requires |filtered| <= BarCount && 0 <= index < BarCount
    ensures EntryForBar(filtered, index).None? <==> index < BarCount - |filtered|
    ensures index >= BarCount - |filtered| ==> EntryForBar(filtered, index) == Some(filtered[index - (BarCount - |filtered|)])
    ensures filtered != [] ==> EntryForBar(filtered, BarCount - 1) == Some(filtered[|filtered| - 1])
  {
  }

  /** Every entry of a recorded history appears in its own bar,
      right-aligned. */
  lemma BarsCoverHistory(entries: seq<SyncHistoryEntry>, providerFilter: Option<ProviderType>, now: Time)
    requires |entries| <= MaxEntries
    ensures var f := FilteredEntries(entries, providerFilter, now);
            forall j :: 0 <= j < |f| ==> EntryForBar(f, j + (BarCount - |f|)) == Some(f[j])
  {
  }
}
