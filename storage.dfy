/** The storage sink: `_storeLogEntry` and `_loadStoredLogs` over the
    key/value store `window[storageType]`, which holds the JSON list of log
    entries under the key `xmediaLoggerEntries`. Generic in the entry type. */
module Storage {
  import opened Text

  /** `storageLogLimit`: the stored list keeps at most this many entries. */
  const StorageLogLimit: nat := 100
  /** `storageType`, as it appears in the diagnostics. */
  const StorageType: string := "sessionStorage"

  /** What `getItem(storageKey)` followed by `JSON.parse` yields: nothing (a
      missing key or empty text), an exception (a refused read or text that
      is not JSON), a JSON value that is not a list, or a list of entries. */
  datatype Slot<T> = Absent | Unreadable | NotAList | Stored(items: seq<T>)

  /** `window[storageType]`: whether it exists, what the key holds, and
      whether `setItem` fails (the quota is exhausted). */
  datatype Store<T> = Store(available: bool, slot: Slot<T>, full: bool)

  /** `isStorageLoggingEnabled` together with the store it writes to. */
  datatype Sink<T> = Sink(enabled: bool, store: Store<T>)

  /** The list `_storeLogEntry` pushes to: `[]` for a missing item, the
      parsed list, or nothing when reading or pushing throws. */
  function ReadList<T>(slot: Slot<T>): (r: Option<seq<T>>)
    ensures r.Some? <==> slot.Absent? || slot.Stored?
  {
    match slot
    case Absent => Some([])
    case Stored(items) => Some(items)
    case _ => None
  }

  /** `_storeLogEntry` without its two diagnostics: read, append, keep the
      newest `storageLogLimit`, write; any exception turns the sink off and
      leaves the store as it was. */
  function StoreEntry<T>(sink: Sink<T>, e: T): (r: Sink<T>)
    ensures !sink.enabled || !sink.store.available ==> r == sink
  {
    if !sink.enabled || !sink.store.available then sink
    else
      var list := ReadList(sink.store.slot);
      if list.None? || sink.store.full then sink.(enabled := false)
      else sink.(store := sink.store.(slot := Stored(Last(list.value + [e], StorageLogLimit))))
  }

  /** A successful write stores exactly the newest `storageLogLimit` entries
      of the old list followed by the new entry, in their original order. */
  lemma StoreWritesNewest<T>(sink: Sink<T>, e: T)
    requires sink.enabled && sink.store.available && !sink.store.full
    requires sink.store.slot.Absent? || sink.store.slot.Stored?
    ensures var old_ := ReadList(sink.store.slot).value + [e];
      var r := StoreEntry(sink, e);
      r.enabled && r.store.available == sink.store.available && r.store.full == sink.store.full
      && r.store.slot.Stored?
      && |r.store.slot.items| == Min(|old_|, StorageLogLimit)
      && r.store.slot.items == old_[|old_| - |r.store.slot.items|..]
      && r.store.slot.items[|r.store.slot.items| - 1] == e
  {
    var old_ := ReadList(sink.store.slot).value + [e];
    LastIsNewestSuffix(old_, StorageLogLimit);
  }

  function Min(a: nat, b: nat): nat
  {
    if a <= b then a else b
  }

  /** A refused read, a value that is not a list or a failed write disables
      the sink and writes nothing; from then on every call is a no-op. */
  lemma StoreFailureDisables<T>(sink: Sink<T>, e: T, later: T)
    requires sink.enabled && sink.store.available
    requires sink.store.slot.Unreadable? || sink.store.slot.NotAList? || sink.store.full
    ensures StoreEntry(sink, e) == sink.(enabled := false)
    ensures StoreEntry(StoreEntry(sink, e), later) == StoreEntry(sink, e)
  {
  }

  /** What `_loadStoredLogs` returns: a list of entries, or the parsed value
      when it is not a list (returned as it is). */
  datatype Loaded<T> = Entries(items: seq<T>) | OtherValue

  function LoadResult<T>(store: Store<T>): (r: Loaded<T>)
    ensures !store.available || store.slot.Absent? || store.slot.Unreadable? ==> r == Entries([])
    ensures store.available && store.slot.Stored? ==> r == Entries(store.slot.items)
    ensures store.available && store.slot.NotAList? ==> r == OtherValue
    ensures r.OtherValue? <==> store.available && store.slot.NotAList?
  {
    if !store.available then Entries([])
    else
      match store.slot
      case Absent => Entries([])
      case Unreadable => Entries([])
      case NotAList => OtherValue
      case Stored(items) => Entries(items)
  }

  /** Loading what was just stored gives the stored list back. */
  lemma LoadAfterStore<T>(sink: Sink<T>, e: T)
    requires sink.enabled && sink.store.available && !sink.store.full
    requires sink.store.slot.Absent? || sink.store.slot.Stored?
    ensures LoadResult(StoreEntry(sink, e).store) == Entries(Last(ReadList(sink.store.slot).value + [e], StorageLogLimit))
  {
  }
}
