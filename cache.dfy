/** The session cache of loaded pull requests, keyed by validated URL, with a 15-minute expiry. */
module Cache {
  import opened Wrappers
  import opened PullRequest

  /** How long an entry is served, in milliseconds. */
  const FifteenMinutesInMilliseconds: int := 15 * 60 * 1000

  /** A parsed storage entry: when it was written and the data written with it. The data is
      absent when the load that wrote the entry failed (`prData` was `undefined`). */
  datatype Entry = Entry(timestamp: int, prData: Option<PRData>)

  /** What a cache read returns: the entry's `prData` field (itself possibly absent) or `false`. */
  datatype CacheValue = Stored(prData: Option<PRData>) | False

  /** JavaScript truthiness of a cache read: only a present data object is truthy. */
  predicate Truthy(v: CacheValue) {
    v.Stored? && v.prData.Some?
  }

  /** The expiry test; the boundary itself is still fresh. */
  predicate IsFresh(e: Entry, now: int) {
    now - e.timestamp <= FifteenMinutesInMilliseconds
  }

  /** A cache read: the value returned and the storage afterwards. */
  datatype CacheRead = CacheRead(value: CacheValue, storage: map<Key, Entry>)

  /** Reading the entry for `key` at time `now`. A fresh entry yields its data and leaves the
      storage as it was; a stale entry is removed and the read yields `false`; a missing
      entry yields `false` and changes nothing. */
  function Lookup(storage: map<Key, Entry>, key: Key, now: int): (r: CacheRead)
    ensures r.value.Stored? <==> key in storage && IsFresh(storage[key], now)
    ensures r.value.Stored? ==> r.value.prData == storage[key].prData && r.storage == storage
    ensures key in storage && !IsFresh(storage[key], now) ==>
      && r.value == False
      && r.storage.Keys == storage.Keys - {key}
      && forall k :: k in r.storage ==> r.storage[k] == storage[k]
    ensures key !in storage ==> r.value == False && r.storage == storage
  {
    if key !in storage then
      CacheRead(False, storage)
    else if IsFresh(storage[key], now) then
      CacheRead(Stored(storage[key].prData), storage)
    else
      CacheRead(False, storage - {key})
  }

  /** A write followed by a read within the expiry window returns what was written, truthily,
      and leaves the storage as the write made it. */
  lemma WriteThenRead(storage: map<Key, Entry>, key: Key, d: PRData, t: int, now: int)
    requires now - t <= FifteenMinutesInMilliseconds
    ensures var written := storage[key := Entry(t, Some(d))];
      && Lookup(written, key, now) == CacheRead(Stored(Some(d)), written)
      && Truthy(Lookup(written, key, now).value)
  {
  }

  /** After the window has passed, a read misses and evicts the entry, and a second read
      at the same time misses as well without anything being written in between. */
  lemma ExpiredEntryIsEvicted(storage: map<Key, Entry>, key: Key, d: PRData, t: int, now: int)
    requires now - t > FifteenMinutesInMilliseconds
    ensures var first := Lookup(storage[key := Entry(t, Some(d))], key, now);
      && first.value == False
      && key !in first.storage
      && Lookup(first.storage, key, now) == CacheRead(False, first.storage)
  {
  }

  /** An entry written by a failed load reads back as a falsy value even while it is fresh,
      so the caller treats it like a miss. */
  lemma FailedEntryReadsFalsy(storage: map<Key, Entry>, key: Key, t: int, now: int)
    requires now - t <= FifteenMinutesInMilliseconds
    ensures var r := Lookup(storage[key := Entry(t, None)], key, now);
      r.value == Stored(None) && !Truthy(r.value)
  {
  }
}
