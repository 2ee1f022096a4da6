/** The cached health scan: which events of a workspace wait for missing parents.

    Between any two accesses of the store other processes may append events; the store never loses
    or reorders any.
 */
module GapCache {
  import opened Events
  import opened Fingerprints

  type WorkspaceId = string

  const MaxBytes: nat := 256 * 1024
  const MaxWorkspaces: nat := 256
  const MaxGaps: nat := 1024
  const MaxAttempts: nat := 2

  datatype Gap = Gap(event: EventId, missing: seq<EventId>)

  datatype Entry = Entry(workspace: WorkspaceId, count: nat, fingerprint: Digest, gaps: seq<Gap>)

  /** The full scan of a stored history. */
  type Scan = (WorkspaceId, seq<EventId>) -> seq<Gap>

  /** Serialized sizes of a cache and of one entry. */
  datatype Sizes = Sizes(cache: seq<Entry> -> nat, entry: Entry -> nat)

  // ---------- prefixes of an append-only history ----------

  lemma PrefixTransitive(a: seq<EventId>, b: seq<EventId>, c: seq<EventId>)
    requires a <= b <= c
    ensures a <= c
  {
  }

  lemma SameInventorySameLength(a: seq<EventId>, b: seq<EventId>)
    requires Sort(a) == Sort(b)
    ensures |a| == |b|
  {
    assert |a| == |multiset(a)| == |multiset(Sort(a))| == |multiset(b)| == |b|;
  }

  /** If the inventory is the same before and after, nothing was appended in between. */
  lemma UnchangedInventory(before: seq<EventId>, mid: seq<EventId>, after: seq<EventId>)
    requires before <= mid <= after && Sort(before) == Sort(after)
    ensures before == mid == after
  {
    SameInventorySameLength(before, after);
  }

  /** Two prefixes of one history with the same fingerprint are the same prefix. */
  lemma FingerprintFindsPrefix(a: seq<EventId>, b: seq<EventId>, whole: seq<EventId>)
    requires a <= whole && b <= whole && Representable(whole)
    requires InventoryFingerprint(a) == InventoryFingerprint(b)
    ensures a == b
  {
    InventoryFingerprintIdentifies(a, b);
    assert |a| == |multiset(a)| == |multiset(b)| == |b|;
  }

  lemma FingerprintOfSorted(ids: seq<EventId>)
    requires Representable(ids)
    ensures InventoryFingerprint(Sort(ids)) == InventoryFingerprint(ids)
  {
    SortSorts(ids);
    SortSorts(Sort(ids));
    SortedUnique(Sort(Sort(ids)), Sort(ids));
  }

  /** Event ids as the store lists them, per workspace. */
  class Store {
    var ids: map<WorkspaceId, seq<EventId>>

    constructor ()
      ensures ids == map[]
    {
      ids := map[];
    }

    function Log(w: WorkspaceId): seq<EventId>
      reads this
    {
      if w in ids then ids[w] else []
    }

    ghost predicate Valid()
      reads this
    {
      forall w :: Representable(Log(w))
    }

    /** Whatever other writers append meanwhile. */
    method OthersAppend()
      requires Valid()
      modifies this
      ensures Valid()
      ensures forall w :: old(Log(w)) <= Log(w)
    {
      var more: map<WorkspaceId, seq<EventId>> := *;
      if forall w :: w in more ==> Storable(more[w]) {
        var next := map w | w in ids.Keys + more.Keys :: Log(w) + if w in more then more[w] else [];
        forall w
          ensures Representable(if w in next then next[w] else [])
        {
          assert Representable(Log(w));
        }
        ids := next;
      }
    }
  }

  predicate Storable(more: seq<EventId>) {
    forall i :: 0 <= i < |more| ==> |more[i]| < Pow256(Width)
  }

  // ---------- the cache file ----------

  predicate Acceptable(file: seq<Entry>, sizes: Sizes) {
    && sizes.cache(file) + 1 <= MaxBytes
    && |file| <= MaxWorkspaces
    && forall i :: 0 <= i < |file| ==> |file[i].gaps| <= MaxGaps
  }

  function Others(file: seq<Entry>, w: WorkspaceId): (r: seq<Entry>)
    ensures forall e :: e in r <==> e in file && e.workspace != w
  {
    Filter(file, (e: Entry) => e.workspace != w)
  }

  /** The `n` newest entries. */
  function Newest(all: seq<Entry>, n: nat): (r: seq<Entry>)
    requires n <= |all|
    ensures |r| == n && forall e :: e in r ==> e in all
  {
    all[|all| - n..]
  }

  /** `kept` is what remains of `all` when the oldest entries are dropped one by one, first down to
      the entry limit and then only while the serialized file is too large. */
  predicate LongestFitting(kept: seq<Entry>, all: seq<Entry>, sizes: Sizes) {
    && 0 < |kept| <= |all| && kept == Newest(all, |kept|)
    && |kept| <= MaxWorkspaces
    && sizes.cache(kept) < MaxBytes
    && forall n: nat :: |kept| < n <= |all| && n <= MaxWorkspaces ==> sizes.cache(Newest(all, n)) >= MaxBytes
  }

  /** No suffix that holds the newest entry fits. */
  predicate NothingFits(all: seq<Entry>, sizes: Sizes) {
    forall n: nat :: 0 < n <= |all| && n <= MaxWorkspaces ==> sizes.cache(Newest(all, n)) >= MaxBytes
  }

  /** Drops the oldest entries until both limits hold; `None` when not even the newest entry fits. */
  method Evict(all: seq<Entry>, sizes: Sizes) returns (kept: Option<seq<Entry>>)
    requires all != []
    ensures kept.Some? ==> LongestFitting(kept.value, all, sizes)
    ensures kept.None? <==> NothingFits(all, sizes)
  {
    var n := |all|;
    while n > MaxWorkspaces
      invariant 0 < n <= |all|
      invariant n >= MaxWorkspaces || n == |all|
    {
      n := n - 1;
    }
    while true
      invariant 0 < n <= |all| && n <= MaxWorkspaces
      invariant forall m: nat :: n < m <= |all| && m <= MaxWorkspaces ==> sizes.cache(Newest(all, m)) >= MaxBytes
      decreases n
    {
      if sizes.cache(Newest(all, n)) < MaxBytes {
        return Some(Newest(all, n));
      }
      if n <= 1 {
        return None;
      }
      n := n - 1;
    }
  }

  method Choose() returns (n: nat) {
    var m: int := *;
    n := if m < 0 then -m else m;
  }

  class Cache {
    const store: Store
    const scan: Scan
    const sizes: Sizes
    var file: seq<Entry>

    constructor (store: Store, scan: Scan, sizes: Sizes)
      requires store.Valid() && sizes.cache([]) + 1 <= MaxBytes
      ensures this.store == store && this.scan == scan && this.sizes == sizes
      ensures Valid()
    {
      this.store, this.scan, this.sizes, file := store, scan, sizes, [];
    }

    /** The entry is the result of a full scan of some earlier state of its workspace. */
    ghost predicate Fresh(e: Entry)
      reads store
    {
      exists n: nat :: n <= |store.Log(e.workspace)| && Describes(e, store.Log(e.workspace)[..n])
    }

    ghost predicate Describes(e: Entry, ids: seq<EventId>) {
      e == Entry(e.workspace, |ids|, InventoryFingerprint(ids), scan(e.workspace, ids))
    }

    ghost predicate Valid()
      reads this, store
    {
      && store.Valid()
      && Acceptable(file, sizes)
      && (forall e :: e in file ==> Fresh(e))
    }

    /** A file beyond the limits is treated as an empty cache. */
    function Read(): (r: seq<Entry>)
      reads this
      ensures r == file || r == []
    {
      if Acceptable(file, sizes) then file else []
    }

    twostate lemma StaysFresh(e: Entry)
      requires old(Fresh(e)) && old(store.Log(e.workspace)) <= store.Log(e.workspace)
      ensures Fresh(e)
    {
      var n: nat :| n <= |old(store.Log(e.workspace))| && Describes(e, old(store.Log(e.workspace))[..n]);
      assert store.Log(e.workspace)[..n] == old(store.Log(e.workspace))[..n];
    }

    lemma HitIsScan(e: Entry, log: seq<EventId>)
      requires store.Valid() && Fresh(e) && log <= store.Log(e.workspace)
      requires e.fingerprint == InventoryFingerprint(Sort(log))
      ensures e.gaps == scan(e.workspace, log)
    {
      var n: nat :| n <= |store.Log(e.workspace)| && Describes(e, store.Log(e.workspace)[..n]);
      FingerprintOfSorted(log);
      FingerprintFindsPrefix(store.Log(e.workspace)[..n], log, store.Log(e.workspace));
    }

    lemma NewEntryIsFresh(w: WorkspaceId, log: seq<EventId>)
      requires store.Valid() && log <= store.Log(w)
      ensures |Sort(log)| == |log| && InventoryFingerprint(Sort(log)) == InventoryFingerprint(log)
      ensures Fresh(Entry(w, |log|, InventoryFingerprint(log), scan(w, log)))
    {
      assert |Sort(log)| == |multiset(Sort(log))| == |log|;
      FingerprintOfSorted(log);
      assert store.Log(w)[..|log|] == log;
      assert Describes(Entry(w, |log|, InventoryFingerprint(log), scan(w, log)), store.Log(w)[..|log|]);
    }

    method Inventory(w: WorkspaceId) returns (ids: seq<EventId>)
      ensures ids == Sort(store.Log(w)) && Sorted(ids)
    {
      ids := Sort(store.Log(w));
      SortSorts(store.Log(w));
    }

    /** A hit is exactly what a full scan of the history with that inventory returns. */
    method Cached(w: WorkspaceId, ids: seq<EventId>, ghost log: seq<EventId>) returns (r: Option<seq<Gap>>)
      requires Valid() && log <= store.Log(w) && ids == Sort(log)
      ensures r.Some? ==> r.value == scan(w, log)
    {
      var cache := Read();
      var fingerprint := InventoryFingerprint(ids);
      var i := 0;
      while i < |cache|
      {
        var e := cache[i];
        if e.workspace == w && e.count == |ids| && e.fingerprint == fingerprint {
          HitIsScan(e, log);
          return Some(e.gaps);
        }
        i := i + 1;
      }
      r := None;
    }

    /** Stores one scan. The file is left alone exactly when the entry alone is over a limit or the
        disk refuses; otherwise the entry stands behind as many of the other workspaces' entries as
        both limits allow. */
    method Record(w: WorkspaceId, ids: seq<EventId>, gaps: seq<Gap>, ghost log: seq<EventId>, writable: bool)
      requires Valid() && log <= store.Log(w) && ids == Sort(log) && gaps == scan(w, log)
      modifies this`file
      ensures Valid()
      ensures var entry := Entry(w, |log|, InventoryFingerprint(log), gaps);
              var all := Others(old(file), w) + [entry];
              if writable && |gaps| <= MaxGaps && sizes.entry(entry) < MaxBytes && !NothingFits(all, sizes)
              then LongestFitting(file, all, sizes) && file[|file| - 1] == entry
              else file == old(file)
    {
      if |gaps| > MaxGaps {
        return;
      }
      NewEntryIsFresh(w, log);
      var entry := Entry(w, |ids|, InventoryFingerprint(ids), gaps);
      if sizes.entry(entry) >= MaxBytes {
        return;
      }
      StoreEntry(w, entry, writable);
    }

    /** Puts the entry behind the entries of other workspaces and drops the oldest until all fits. */
    method StoreEntry(w: WorkspaceId, entry: Entry, writable: bool)
      requires Valid() && Fresh(entry) && entry.workspace == w && |entry.gaps| <= MaxGaps && sizes.entry(entry) < MaxBytes
      modifies this`file
      ensures Valid()
      ensures var all := Others(old(file), w) + [entry];
              if writable && !NothingFits(all, sizes) then LongestFitting(file, all, sizes) && file[|file| - 1] == entry
              else file == old(file)
    {
      var all := Others(Read(), w) + [entry];
      var kept := Evict(all, sizes);
      if kept.Some? && writable {
        file := kept.value;
      }
    }

    /** The disk may refuse the write. */
    method RecordUnlessRefused(w: WorkspaceId, ids: seq<EventId>, gaps: seq<Gap>, ghost log: seq<EventId>)
      requires Valid() && log <= store.Log(w) && ids == Sort(log) && gaps == scan(w, log)
      modifies this`file
      ensures Valid()
    {
      var writable: bool := *;
      Record(w, ids, gaps, log, writable);
    }

    /** Other processes append events and store their own scans. */
    method Meanwhile()
      requires Valid()
      modifies this`file, store
      ensures Valid()
      ensures forall w :: old(store.Log(w)) <= store.Log(w)
    {
      store.OthersAppend();
      forall e | e in file ensures Fresh(e) {
        StaysFresh(e);
      }
      var rounds := Choose();
      for i := 0 to rounds
        invariant Valid()
        invariant forall w :: old(store.Log(w)) <= store.Log(w)
        modifies this`file
      {
        var w: WorkspaceId := *;
        var n := Choose();
        if n <= |store.Log(w)| {
          var log := store.Log(w)[..n];
          RecordUnlessRefused(w, Sort(log), scan(w, log), log);
        }
      }
    }

    /** The reported gaps are a complete scan of the history at one moment during the call, whether
        they come from the cache or not. */
    method CurrentGaps(w: WorkspaceId) returns (gaps: seq<Gap>, ghost seen: seq<EventId>)
      requires Valid()
      modifies this`file, store
      ensures Valid()
      ensures old(store.Log(w)) <= seen <= store.Log(w)
      ensures gaps == scan(w, seen)
    {
      var hit, inventory;
      ghost var log;
      hit, inventory, log := LookUp(w);
      if hit.Some? {
        return hit.value, log;
      }
      gaps, seen := ScanUntilStable(w, inventory, log);
    }

    /** Reads the inventory and the cache; a hit is used only if the inventory is still the same
        afterwards, and otherwise the newer inventory is kept. */
    method LookUp(w: WorkspaceId)
      returns (hit: Option<seq<Gap>>, inventory: seq<EventId>, ghost log: seq<EventId>)
      requires Valid()
      modifies this`file, store
      ensures Valid()
      ensures old(store.Log(w)) <= log <= store.Log(w) && inventory == Sort(log)
      ensures hit.Some? ==> hit.value == scan(w, log)
    {
      Meanwhile();
      log := store.Log(w);
      inventory := Inventory(w);
      Meanwhile();
      ghost var now := store.Log(w);
      hit := Cached(w, inventory, log);
      if hit.Some? {
        Meanwhile();
        ghost var later := store.Log(w);
        PrefixTransitive(log, now, later);
        PrefixTransitive(old(store.Log(w)), log, later);
        var afterLookup := Inventory(w);
        if afterLookup != inventory {
          hit, log, inventory := None, later, afterLookup;
        }
      }
    }

    /** One full scan and the inventory after it. */
    method ScanOnce(w: WorkspaceId)
      returns (gaps: seq<Gap>, inventory: seq<EventId>, ghost seen: seq<EventId>, ghost later: seq<EventId>)
      requires Valid()
      modifies this`file, store
      ensures Valid()
      ensures old(store.Log(w)) <= seen <= later == store.Log(w)
      ensures gaps == scan(w, seen) && inventory == Sort(later)
    {
      Meanwhile();
      seen := store.Log(w);
      gaps := scan(w, store.Log(w));
      Meanwhile();
      later := store.Log(w);
      inventory := Inventory(w);
    }

    /** Scans until the inventory is the same before and after, at most twice; only such a scan is
        stored. */
    method ScanUntilStable(w: WorkspaceId, start: seq<EventId>, ghost before: seq<EventId>)
      returns (gaps: seq<Gap>, ghost seen: seq<EventId>)
      requires Valid() && before <= store.Log(w) && start == Sort(before)
      modifies this`file, store
      ensures Valid()
      ensures before <= seen <= store.Log(w) && old(store.Log(w)) <= seen
      ensures gaps == scan(w, seen)
    {
      var inventory := start;
      ghost var log := before;
      gaps, seen := [], [];
      var attempt := 0;
      while attempt < MaxAttempts
        invariant Valid() && attempt <= MaxAttempts
        invariant before <= log <= store.Log(w) && old(store.Log(w)) <= store.Log(w) && inventory == Sort(log)
        invariant attempt > 0 ==> before <= seen <= log && old(store.Log(w)) <= seen && gaps == scan(w, seen)
      {
        var afterScan;
        ghost var now, later := store.Log(w), [];
        gaps, afterScan, seen, later := ScanOnce(w);
        PrefixTransitive(log, now, seen);
        PrefixTransitive(before, log, seen);
        PrefixTransitive(old(store.Log(w)), now, seen);
        PrefixTransitive(before, seen, later);
        if afterScan == inventory {
          UnchangedInventory(log, seen, later);
          RecordUnlessRefused(w, inventory, gaps, log);
          return;
        }
        log, inventory := later, afterScan;
        attempt := attempt + 1;
      }
    }
  }
}
