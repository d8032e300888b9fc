/** The in-memory key/value store and the write-back cache with tombstones over it. */
module KvStore {
  import opened Wrappers
  import opened MachineInts
  import opened OrderedKeys

  type Value = Bytes
  datatype Pair = Pair(key: Key, value: Value)
  datatype KvError = KeyNotFound | FuzzyTooLong | LengthMismatch
  datatype CacheValue = Live(value: Value) | Removed

  type Entries = map<Key, Value>
  type Overlay = map<Key, CacheValue>

  // ---------- specification of lookups ----------

  /** The entry with the greatest key in the window. */
  ghost function GreatestEntry(entries: Entries, key: Key, fuzzy: nat): (r: Option<Pair>)
    requires fuzzy <= |key|
    ensures r.Some? ==>
              IsGreatest(r.value.key, Window(entries.Keys, key, fuzzy)) && r.value.value == entries[r.value.key]
    ensures r == None <==> Window(entries.Keys, key, fuzzy) == {}
  {
    var window := Window(entries.Keys, key, fuzzy);
    if window == {} then None else Some(Pair(Greatest(window), entries[Greatest(window)]))
  }

  function ValueOf(p: Option<Pair>): Option<Value> {
    if p.Some? then Some(p.value.value) else None
  }

  /** What the cache and the store mean together. */
  function Merged(base: Entries, overlay: Overlay): Entries {
    map k | k in base.Keys + overlay.Keys && (k in overlay ==> overlay[k].Live?) ::
      if k in overlay then overlay[k].value else base[k]
  }

  ghost function LiveWindow(overlay: Overlay, key: Key, fuzzy: nat): set<Key>
    requires fuzzy <= |key|
  {
    set k | k in overlay && overlay[k].Live? && InWindow(k, key, fuzzy)
  }

  /** What the cached lookup answers: the first live entry of its window or the store's answer,
      whichever key is greater, without looking at tombstones. */
  ghost function CachedGreatest(base: Entries, overlay: Overlay, key: Key, fuzzy: nat): Option<Pair>
    requires fuzzy <= |key|
  {
    var stored := GreatestEntry(base, key, fuzzy);
    if ZeroSuffix(key, fuzzy) == key then
      if key !in overlay then stored
      else if overlay[key].Live? then Some(Pair(key, overlay[key].value)) else None
    else
      var live := LiveWindow(overlay, key, fuzzy);
      if live == {} then stored
      else if stored.Some? && Less(Least(live), stored.value.key) then stored
      else Some(Pair(Least(live), overlay[Least(live)].value))
  }

  // ---------- the merged view ----------

  datatype Op =
    | Set(key: Key, value: Value)
    | Delete(key: Key)
    | SetMany(items: seq<Pair>)
    | DeleteMany(keys: seq<Key>)
    | Flush

  function PutAll(entries: Entries, items: seq<Pair>): Entries {
    if items == [] then entries
    else PutAll(entries, items[..|items| - 1])[items[|items| - 1].key := items[|items| - 1].value]
  }

  function RemoveAll(entries: Entries, keys: seq<Key>): (rest: Entries)
    ensures forall k {:trigger k in rest} :: k in rest <==> k in entries && k !in keys
    ensures forall k {:trigger rest[k]} :: k in rest ==> rest[k] == entries[k]
  {
    if keys == [] then entries
    else
      assert forall k :: k in keys <==> k in keys[..|keys| - 1] || k == keys[|keys| - 1];
      RemoveAll(entries, keys[..|keys| - 1]) - {keys[|keys| - 1]}
  }

  /** A key's value after a batch is that of the last item with that key ... */
  lemma {:induction false} LastItemWins(entries: Entries, items: seq<Pair>, i: nat)
    requires i < |items| && forall p <- items[i + 1..] :: p.key != items[i].key
    ensures var k := items[i].key; k in PutAll(entries, items) && PutAll(entries, items)[k] == items[i].value
    decreases |items|
  {
    var earlier := items[..|items| - 1];
    if i < |earlier| {
      assert items[i + 1..] == earlier[i + 1..] + [items[|earlier|]];
      assert items[|earlier|] in items[i + 1..];
      LastItemWins(entries, earlier, i);
    }
  }

  /** ... and as before without one. */
  lemma {:induction false} OtherKeysStay(entries: Entries, items: seq<Pair>, k: Key)
    requires forall p <- items :: p.key != k
    ensures k in PutAll(entries, items) <==> k in entries
    ensures k in entries ==> PutAll(entries, items)[k] == entries[k]
  {
    if items != [] {
      assert items[|items| - 1] in items;
      OtherKeysStay(entries, items[..|items| - 1], k);
    }
  }

  function OverlayPutAll(overlay: Overlay, items: seq<Pair>): Overlay {
    if items == [] then overlay
    else OverlayPutAll(overlay, items[..|items| - 1])[items[|items| - 1].key := Live(items[|items| - 1].value)]
  }

  function OverlayRemoveAll(overlay: Overlay, keys: seq<Key>): Overlay {
    if keys == [] then overlay
    else OverlayRemoveAll(overlay, keys[..|keys| - 1])[keys[|keys| - 1] := Removed]
  }

  lemma {:induction false} KnownKeys(overlay: Overlay, keys: seq<Key>, k: Key)
    ensures k in OverlayRemoveAll(overlay, keys) <==> k in overlay || k in keys
  {
    if keys != [] {
      KnownKeys(overlay, keys[..|keys| - 1], k);
      assert keys == keys[..|keys| - 1] + [keys[|keys| - 1]];
    }
  }

  /** An operation on a plain store; flushing means nothing there. */
  function Plain(entries: Entries, op: Op): Entries {
    match op
    case Set(k, v) => entries[k := v]
    case Delete(k) => entries - {k}
    case SetMany(items) => PutAll(entries, items)
    case DeleteMany(keys) => RemoveAll(entries, keys)
    case Flush => entries
  }

  /** The same operation through the cache, on the store below and the overlay. */
  function Cached(base: Entries, overlay: Overlay, op: Op): (Entries, Overlay) {
    match op
    case Set(k, v) => (base, overlay[k := Live(v)])
    case Delete(k) => (base, overlay[k := Removed])
    case SetMany(items) => (base, OverlayPutAll(overlay, items))
    case DeleteMany(keys) => (base, OverlayRemoveAll(overlay, keys))
    case Flush => (Merged(base, overlay), map[])
  }

  function RunPlain(entries: Entries, ops: seq<Op>): Entries {
    if ops == [] then entries else Plain(RunPlain(entries, ops[..|ops| - 1]), ops[|ops| - 1])
  }

  function RunCached(base: Entries, overlay: Overlay, ops: seq<Op>): (Entries, Overlay) {
    if ops == [] then (base, overlay)
    else
      var before := RunCached(base, overlay, ops[..|ops| - 1]);
      Cached(before.0, before.1, ops[|ops| - 1])
  }

  lemma SetMerged(base: Entries, overlay: Overlay, k: Key, v: Value)
    ensures Merged(base, overlay[k := Live(v)]) == Merged(base, overlay)[k := v]
  {
  }

  lemma DeleteMerged(base: Entries, overlay: Overlay, k: Key)
    ensures Merged(base, overlay[k := Removed]) == Merged(base, overlay) - {k}
  {
  }

  lemma {:induction false} PutAllMerged(base: Entries, overlay: Overlay, items: seq<Pair>)
    ensures Merged(base, OverlayPutAll(overlay, items)) == PutAll(Merged(base, overlay), items)
  {
    if items != [] {
      var earlier, last := items[..|items| - 1], items[|items| - 1];
      PutAllMerged(base, overlay, earlier);
      SetMerged(base, OverlayPutAll(overlay, earlier), last.key, last.value);
    }
  }

  lemma {:induction false} RemoveAllMerged(base: Entries, overlay: Overlay, keys: seq<Key>)
    ensures Merged(base, OverlayRemoveAll(overlay, keys)) == RemoveAll(Merged(base, overlay), keys)
  {
    if keys != [] {
      var earlier := keys[..|keys| - 1];
      RemoveAllMerged(base, overlay, earlier);
      DeleteMerged(base, OverlayRemoveAll(overlay, earlier), keys[|keys| - 1]);
    }
  }

  lemma {:induction false} OpRefines(base: Entries, overlay: Overlay, op: Op)
    ensures var r := Cached(base, overlay, op);
            Merged(r.0, r.1) == Plain(Merged(base, overlay), op)
  {
    match op
    case SetMany(items) => PutAllMerged(base, overlay, items);
    case DeleteMany(keys) => RemoveAllMerged(base, overlay, keys);
    case Set(k, v) => SetMerged(base, overlay, k, v);
    case Delete(k) => DeleteMerged(base, overlay, k);
    case Flush => assert Merged(Merged(base, overlay), map[]) == Merged(base, overlay);
  }

  /** Cache refinement: after any operations, flushes among them, the cache and the store together
      mean what a plain store would hold had the operations run on it directly. */
  lemma {:induction false} CacheRefinesStore(base: Entries, overlay: Overlay, ops: seq<Op>)
    ensures var r := RunCached(base, overlay, ops);
            Merged(r.0, r.1) == RunPlain(Merged(base, overlay), ops)
  {
    if ops != [] {
      CacheRefinesStore(base, overlay, ops[..|ops| - 1]);
      var before := RunCached(base, overlay, ops[..|ops| - 1]);
      OpRefines(before.0, before.1, ops[|ops| - 1]);
    }
  }

  // ---------- the delta of a flush ----------

  /** A flush's delta: every live entry once, every tombstone once. */
  ghost predicate IsDelta(overlay: Overlay, sets: seq<Pair>, removed: seq<Key>) {
    && NoDuplicateKeys(sets) && NoDuplicates(removed)
    && (forall p :: p in sets <==> p.key in overlay && overlay[p.key] == Live(p.value))
    && (forall k :: k in removed <==> k in overlay && overlay[k] == Removed)
  }

  lemma {:induction false} PutAllLookup(entries: Entries, items: seq<Pair>, k: Key)
    requires forall p, q :: p in items && q in items && p.key == q.key ==> p == q
    ensures k in PutAll(entries, items) <==> k in entries || exists p <- items :: p.key == k
    ensures forall p <- items :: p.key == k ==> k in PutAll(entries, items) && PutAll(entries, items)[k] == p.value
    ensures k in entries && (forall p <- items :: p.key != k) ==> PutAll(entries, items)[k] == entries[k]
  {
    if items != [] {
      var init, last := items[..|items| - 1], items[|items| - 1];
      assert forall p :: p in items <==> p in init || p == last;
      PutAllLookup(entries, init, k);
    }
  }

  /** Replaying a flush's delta on any store gives that store what the overlay meant over it. */
  lemma {:induction false} ReplayedDelta(base: Entries, overlay: Overlay, sets: seq<Pair>, removed: seq<Key>)
    requires IsDelta(overlay, sets, removed)
    ensures RemoveAll(PutAll(base, sets), removed) == Merged(base, overlay)
  {
    var replayed, merged := RemoveAll(PutAll(base, sets), removed), Merged(base, overlay);
    forall k
      ensures (k in replayed <==> k in merged) && (k in merged ==> replayed[k] == merged[k])
    {
      PutAllLookup(base, sets, k);
      if k in overlay && overlay[k].Live? {
        assert Pair(k, overlay[k].value) in sets;
      }
    }
  }

  /** The answer of a cached delete is right exactly when the cache holds the key alive, or nobody
      has it. */
  lemma {:induction false} DeleteAnswerCondition(base: Entries, overlay: Overlay, key: Key)
    ensures (key in overlay) == (key in Merged(base, overlay))
            <==> if key in overlay then overlay[key].Live? else key !in base
  {
  }

  // ---------- lookups against the merged view ----------

  lemma {:induction false} ShortcutAgrees(entries: Entries, key: Key, fuzzy: nat)
    requires fuzzy <= |key| && ZeroSuffix(key, fuzzy) == key
    ensures GreatestEntry(entries, key, fuzzy) == if key in entries then Some(Pair(key, entries[key])) else None
  {
    forall k
      ensures k in Window(entries.Keys, key, fuzzy) <==> k in entries && k == key
    {
      ZeroSuffixWindow(k, key, fuzzy);
    }
  }

  /** When the cached lookup can be trusted. If it would return the store's answer: the cache must
      not hold anything else under that key, nor a live entry above it. If it would return its
      own first live entry: that must be its only one in the window. */
  ghost predicate LookupTrustworthy(base: Entries, overlay: Overlay, key: Key, fuzzy: nat)
    requires fuzzy <= |key|
  {
    var stored, live := GreatestEntry(base, key, fuzzy), LiveWindow(overlay, key, fuzzy);
    ZeroSuffix(key, fuzzy) == key
    || if stored.Some? && (live == {} || Less(Least(live), stored.value.key)) then
         && (stored.value.key in overlay ==> overlay[stored.value.key] == Live(stored.value.value))
         && (forall k <- live :: Leq(k, stored.value.key))
       else
         forall k <- live :: k == Least(live)
  }

  lemma {:induction false} MergedWindow(base: Entries, overlay: Overlay, key: Key, fuzzy: nat, k: Key)
    requires fuzzy <= |key|
    ensures k in Window(Merged(base, overlay).Keys, key, fuzzy) <==>
              k in LiveWindow(overlay, key, fuzzy) || (k in Window(base.Keys, key, fuzzy) && k !in overlay)
  {
  }

  lemma {:induction false} GreatestEntryIs(entries: Entries, key: Key, fuzzy: nat, k: Key)
    requires fuzzy <= |key| && IsGreatest(k, Window(entries.Keys, key, fuzzy))
    ensures GreatestEntry(entries, key, fuzzy) == Some(Pair(k, entries[k]))
  {
    GreatestUnique(k, Greatest(Window(entries.Keys, key, fuzzy)), Window(entries.Keys, key, fuzzy));
  }

  lemma {:induction false} StoreAnswerAgrees(base: Entries, overlay: Overlay, key: Key, fuzzy: nat)
    requires fuzzy <= |key| && ZeroSuffix(key, fuzzy) != key
    requires GreatestEntry(base, key, fuzzy).Some?
    ensures var stored, live := GreatestEntry(base, key, fuzzy).value, LiveWindow(overlay, key, fuzzy);
            GreatestEntry(Merged(base, overlay), key, fuzzy) == Some(stored) <==>
              && (stored.key in overlay ==> overlay[stored.key] == Live(stored.value))
              && (forall k <- live :: Leq(k, stored.key))
  {
    var stored, live := GreatestEntry(base, key, fuzzy).value, LiveWindow(overlay, key, fuzzy);
    var merged := Merged(base, overlay);
    forall k {
      MergedWindow(base, overlay, key, fuzzy, k);
    }
    if (stored.key in overlay ==> overlay[stored.key] == Live(stored.value))
        && (forall k <- live :: Leq(k, stored.key))
    {
      assert IsGreatest(stored.key, Window(merged.Keys, key, fuzzy));
      GreatestEntryIs(merged, key, fuzzy, stored.key);
    }
  }

  lemma {:induction false} CacheAnswerAgrees(base: Entries, overlay: Overlay, key: Key, fuzzy: nat)
    requires fuzzy <= |key| && ZeroSuffix(key, fuzzy) != key && LiveWindow(overlay, key, fuzzy) != {}
    requires var stored := GreatestEntry(base, key, fuzzy);
             stored.Some? ==> !Less(Least(LiveWindow(overlay, key, fuzzy)), stored.value.key)
    ensures var live := LiveWindow(overlay, key, fuzzy);
            var least := Least(live);
            GreatestEntry(Merged(base, overlay), key, fuzzy) == Some(Pair(least, overlay[least].value)) <==>
              forall k <- live :: k == least
  {
    var live := LiveWindow(overlay, key, fuzzy);
    var least, merged, stored := Least(live), Merged(base, overlay), GreatestEntry(base, key, fuzzy);
    forall k {
      MergedWindow(base, overlay, key, fuzzy, k);
    }
    LeqReflexive(least);
    forall k | k in Window(base.Keys, key, fuzzy)
      ensures Leq(k, least)
    {
      LeqTotal(least, stored.value.key);
      LeqTransitive(k, stored.value.key, least);
    }
    if forall k <- live :: k == least {
      assert IsGreatest(least, Window(merged.Keys, key, fuzzy));
      GreatestEntryIs(merged, key, fuzzy, least);
    } else {
      var k :| k in live && k != least;
      if Leq(k, least) {
        LeqAntisymmetric(k, least);
      }
    }
  }

  /** The cached lookup answers the merged view's greatest entry of the window exactly when it is
      trustworthy. */
  lemma {:induction false} CachedLookupCondition(base: Entries, overlay: Overlay, key: Key, fuzzy: nat)
    requires fuzzy <= |key|
    ensures CachedGreatest(base, overlay, key, fuzzy) == GreatestEntry(Merged(base, overlay), key, fuzzy)
            <==> LookupTrustworthy(base, overlay, key, fuzzy)
  {
    var stored, live := GreatestEntry(base, key, fuzzy), LiveWindow(overlay, key, fuzzy);
    if ZeroSuffix(key, fuzzy) == key {
      ShortcutAgrees(base, key, fuzzy);
      ShortcutAgrees(Merged(base, overlay), key, fuzzy);
    } else if stored.Some? && (live == {} || Less(Least(live), stored.value.key)) {
      StoreAnswerAgrees(base, overlay, key, fuzzy);
    } else if live != {} {
      CacheAnswerAgrees(base, overlay, key, fuzzy);
    } else {
      forall k {
        MergedWindow(base, overlay, key, fuzzy, k);
      }
    }
  }

  /** A window without tombstones and with at most one live cached key is trustworthy. */
  lemma {:induction false} SimpleWindowIsTrustworthy(base: Entries, overlay: Overlay, key: Key, fuzzy: nat)
    requires fuzzy <= |key|
    requires forall k :: k in overlay && InWindow(k, key, fuzzy) ==> overlay[k].Live?
    requires forall k, l :: k in LiveWindow(overlay, key, fuzzy) && l in LiveWindow(overlay, key, fuzzy) ==> k == l
    ensures CachedGreatest(base, overlay, key, fuzzy) == GreatestEntry(Merged(base, overlay), key, fuzzy)
  {
    var stored, live := GreatestEntry(base, key, fuzzy), LiveWindow(overlay, key, fuzzy);
    if stored.Some? && stored.value.key in overlay {
      assert stored.value.key in live;
    }
    CachedLookupCondition(base, overlay, key, fuzzy);
  }

  /** A deleted entry that is still in the store comes back through every fuzzy lookup that ends at
      its key, whatever else the cache and the store hold. */
  lemma {:induction false} TombstoneResurfaces(base: Entries, overlay: Overlay, key: Key, fuzzy: nat)
    requires fuzzy <= |key| && ZeroSuffix(key, fuzzy) != key
    requires key in base && key in overlay && overlay[key] == Removed
    ensures CachedGreatest(base, overlay, key, fuzzy) == Some(Pair(key, base[key]))
    ensures GreatestEntry(Merged(base, overlay), key, fuzzy) != Some(Pair(key, base[key]))
  {
    WindowIsOrdered(key, fuzzy);
    LeqReflexive(key);
    assert IsGreatest(key, Window(base.Keys, key, fuzzy));
    GreatestEntryIs(base, key, fuzzy, key);
  }

  // ---------- the stores of the source ----------

  class SimpleStore {
    var entries: Entries

    constructor ()
      ensures entries == map[]
    {
      entries := map[];
    }

    method GetExact(key: Key) returns (r: Result<Value, KvError>)
      ensures r == if key in entries then Ok(entries[key]) else Err(KeyNotFound)
    {
      if key in entries {
        return Ok(entries[key]);
      }
      return Err(KeyNotFound);
    }

    method GetExactIfExists(key: Key) returns (r: Option<Value>)
      ensures r == if key in entries then Some(entries[key]) else None
    {
      if key in entries {
        return Some(entries[key]);
      }
      return None;
    }

    /** The entries of the window, in key order. */
    method GetFuzzyRangeLeqKv(key: Key, fuzzy: nat) returns (r: Result<seq<Pair>, KvError>)
      ensures fuzzy > |key| ==> r == Err(FuzzyTooLong)
      ensures fuzzy <= |key| ==> r.Ok? && IsRange(r.value, entries, key, fuzzy)
    {
      if fuzzy > |key| {
        return Err(FuzzyTooLong);
      }
      var base, _ := ZeroBaseKey(key, fuzzy);
      var keys := Sorted(set k | k in entries && Leq(base, k) && Leq(k, key));
      var items := [];
      forall j | 0 <= j < |keys|
        ensures keys[j] in entries
      {
        assert keys[j] in keys;
      }
      for i := 0 to |keys|
        invariant |items| == i
        invariant forall j {:trigger keys[j]} :: 0 <= j < |keys| ==> keys[j] in entries
        invariant forall j {:trigger items[j]} :: 0 <= j < i ==> items[j] == Pair(keys[j], entries[keys[j]])
      {
        assert keys[i] in keys;
        items := items + [Pair(keys[i], entries[keys[i]])];
      }
      ghost var window := Window(entries.Keys, key, fuzzy);
      forall p
        ensures p in items <==> p.key in window && p.key in entries && p.value == entries[p.key]
      {
        if p.key in window {
          assert p.key in keys;
          var j :| 0 <= j < |keys| && keys[j] == p.key;
          assert items[j] == Pair(p.key, entries[p.key]);
        }
        if p in items {
          var j :| 0 <= j < |items| && items[j] == p;
          assert keys[j] in keys;
        }
      }
      return Ok(items);
    }

    /** The last entry of the window. */
    method GetLeqKv(key: Key, fuzzy: nat) returns (r: Result<Option<Pair>, KvError>)
      ensures fuzzy > |key| ==> r == Err(FuzzyTooLong)
      ensures fuzzy <= |key| ==> r == Ok(GreatestEntry(entries, key, fuzzy))
    {
      if fuzzy > |key| {
        return Err(FuzzyTooLong);
      }
      var base, _ := ZeroBaseKey(key, fuzzy);
      var keys := Sorted(set k | k in entries && Leq(base, k) && Leq(k, key));
      assert forall k :: k in Window(entries.Keys, key, fuzzy) <==> k in keys;
      if keys == [] {
        assert Window(entries.Keys, key, fuzzy) == {};
        return Ok(None);
      }
      var last := keys[|keys| - 1];
      LastIsGreatest(keys, Window(entries.Keys, key, fuzzy));
      GreatestEntryIs(entries, key, fuzzy, last);
      return Ok(Some(Pair(last, entries[last])));
    }

    /** Its value; a zero suffix takes a point lookup instead of the scan. */
    method GetLeq(key: Key, fuzzy: nat) returns (r: Result<Option<Value>, KvError>)
      ensures fuzzy > |key| ==> r == Err(FuzzyTooLong)
      ensures fuzzy <= |key| ==> r == Ok(ValueOf(GreatestEntry(entries, key, fuzzy)))
    {
      if fuzzy > |key| {
        return Err(FuzzyTooLong);
      }
      var base, sum := ZeroBaseKey(key, fuzzy);
      if sum == 0 {
        ShortcutAgrees(entries, key, fuzzy);
        return Ok(if key in entries then Some(entries[key]) else None);
      }
      var last := GetLeqKv(key, fuzzy);
      return Ok(ValueOf(last.value));
    }

    method Put(key: Key, value: Value)
      modifies this
      ensures entries == old(entries)[key := value]
    {
      entries := entries[key := value];
    }

    method PutMany(items: seq<Pair>)
      modifies this
      ensures entries == PutAll(old(entries), items)
    {
      for i := 0 to |items|
        invariant entries == PutAll(old(entries), items[..i])
      {
        assert items[..i + 1][..i] == items[..i];
        entries := entries[items[i].key := items[i].value];
      }
      assert items[..|items|] == items;
    }

    method PutManySplit(keys: seq<Key>, values: seq<Value>) returns (r: Result<(), KvError>)
      modifies this
      ensures |keys| != |values| ==> r == Err(LengthMismatch) && entries == old(entries)
      ensures |keys| == |values| ==> r == Ok(()) && entries == PutAll(old(entries), Zip(keys, values))
    {
      if |keys| != |values| {
        return Err(LengthMismatch);
      }
      for i := 0 to |keys|
        invariant entries == PutAll(old(entries), Zip(keys[..i], values[..i]))
      {
        assert keys[..i + 1][..i] == keys[..i] && values[..i + 1][..i] == values[..i];
        ghost var zipped := Zip(keys[..i + 1], values[..i + 1]);
        assert zipped[..i] == Zip(keys[..i], values[..i]);
        entries := entries[keys[i] := values[i]];
      }
      assert keys[..|keys|] == keys && values[..|keys|] == values;
      return Ok(());
    }

    method Erase(key: Key) returns (existed: bool)
      modifies this
      ensures entries == old(entries) - {key} && existed == (key in old(entries))
    {
      existed := key in entries;
      entries := entries - {key};
    }

    method EraseMany(keys: seq<Key>) returns (existed: seq<bool>)
      modifies this
      ensures entries == RemoveAll(old(entries), keys) && |existed| == |keys|
      ensures forall i :: 0 <= i < |keys| ==> existed[i] == (keys[i] in old(entries) && keys[i] !in keys[..i])
    {
      existed := [];
      for i := 0 to |keys|
        invariant entries == RemoveAll(old(entries), keys[..i]) && |existed| == i
        invariant forall j :: 0 <= j < i ==> existed[j] == (keys[j] in old(entries) && keys[j] !in keys[..j])
      {
        var e := Erase(keys[i]);
        existed := existed + [e];
        assert keys[..i + 1][..i] == keys[..i];
      }
      assert keys[..|keys|] == keys;
    }
  }

  ghost predicate IsRange(items: seq<Pair>, entries: Entries, key: Key, fuzzy: nat)
    requires fuzzy <= |key|
  {
    && (forall i, j :: 0 <= i < j < |items| ==> Less(items[i].key, items[j].key))
    && (forall p :: p in items <==> p.key in Window(entries.Keys, key, fuzzy) && p.value == entries[p.key])
  }

  lemma {:induction false} LastIsGreatest(ks: seq<Key>, keys: set<Key>)
    requires Ascending(ks) && ks != [] && forall k :: k in ks <==> k in keys
    ensures IsGreatest(ks[|ks| - 1], keys)
  {
    LeqReflexive(ks[|ks| - 1]);
    forall x | x in keys
      ensures Leq(x, ks[|ks| - 1])
    {
      var i :| 0 <= i < |ks| && ks[i] == x;
    }
  }

  /** The greatest entry is the last of the range. */
  lemma {:induction false} GreatestIsLastOfRange(entries: Entries, key: Key, fuzzy: nat, items: seq<Pair>)
    requires fuzzy <= |key| && IsRange(items, entries, key, fuzzy)
    ensures GreatestEntry(entries, key, fuzzy) == if items == [] then None else Some(items[|items| - 1])
  {
    var window := Window(entries.Keys, key, fuzzy);
    if window != {} {
      var k :| k in window;
      assert Pair(k, entries[k]) in items;
    }
    if items != [] {
      var last := items[|items| - 1];
      LeqReflexive(last.key);
      forall k | k in window
        ensures Leq(k, last.key)
      {
        assert Pair(k, entries[k]) in items;
        var i :| 0 <= i < |items| && items[i] == Pair(k, entries[k]);
      }
      assert last in items;
      GreatestEntryIs(entries, key, fuzzy, last.key);
    }
  }

  function Zip(keys: seq<Key>, values: seq<Value>): (items: seq<Pair>)
    requires |keys| == |values|
    ensures |items| == |keys|
    ensures forall i {:trigger items[i]} :: 0 <= i < |keys| ==> items[i] == Pair(keys[i], values[i])
  {
    if keys == [] then []
    else Zip(keys[..|keys| - 1], values[..|keys| - 1]) + [Pair(keys[|keys| - 1], values[|keys| - 1])]
  }

  class CachedStore {
    const store: SimpleStore
    const properDeleteReturn: bool
    var overlay: Overlay

    constructor (store: SimpleStore, properDeleteReturn: bool := false)
      ensures this.store == store && overlay == map[] && this.properDeleteReturn == properDeleteReturn
    {
      this.store, this.properDeleteReturn := store, properDeleteReturn;
      overlay := map[];
    }

    ghost function View(): Entries
      reads this, store
    {
      Merged(store.entries, overlay)
    }

    method GetExact(key: Key) returns (r: Result<Value, KvError>)
      ensures r == if key in View() then Ok(View()[key]) else Err(KeyNotFound)
    {
      if key in overlay {
        return if overlay[key].Live? then Ok(overlay[key].value) else Err(KeyNotFound);
      }
      r := store.GetExact(key);
    }

    method GetManyExact(keys: seq<Key>) returns (r: Result<seq<Value>, KvError>)
      ensures r.Ok? <==> forall k <- keys :: k in View()
      ensures r.Ok? ==> |r.value| == |keys| && forall i :: 0 <= i < |keys| ==> r.value[i] == View()[keys[i]]
      ensures r.Err? ==> r.error == KeyNotFound
    {
      var values := [];
      for i := 0 to |keys|
        invariant |values| == i
        invariant forall j :: 0 <= j < i ==> keys[j] in View() && values[j] == View()[keys[j]]
      {
        var value := GetExact(keys[i]);
        if value.Err? {
          assert keys[i] in keys;
          return Err(value.error);
        }
        values := values + [value.value];
      }
      return Ok(values);
    }

    method GetExactIfExists(key: Key) returns (r: Option<Value>)
      ensures r == if key in View() then Some(View()[key]) else None
    {
      if key in overlay {
        return if overlay[key].Live? then Some(overlay[key].value) else None;
      }
      r := store.GetExactIfExists(key);
    }

    /** The first live entry of the cache's own window. */
    method FirstLive(base: Key, key: Key, ghost fuzzy: nat) returns (r: Option<Pair>)
      requires fuzzy <= |key| && base == ZeroSuffix(key, fuzzy)
      ensures var live := LiveWindow(overlay, key, fuzzy);
              if live == {} then r == None
              else r == Some(Pair(OrderedKeys.Least(live), overlay[OrderedKeys.Least(live)].value))
    {
      var keys := Sorted(set k | k in overlay && Leq(base, k) && Leq(k, key));
      ghost var live := LiveWindow(overlay, key, fuzzy);
      for i := 0 to |keys|
        invariant forall j :: 0 <= j < i ==> keys[j] !in live
      {
        assert keys[i] in keys;
        if overlay[keys[i]].Live? {
          LeqReflexive(keys[i]);
          forall x | x in live
            ensures Leq(keys[i], x)
          {
            assert x in keys;
            var j :| 0 <= j < |keys| && keys[j] == x;
          }
          assert keys[i] in live;
          LeastUnique(keys[i], OrderedKeys.Least(live), live);
          return Some(Pair(keys[i], overlay[keys[i]].value));
        }
      }
      assert forall k :: k in live ==> k in keys;
      assert live == {};
      return None;
    }

    method GetLeqKv(key: Key, fuzzy: nat) returns (r: Result<Option<Pair>, KvError>)
      ensures fuzzy > |key| ==> r == Err(FuzzyTooLong)
      ensures fuzzy <= |key| ==> r == Ok(CachedGreatest(store.entries, overlay, key, fuzzy))
    {
      if fuzzy > |key| {
        return Err(FuzzyTooLong);
      }
      var base, sum := ZeroBaseKey(key, fuzzy);
      if sum == 0 {
        if key in overlay {
          return Ok(if overlay[key].Live? then Some(Pair(key, overlay[key].value)) else None);
        }
        r := store.GetLeqKv(key, fuzzy);
        return;
      }
      var first := FirstLive(base, key, fuzzy);
      r := store.GetLeqKv(key, fuzzy);
      if first.Some? {
        var stored := r.value;
        r := Ok(if stored.Some? && Less(first.value.key, stored.value.key) then stored else first);
      }
    }

    method GetLeq(key: Key, fuzzy: nat) returns (r: Result<Option<Value>, KvError>)
      ensures fuzzy > |key| ==> r == Err(FuzzyTooLong)
      ensures fuzzy <= |key| ==> r == Ok(ValueOf(CachedGreatest(store.entries, overlay, key, fuzzy)))
    {
      if fuzzy > |key| {
        return Err(FuzzyTooLong);
      }
      var base, sum := ZeroBaseKey(key, fuzzy);
      if sum == 0 {
        if key in overlay {
          return Ok(if overlay[key].Live? then Some(overlay[key].value) else None);
        }
        r := store.GetLeq(key, fuzzy);
        return;
      }
      var first := FirstLive(base, key, fuzzy);
      if first == None {
        r := store.GetLeq(key, fuzzy);
        return;
      }
      var stored := store.GetLeqKv(key, fuzzy);
      if stored.value.Some? {
        var (rnt, rok) := (stored.value.value, first.value);
        return Ok(Some(if Less(rok.key, rnt.key) then rnt.value else rok.value));
      }
      return Ok(Some(first.value.value));
    }

    /** The cache's live entries of the window, then the store's that the cache does not hide:
        together the merged view's, each key once. */
    method GetFuzzyRangeLeqKv(key: Key, fuzzy: nat) returns (r: Result<seq<Pair>, KvError>)
      ensures fuzzy > |key| ==> r == Err(FuzzyTooLong)
      ensures fuzzy <= |key| ==> r.Ok? && IsUnorderedRange(r.value, View(), key, fuzzy)
    {
      if fuzzy > |key| {
        return Err(FuzzyTooLong);
      }
      var base, _ := ZeroBaseKey(key, fuzzy);
      var keys := Sorted(set k | k in overlay && Leq(base, k) && Leq(k, key));
      var own := [];
      for i := 0 to |keys|
        invariant NoDuplicateKeys(own)
        invariant forall p :: p in own <==> p.key in keys[..i] && p.key in overlay && overlay[p.key] == Live(p.value)
      {
        assert keys[i] in keys && keys[i] !in keys[..i];
        assert forall k :: k in keys[..i + 1] <==> k in keys[..i] || k == keys[i];
        if overlay[keys[i]].Live? {
          own := own + [Pair(keys[i], overlay[keys[i]].value)];
        }
      }
      assert keys[..|keys|] == keys;
      var stored := store.GetFuzzyRangeLeqKv(key, fuzzy);
      var rest := [];
      for i := 0 to |stored.value|
        invariant NoDuplicateKeys(rest)
        invariant forall p :: p in rest <==> p in stored.value[..i] && p.key !in overlay
      {
        var p := stored.value[i];
        assert forall q :: q in stored.value[..i + 1] <==> q in stored.value[..i] || q == p;
        if p.key !in overlay {
          forall j | 0 <= j < |rest|
            ensures rest[j].key != p.key
          {
            assert rest[j] in rest;
          }
          rest := rest + [p];
        }
      }
      assert stored.value[..|stored.value|] == stored.value;
      UnorderedRange(store.entries, overlay, key, fuzzy, own, stored.value, rest);
      return Ok(own + rest);
    }

    // ---------- writers ----------

    method Put(key: Key, value: Value)
      modifies this
      ensures overlay == old(overlay)[key := Live(value)] && View() == old(View())[key := value]
    {
      OpRefines(store.entries, overlay, Set(key, value));
      overlay := overlay[key := Live(value)];
    }

    method PutMany(items: seq<Pair>)
      modifies this
      ensures View() == PutAll(old(View()), items)
    {
      for i := 0 to |items|
        invariant overlay == OverlayPutAll(old(overlay), items[..i])
      {
        assert items[..i + 1][..i] == items[..i];
        overlay := overlay[items[i].key := Live(items[i].value)];
      }
      assert items[..|items|] == items;
      OpRefines(store.entries, old(overlay), SetMany(items));
    }

    method PutManySplit(keys: seq<Key>, values: seq<Value>) returns (r: Result<(), KvError>)
      modifies this
      ensures |keys| != |values| ==> r == Err(LengthMismatch) && overlay == old(overlay)
      ensures |keys| == |values| ==> r == Ok(()) && View() == PutAll(old(View()), Zip(keys, values))
    {
      if |keys| != |values| {
        return Err(LengthMismatch);
      }
      for i := 0 to |keys|
        invariant overlay == OverlayPutAll(old(overlay), Zip(keys[..i], values[..i]))
      {
        assert keys[..i + 1][..i] == keys[..i] && values[..i + 1][..i] == values[..i];
        ghost var zipped := Zip(keys[..i + 1], values[..i + 1]);
        assert zipped[..i] == Zip(keys[..i], values[..i]);
        overlay := overlay[keys[i] := Live(values[i])];
      }
      assert keys[..|keys|] == keys && values[..|keys|] == values;
      OpRefines(store.entries, old(overlay), SetMany(Zip(keys, values)));
      return Ok(());
    }

    /** The answer only tells whether the cache knew the key, asked for a proper one or not: by the
        time the view is consulted the tombstone is in it. */
    method Erase(key: Key) returns (existed: bool)
      modifies this
      ensures overlay == old(overlay)[key := Removed] && View() == old(View()) - {key}
      ensures existed == (key in old(overlay))
    {
      OpRefines(store.entries, overlay, Delete(key));
      var known := key in overlay;
      overlay := overlay[key := Removed];
      if known {
        return true;
      }
      if properDeleteReturn {
        var value := GetExactIfExists(key);
        return value.Some?;
      }
      return false;
    }

    method EraseMany(keys: seq<Key>) returns (existed: seq<bool>)
      modifies this
      ensures View() == RemoveAll(old(View()), keys)
      ensures |existed| == |keys|
      ensures forall i :: 0 <= i < |keys| ==> existed[i] == (keys[i] in old(overlay) || keys[i] in keys[..i])
    {
      existed := [];
      for i := 0 to |keys|
        invariant overlay == OverlayRemoveAll(old(overlay), keys[..i]) && |existed| == i
        invariant forall j :: 0 <= j < i ==> existed[j] == (keys[j] in old(overlay) || keys[j] in keys[..j])
      {
        assert keys[..i + 1][..i] == keys[..i];
        KnownKeys(old(overlay), keys[..i], keys[i]);
        var e := Erase(keys[i]);
        existed := existed + [e];
      }
      assert keys[..|keys|] == keys;
      OpRefines(store.entries, old(overlay), DeleteMany(keys));
    }

    // ---------- flushing ----------

    /** The overlay as a delta, in key order. */
    method Delta() returns (sets: seq<Pair>, removed: seq<Key>)
      ensures IsDelta(overlay, sets, removed)
    {
      var keys := Sorted(overlay.Keys);
      sets, removed := [], [];
      for i := 0 to |keys|
        invariant NoDuplicateKeys(sets) && NoDuplicates(removed)
        invariant forall p :: p in sets <==> p.key in keys[..i] && p.key in overlay && overlay[p.key] == Live(p.value)
        invariant forall k :: k in removed <==> k in keys[..i] && k in overlay && overlay[k] == Removed
      {
        assert keys[i] in keys && keys[i] !in keys[..i];
        assert forall k :: k in keys[..i + 1] <==> k in keys[..i] || k == keys[i];
        assert forall j :: 0 <= j < |sets| ==> sets[j] in sets;
        assert forall j :: 0 <= j < |removed| ==> removed[j] in removed;
        if overlay[keys[i]].Live? {
          sets := sets + [Pair(keys[i], overlay[keys[i]].value)];
        } else {
          removed := removed + [keys[i]];
        }
      }
      assert keys[..|keys|] == keys;
    }

    /** Empty the overlay into a delta. The store is left for the caller to update: replaying the
        delta on it, or on any store, restores the view over that store. */
    method FlushChanges() returns (sets: seq<Pair>, removed: seq<Key>)
      modifies this
      ensures overlay == map[] && IsDelta(old(overlay), sets, removed)
      ensures forall base: Entries :: RemoveAll(PutAll(base, sets), removed) == Merged(base, old(overlay))
    {
      sets, removed := Delta();
      forall base: Entries {
        ReplayedDelta(base, overlay, sets, removed);
      }
      overlay := map[];
    }

    /** Empty the overlay into the store: the view does not change. */
    method FlushSimple()
      modifies this, store
      ensures overlay == map[] && View() == store.entries == old(View())
    {
      var sets, removed := Delta();
      ReplayedDelta(store.entries, overlay, sets, removed);
      store.PutMany(sets);
      var _ := store.EraseMany(removed);
      overlay := map[];
    }
  }

  ghost predicate NoDuplicates(keys: seq<Key>) {
    forall i, j :: 0 <= i < j < |keys| ==> keys[i] != keys[j]
  }

  ghost predicate NoDuplicateKeys(items: seq<Pair>) {
    forall i, j :: 0 <= i < j < |items| ==> items[i].key != items[j].key
  }

  ghost predicate IsUnorderedRange(items: seq<Pair>, entries: Entries, key: Key, fuzzy: nat)
    requires fuzzy <= |key|
  {
    && NoDuplicateKeys(items)
    && (forall p :: p in items <==> p.key in Window(entries.Keys, key, fuzzy) && p.value == entries[p.key])
  }

  lemma {:induction false} UnorderedRange(base: Entries, overlay: Overlay, key: Key, fuzzy: nat, own: seq<Pair>,
      stored: seq<Pair>, rest: seq<Pair>)
    requires fuzzy <= |key| && IsRange(stored, base, key, fuzzy)
    requires NoDuplicateKeys(own) && NoDuplicateKeys(rest)
    requires forall p :: p in own <==> p.key in LiveWindow(overlay, key, fuzzy) && overlay[p.key] == Live(p.value)
    requires forall p :: p in rest <==> p in stored && p.key !in overlay
    ensures IsUnorderedRange(own + rest, Merged(base, overlay), key, fuzzy)
  {
    forall k {
      MergedWindow(base, overlay, key, fuzzy, k);
    }
    var all := own + rest;
    forall i, j | 0 <= i < j < |all|
      ensures all[i].key != all[j].key
    {
      if i < |own| && |own| <= j {
        assert all[i] in own && all[j] in rest;
      }
    }
  }
}
