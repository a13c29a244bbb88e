/**
 * The repository manager's view of the catalog: the GeoGig data stores, and one repository record
 * per distinct location derived from their `REPOSITORY` connection parameter.
 */
module GeogigRepositoryManager {
  import opened Wrappers
  import opened JavaStrings
  import opened JavaFiles
  import opened GeoServerCatalog
  import opened GeogigRepositoryInfo

  /** `findGeogigStores`: the data stores whose type is the GeoGig factory's display name. */
  predicate IsGeogigDataStore(s: Store)
  {
    s.isDataStore && s.storeType == GeoGigType
  }

  /** The GeoGig data stores of the catalog, in catalog order. */
  function GeogigStores(catalog: seq<Store>): (r: seq<Store>)
    ensures forall s :: s in r <==> s in catalog && IsGeogigDataStore(s)
    ensures |r| <= |catalog|
    decreases |catalog|
  {
    if catalog == [] then []
    else
      var rest := GeogigStores(catalog[1..]);
      assert forall s :: s in catalog <==> s == catalog[0] || s in catalog[1..];
      if IsGeogigDataStore(catalog[0]) then [catalog[0]] + rest else rest
  }

  /** One store in front: it is listed first when it qualifies. */
  lemma GeogigStoresCons(x: Store, rest: seq<Store>)
    ensures GeogigStores([x] + rest) == (if IsGeogigDataStore(x) then [x] else []) + GeogigStores(rest)
  {
    assert ([x] + rest)[0] == x;
    assert ([x] + rest)[1..] == rest;
  }

  /** The listing keeps catalog order: it distributes over concatenation, which with the
   *  one-store case makes it the qualifying stores as a subsequence of the catalog. */
  lemma {:induction false} GeogigStoresConcat(a: seq<Store>, b: seq<Store>)
    ensures GeogigStores(a + b) == GeogigStores(a) + GeogigStores(b)
    decreases |a|
  {
    if a == [] {
      assert a + b == b;
    } else {
      var x, tail := a[0], a[1..];
      assert a == [x] + tail;
      assert a + b == [x] + (tail + b);
      var head := if IsGeogigDataStore(x) then [x] else [];
      assert GeogigStores(a + b) == head + (GeogigStores(tail) + GeogigStores(b)) by {
        GeogigStoresConcat(tail, b);
        GeogigStoresCons(x, tail + b);
      }
      assert GeogigStores(a) == head + GeogigStores(tail) by {
        GeogigStoresCons(x, tail);
      }
      ListingsRegroup(head, GeogigStores(tail), GeogigStores(b));
    }
  }

  /** The store's `REPOSITORY` parameter, if set. */
  function RepositoryParam(s: Store): Option<string>
  {
    if Repository in s.params then Some(s.params[Repository]) else None
  }

  /** `String.valueOf` of the parameter: a missing one reads "null". */
  function LocationText(s: Store): string
  {
    RepositoryParam(s).Or("null")
  }

  /** The record `getAll` builds: `setLocation` of the location text, then `setName` of its name. */
  function StoreRecord(s: Store): (r: InfoValue)
    ensures r == WithLocation(InfoValue(None, None, None), LocationText(s))
  {
    var located := WithLocation(InfoValue(None, None, None), LocationText(s));
    located.(name := Some(Name(FileOf(LocationText(s)))))
  }

  /** The map key of a store's record: the record's location. */
  function StoreKey(s: Store, userDir: Path): Option<string>
  {
    LocationOf(StoreRecord(s), userDir)
  }

  /** A map filled by `put`s in order: a later entry replaces an earlier one with the same key. */
  function PutAll<K, V>(entries: seq<(K, V)>): map<K, V>
    decreases |entries|
  {
    if entries == [] then map[]
    else
      var n := |entries|;
      PutAll(entries[..n - 1])[entries[n - 1].0 := entries[n - 1].1]
  }

  /** The map has a key for each entry and no other. */
  lemma {:induction false} PutAllKeys<K, V>(entries: seq<(K, V)>, k: K)
    ensures k in PutAll(entries) <==> exists i :: 0 <= i < |entries| && entries[i].0 == k
    decreases |entries|
  {
    if entries != [] {
      var n := |entries|;
      var prefix := entries[..n - 1];
      PutAllKeys(prefix, k);
      if k in PutAll(prefix) {
        var i :| 0 <= i < |prefix| && prefix[i].0 == k;
        assert entries[i] == prefix[i];
      }
      if exists i :: 0 <= i < n && entries[i].0 == k {
        var i :| 0 <= i < n && entries[i].0 == k;
        if i < n - 1 {
          assert prefix[i] == entries[i];
        }
      }
    }
  }

  /** The value kept for a key is that of the last entry with the key. */
  lemma {:induction false} PutAllLastWins<K, V>(entries: seq<(K, V)>, i: int)
    requires 0 <= i < |entries|
    requires forall j :: i < j < |entries| ==> entries[j].0 != entries[i].0
    ensures entries[i].0 in PutAll(entries) && PutAll(entries)[entries[i].0] == entries[i].1
    decreases |entries|
  {
    var n := |entries|;
    if i < n - 1 {
      var prefix := entries[..n - 1];
      assert prefix[i] == entries[i];
      assert forall j :: i < j < |prefix| ==> prefix[j] == entries[j];
      PutAllLastWins(prefix, i);
    }
  }

  /** One more `put`. */
  lemma PutAllStep<K, V>(entries: seq<(K, V)>, i: int, key: K, value: V)
    requires 0 <= i < |entries| && entries[i] == (key, value)
    ensures PutAll(entries[..i + 1]) == PutAll(entries[..i])[key := value]
  {
    assert entries[..i + 1][..i] == entries[..i];
  }

  /** The (location, record) pairs `getAll` puts, one per store, in order. */
  function Entries(stores: seq<Store>, userDir: Path): (r: seq<(Option<string>, InfoValue)>)
    ensures |r| == |stores|
    ensures forall i :: 0 <= i < |stores| ==> r[i] == (StoreKey(stores[i], userDir), StoreRecord(stores[i]))
  {
    seq(|stores|, i requires 0 <= i < |stores| => (StoreKey(stores[i], userDir), StoreRecord(stores[i])))
  }

  /** `getAll`'s map: the GeoGig stores' records by location, a later store replacing an earlier one. */
  function ByLocation(catalog: seq<Store>, userDir: Path): map<Option<string>, InfoValue>
  {
    PutAll(Entries(GeogigStores(catalog), userDir))
  }

  /** Every GeoGig store's location is a key, and every key is some GeoGig store's location. */
  lemma ByLocationKeys(catalog: seq<Store>, userDir: Path, k: Option<string>)
    ensures k in ByLocation(catalog, userDir)
      <==> exists s :: s in GeogigStores(catalog) && StoreKey(s, userDir) == k
  {
    var stores := GeogigStores(catalog);
    var entries := Entries(stores, userDir);
    PutAllKeys(entries, k);
    if k in ByLocation(catalog, userDir) {
      var i :| 0 <= i < |entries| && entries[i].0 == k;
      assert stores[i] in stores && StoreKey(stores[i], userDir) == k;
    } else {
      forall s | s in stores
        ensures StoreKey(s, userDir) != k
      {
        var i := IndexOf(stores, s);
        assert entries[i].0 == StoreKey(s, userDir);
      }
    }
  }

  /** A position at which `x` occurs in `s`. */
  function IndexOf<T(==)>(s: seq<T>, x: T): (i: nat)
    requires x in s
    ensures i < |s| && s[i] == x
  {
    if s[0] == x then 0 else 1 + IndexOf(s[1..], x)
  }

  /** Stores without a `REPOSITORY` parameter all share the null key. */
  lemma MissingRepositoryHasNoLocation(s: Store, userDir: Path)
    requires RepositoryParam(s).None?
    ensures StoreKey(s, userDir).None?
  {
    assert SplitAll("null", '/') == ["null"] by {
      SplitAllNoDelimiter("null", '/');
    }
    assert FileOf("null").names == ["null"];
    BareNameHasNoLocation(InfoValue(None, None, None), "null", userDir);
  }

  /** A store with an absolute repository path is keyed by that path, normalised. */
  lemma AbsoluteRepositoryIsTheKey(s: Store, userDir: Path)
    requires FileOf(LocationText(s)).absolute && FileOf(LocationText(s)).names != []
    ensures StoreKey(s, userDir) == Some(PathText(FileOf(LocationText(s))))
  {
    LocationRoundTrip(InfoValue(None, None, None), LocationText(s), userDir);
  }

  /**
   * `getAll`: a fresh record per GeoGig store, kept in a map by location. The map's value order
   * is not modelled.
   */
  method GetAll(catalog: seq<Store>, userDir: Path) returns (infos: map<Option<string>, InfoValue>)
    ensures infos == ByLocation(catalog, userDir)
  {
    var stores := GeogigStores(catalog);
    ghost var entries := Entries(stores, userDir);
    infos := map[];
    var i := 0;
    while i < |stores|
      invariant 0 <= i <= |stores|
      invariant infos == PutAll(entries[..i])
    {
      var ri := new RepositoryInfo();
      var locationStr := LocationText(stores[i]);
      ri.SetLocation(locationStr);
      ri.SetName(Name(FileOf(locationStr)));
      var record := ri.Value();
      assert record == StoreRecord(stores[i]);
      var key := ri.Location(userDir);
      PutAllStep(entries, i, key, record);
      infos := infos[key := record];
      i := i + 1;
    }
    assert entries[..|stores|] == entries;
  }

  datatype Lookup<T> = Found(bean: T) | NotRegistered

  /** `get()`: the registered manager, or an `IllegalStateException` when none is registered. */
  function Get<T>(registered: Option<T>): (r: Lookup<T>)
    ensures registered.Some? <==> r.Found?
    ensures r.Found? ==> r.bean == registered.value
  {
    if registered.Some? then Found(registered.value) else NotRegistered
  }
}
