/**
 * The start-up upgrade of GeoGig stores: every repository directory named by a GeoGig store's
 * `REPOSITORY` parameter that no saved repository record has as its location gets a new record,
 * and its stores are rewired to refer to that record's id through the GeoServer resolver.
 */
module GeogigInitializer {
  import opened Wrappers
  import opened JavaStrings
  import opened JavaFiles
  import opened GeoServerCatalog
  import opened GeogigRepositoryInfo
  import opened GeogigConfigStore
  import opened GeogigRepositoryManager

  /** The class name stored as the resolver of an upgraded store. */
  const ResolverClass := "org.geogig.geoserver.config.GeoServerStoreRepositoryResolver"

  /** `repo(ds)` succeeds for every GeoGig store: each has a `REPOSITORY` parameter. */
  predicate AllHaveRepository(stores: seq<Store>)
  {
    forall i :: 0 <= i < |stores| && IsGeogigDataStore(stores[i]) ==> RepositoryParam(stores[i]).Some?
  }

  /** Whether store `s` is a GeoGig store grouped under repository `r`. */
  predicate InGroup(s: Store, r: string)
  {
    IsGeogigDataStore(s) && RepositoryParam(s) == Some(r)
  }

  /** The multimap's keys: the distinct repository values of the GeoGig stores. They are listed
   *  first seen first, an order chosen by the model; `keySet()` iterates in hash order. */
  function RepoKeys(stores: seq<Store>): (keys: seq<string>)
    ensures Distinct(keys)
    ensures forall r :: r in keys <==> exists i :: 0 <= i < |stores| && InGroup(stores[i], r)
    decreases |stores|
  {
    if stores == [] then []
    else
      var n := |stores|;
      var prefix := stores[..n - 1];
      var before := RepoKeys(prefix);
      assert forall i :: 0 <= i < n - 1 ==> prefix[i] == stores[i];
      var last := stores[n - 1];
      if IsGeogigDataStore(last) && RepositoryParam(last).Some? && RepositoryParam(last).value !in before
      then before + [RepositoryParam(last).value]
      else before
  }

  /** `getAllByLocation`'s keys, as written: the locations of the saved records. */
  function KnownLocations(files: seq<ConfigFile>, userDir: Path): (r: set<Option<string>>)
    ensures forall k :: k in r <==> exists j :: (0 <= j < |files| && IsRecordFile(files[j])
      && LocationOf(files[j].content.info, userDir) == k)
  {
    set v | v in Repositories(files) :: LocationOf(v, userDir)
  }

  /** A store as `initialize` leaves it, given the repository values it treats as known. */
  function Upgraded(s: Store, id: string): (r: Store)
    ensures r.params == s.params[Repository := id][ResolverClassName := ResolverClass]
    ensures r.(params := s.params) == s
  {
    s.(params := s.params[Repository := id][ResolverClassName := ResolverClass])
  }

  /** The id given to the record created for repository `r`. */
  function NewId(r: string, uuidFor: string -> nat): string
  {
    UuidText(uuidFor(r))
  }

  /** Whether `initialize` rewires store `s` when the values in `known` already have records. */
  predicate IsUpgraded(s: Store, known: set<Option<string>>)
  {
    IsGeogigDataStore(s) && RepositoryParam(s).Some? && Some(RepositoryParam(s).value) !in known
  }

  function Target(s: Store, known: set<Option<string>>, uuidFor: string -> nat): Store
  {
    if IsUpgraded(s, known) then Upgraded(s, NewId(RepositoryParam(s).value, uuidFor)) else s
  }

  /** The catalog after `initialize`: each store of an unknown repository rewired, the rest untouched. */
  function InitializedStores(stores: seq<Store>, known: set<Option<string>>, uuidFor: string -> nat)
    : (r: seq<Store>)
    ensures |r| == |stores|
    ensures forall i :: 0 <= i < |stores| ==> r[i] == Target(stores[i], known, uuidFor)
  {
    seq(|stores|, i requires 0 <= i < |stores| => Target(stores[i], known, uuidFor))
  }

  /** `create(repoDirectory)`: a record located at the directory, with the id `save` assigns. */
  function CreatedRecord(r: string, uuidFor: string -> nat): (v: InfoValue)
    ensures v.id == Some(NewId(r, uuidFor))
  {
    WithLocation(InfoValue(None, None, None), r).(id := Some(NewId(r, uuidFor)))
  }

  function CreatedFile(r: string, uuidFor: string -> nat): ConfigFile
  {
    ConfigFile(FileName(NewId(r, uuidFor)), Stored(CreatedRecord(r, uuidFor)))
  }

  /** The configuration files after saving a record for each unknown key, in the order of `keys`. */
  function SaveAll(files: seq<ConfigFile>, keys: seq<string>, known: set<Option<string>>,
                   uuidFor: string -> nat): (r: seq<ConfigFile>)
    decreases |keys|
  {
    if keys == [] then files
    else
      var n := |keys|;
      var before := SaveAll(files, keys[..n - 1], known, uuidFor);
      if Some(keys[n - 1]) in known then before
      else
        var created := CreatedFile(keys[n - 1], uuidFor);
        Put(before, created.name, created.content)
  }

  // ---------------------------------------------------------------------------------------
  // The loops of initialize

  /** `getAllByLocation`: the records by location; only the keys are consulted. */
  method AllByLocation(records: seq<InfoValue>, userDir: Path) returns (byLocation: map<Option<string>, InfoValue>)
    ensures forall k :: k in byLocation <==> exists v :: v in records && LocationOf(v, userDir) == k
  {
    byLocation := map[];
    var i := 0;
    while i < |records|
      invariant 0 <= i <= |records|
      invariant forall k :: k in byLocation <==> exists j :: 0 <= j < i && LocationOf(records[j], userDir) == k
    {
      byLocation := byLocation[LocationOf(records[i], userDir) := records[i]];
      i := i + 1;
    }
    forall k | exists v :: v in records && LocationOf(v, userDir) == k
      ensures k in byLocation
    {
      var v :| v in records && LocationOf(v, userDir) == k;
      var j := IndexOf(records, v);
    }
  }

  /** Every position listed under `r` is a GeoGig store of `r` before position `n`. */
  predicate GroupsSound(stores: seq<Store>, groups: map<string, seq<nat>>, n: int)
  {
    forall r :: r in groups ==>
      forall p :: 0 <= p < |groups[r]| ==> groups[r][p] < n && groups[r][p] < |stores| && InGroup(stores[groups[r][p]], r)
  }

  /** Every GeoGig store before position `n` is listed under its repository value. */
  predicate GroupsComplete(stores: seq<Store>, groups: map<string, seq<nat>>, n: int)
  {
    forall j :: 0 <= j < n && j < |stores| && IsGeogigDataStore(stores[j]) && RepositoryParam(stores[j]).Some? ==>
      RepositoryParam(stores[j]).value in groups && j in groups[RepositoryParam(stores[j]).value]
  }

  /** Grouping one more GeoGig store under its repository value `r`. */
  lemma GroupsStep(stores: seq<Store>, groups: map<string, seq<nat>>, i: int, r: string)
    requires 0 <= i < |stores| && InGroup(stores[i], r)
    requires GroupsSound(stores, groups, i) && GroupsComplete(stores, groups, i)
    ensures var grown := groups[r := (if r in groups then groups[r] else []) + [i]];
      GroupsSound(stores, grown, i + 1) && GroupsComplete(stores, grown, i + 1)
  {
    var grown := groups[r := (if r in groups then groups[r] else []) + [i]];
    forall q | q in grown
      ensures forall p :: 0 <= p < |grown[q]| ==>
        grown[q][p] < i + 1 && grown[q][p] < |stores| && InGroup(stores[grown[q][p]], q)
    {
      if q != r {
        assert grown[q] == groups[q];
      }
    }
    forall j | 0 <= j < i + 1 && j < |stores| && IsGeogigDataStore(stores[j]) && RepositoryParam(stores[j]).Some?
      ensures RepositoryParam(stores[j]).value in grown && j in grown[RepositoryParam(stores[j]).value]
    {
      if j < i && RepositoryParam(stores[j]).value == r {
        assert j in groups[r];
      }
      if j == i {
        assert grown[r][|grown[r]| - 1] == i;
      }
    }
  }

  /** The repository values seen after one more store. */
  lemma RepoKeysStep(stores: seq<Store>, i: int)
    requires 0 <= i < |stores|
    ensures var before := RepoKeys(stores[..i]);
      RepoKeys(stores[..i + 1]) ==
        if IsGeogigDataStore(stores[i]) && RepositoryParam(stores[i]).Some?
           && RepositoryParam(stores[i]).value !in before
        then before + [RepositoryParam(stores[i]).value] else before
  {
    assert stores[..i + 1][..i] == stores[..i];
    assert stores[..i + 1][i] == stores[i];
  }

  /** Every GeoGig store up to position `i` inclusive has a `REPOSITORY` parameter. */
  lemma AllHaveRepositoryStep(stores: seq<Store>, i: int)
    requires 0 <= i < |stores| && AllHaveRepository(stores[..i])
    requires IsGeogigDataStore(stores[i]) ==> RepositoryParam(stores[i]).Some?
    ensures AllHaveRepository(stores[..i + 1])
  {
    forall j | 0 <= j < i + 1 && IsGeogigDataStore(stores[j])
      ensures RepositoryParam(stores[j]).Some?
    {
      if j < i {
        assert stores[..i][j] == stores[j];
      }
    }
    assert forall j :: 0 <= j < i + 1 ==> stores[..i + 1][j] == stores[j];
  }

  /** The state of `storeByRepository`'s loop after the first `i` stores. */
  ghost predicate Grouped(stores: seq<Store>, i: int, keys: seq<string>, groups: map<string, seq<nat>>)
  {
    0 <= i <= |stores| && AllHaveRepository(stores[..i]) && keys == RepoKeys(stores[..i])
    && (forall r :: r in groups <==> r in keys)
    && GroupsSound(stores, groups, i) && GroupsComplete(stores, groups, i)
  }

  /** A store that is no GeoGig store leaves the grouping as it is. */
  lemma GroupedSkip(stores: seq<Store>, i: int, keys: seq<string>, groups: map<string, seq<nat>>)
    requires Grouped(stores, i, keys, groups) && i < |stores| && !IsGeogigDataStore(stores[i])
    ensures Grouped(stores, i + 1, keys, groups)
  {
    RepoKeysStep(stores, i);
    AllHaveRepositoryStep(stores, i);
  }

  /** A GeoGig store of repository `r` joins the group of `r`, which is new when `r` is. */
  lemma GroupedAdd(stores: seq<Store>, i: int, keys: seq<string>, groups: map<string, seq<nat>>, r: string,
                   keys': seq<string>, groups': map<string, seq<nat>>)
    requires Grouped(stores, i, keys, groups) && i < |stores| && InGroup(stores[i], r)
    requires keys' == if r in groups then keys else keys + [r]
    requires groups' == groups[r := (if r in groups then groups[r] else []) + [i]]
    ensures Grouped(stores, i + 1, keys', groups')
  {
    RepoKeysStep(stores, i);
    AllHaveRepositoryStep(stores, i);
    GroupsStep(stores, groups, i, r);
  }

  /**
   * `storeByRepository`: the GeoGig stores grouped by repository value, as positions in the
   * catalog; the first GeoGig store without a `REPOSITORY` parameter stops it.
   */
  method StoreByRepository(stores: seq<Store>)
    returns (missing: Option<Store>, keys: seq<string>, groups: map<string, seq<nat>>)
    ensures missing.None? <==> AllHaveRepository(stores)
    ensures missing.Some? ==>
      missing.value in stores && IsGeogigDataStore(missing.value) && RepositoryParam(missing.value).None?
    // the store reported is the first one without the parameter
    ensures missing.Some? ==>
      exists k :: 0 <= k < |stores| && stores[k] == missing.value && AllHaveRepository(stores[..k])
    ensures missing.None? ==> Grouped(stores, |stores|, keys, groups)
  {
    keys := [];
    groups := map[];
    var i: nat := 0;
    assert stores[..0] == [];
    while i < |stores|
      invariant Grouped(stores, i, keys, groups)
    {
      var ds := stores[i];
      if IsGeogigDataStore(ds) {
        match RepositoryParam(ds)
        case None =>
          assert !AllHaveRepository(stores) by {
            assert IsGeogigDataStore(stores[i]) && RepositoryParam(stores[i]).None?;
          }
          assert stores[i] == ds && AllHaveRepository(stores[..i]);
          return Some(ds), [], map[];
        case Some(r) =>
          ghost var keys0, groups0 := keys, groups;
          var group: seq<nat> := if r in groups then groups[r] else [];
          if r !in groups {
            keys := keys + [r];
          }
          groups := groups[r := group + [i]];
          GroupedAdd(stores, i, keys0, groups0, r, keys, groups);
      } else {
        GroupedSkip(stores, i, keys, groups);
      }
      i := i + 1;
    }
    assert stores[..i] == stores;
    return None, keys, groups;
  }

  /** Upgrading twice with the same id is upgrading once. */
  lemma UpgradedIsIdempotent(s: Store, id: string)
    ensures Upgraded(Upgraded(s, id), id) == Upgraded(s, id)
  {
    assert Upgraded(Upgraded(s, id), id).params == Upgraded(s, id).params;
  }

  /** Every position of `group` is below `n`. */
  predicate InBounds(group: seq<nat>, n: int)
  {
    forall p :: 0 <= p < |group| ==> group[p] < n
  }

  /** `after` is `before` with the stores at the positions of `group` upgraded to `id`. */
  predicate Rewired(before: seq<Store>, after: seq<Store>, group: seq<nat>, id: string)
  {
    |after| == |before|
    && forall i :: 0 <= i < |after| ==> after[i] == if i in group then Upgraded(before[i], id) else before[i]
  }

  /** The inner loop of `initialize`: each store of the group gets the new id and the resolver. */
  method RewireGroup(catalog: Catalog, group: seq<nat>, id: string)
    requires InBounds(group, |catalog.stores|)
    modifies catalog`stores
    ensures Rewired(old(catalog.stores), catalog.stores, group, id)
  {
    ghost var before := catalog.stores;
    var m := 0;
    while m < |group|
      invariant 0 <= m <= |group|
      invariant |catalog.stores| == |before|
      invariant forall i :: 0 <= i < |before| ==>
        catalog.stores[i] == if i in group[..m] then Upgraded(before[i], id) else before[i]
    {
      var at := group[m];
      UpgradedIsIdempotent(before[at], id);
      catalog.SaveStore(at, Upgraded(catalog.stores[at], id));
      assert group[..m + 1] == group[..m] + [at];
      m := m + 1;
    }
    assert group[..m] == group;
  }

  datatype Outcome = Initialized | MissingRepository(store: Store)

  /** The stores after the first `j` keys have been handled. */
  function Partly(orig: seq<Store>, keys: seq<string>, known: set<Option<string>>, uuidFor: string -> nat)
    : (r: seq<Store>)
    ensures |r| == |orig|
  {
    seq(|orig|, i requires 0 <= i < |orig| =>
      if IsGeogigDataStore(orig[i]) && RepositoryParam(orig[i]).Some? && RepositoryParam(orig[i]).value in keys
      then Target(orig[i], known, uuidFor) else orig[i])
  }

  /** One key handled: the stores of that key take their final form. */
  lemma PartlyStep(orig: seq<Store>, keys: seq<string>, j: int, groups: map<string, seq<nat>>,
                   known: set<Option<string>>, uuidFor: string -> nat, current: seq<Store>, after: seq<Store>)
    requires KeyGroups(orig, keys, groups) && 0 <= j < |keys|
    requires current == Partly(orig, keys[..j], known, uuidFor)
    requires |after| == |orig|
    requires Some(keys[j]) in known ==> after == current
    requires Some(keys[j]) !in known ==> Rewired(current, after, groups[keys[j]], NewId(keys[j], uuidFor))
    ensures after == Partly(orig, keys[..j + 1], known, uuidFor)
  {
    var key := keys[j];
    assert keys[..j + 1] == keys[..j] + [key];
    assert key !in keys[..j] by {
      assert forall m :: 0 <= m < j ==> keys[..j][m] == keys[m];
    }
    var next := Partly(orig, keys[..j + 1], known, uuidFor);
    forall i | 0 <= i < |orig|
      ensures after[i] == next[i]
    {
      if InGroup(orig[i], key) {
        assert i in groups[key];
      }
    }
  }

  /** Once every key is handled, every GeoGig store has its final form. */
  lemma PartlyOfAllKeys(orig: seq<Store>, keys: seq<string>, groups: map<string, seq<nat>>,
                        known: set<Option<string>>, uuidFor: string -> nat)
    requires Grouped(orig, |orig|, keys, groups)
    ensures Partly(orig, keys, known, uuidFor) == InitializedStores(orig, known, uuidFor)
  {
    assert orig[..|orig|] == orig;
    forall i | 0 <= i < |orig| && IsGeogigDataStore(orig[i])
      ensures RepositoryParam(orig[i]).value in keys
    {
      assert InGroup(orig[i], RepositoryParam(orig[i]).value);
    }
  }

  /** `SaveAll` over one more key. */
  lemma SaveAllStep(files: seq<ConfigFile>, keys: seq<string>, j: int, known: set<Option<string>>,
                    uuidFor: string -> nat)
    requires 0 <= j < |keys|
    ensures SaveAll(files, keys[..j + 1], known, uuidFor) ==
      if Some(keys[j]) in known then SaveAll(files, keys[..j], known, uuidFor)
      else Put(SaveAll(files, keys[..j], known, uuidFor), FileName(NewId(keys[j], uuidFor)),
               Stored(CreatedRecord(keys[j], uuidFor)))
  {
    assert keys[..j + 1][..j] == keys[..j];
  }

  /** What `initialize`'s loop needs of the grouping: distinct keys, each listing exactly its stores. */
  ghost predicate KeyGroups(stores: seq<Store>, keys: seq<string>, groups: map<string, seq<nat>>)
  {
    Distinct(keys)
    && (forall j :: 0 <= j < |keys| ==> keys[j] in groups)
    && (forall r :: r in groups ==> InBounds(groups[r], |stores|))
    && (forall r, i :: r in groups && 0 <= i < |stores| && InGroup(stores[i], r) ==> i in groups[r])
    && (forall r, i :: r in groups && i in groups[r] ==> 0 <= i < |stores| && InGroup(stores[i], r))
  }

  lemma GroupedKeyGroups(stores: seq<Store>, keys: seq<string>, groups: map<string, seq<nat>>)
    requires Grouped(stores, |stores|, keys, groups)
    ensures KeyGroups(stores, keys, groups)
  {
    assert stores[..|stores|] == stores;
    forall r, i | r in groups && i in groups[r]
      ensures 0 <= i < |stores| && InGroup(stores[i], r)
    {
      var p :| 0 <= p < |groups[r]| && groups[r][p] == i;
    }
    forall j | 0 <= j < |keys|
      ensures keys[j] in groups
    {
      assert keys[j] in keys;
    }
  }

  /** `GeoGigInitializer`: the start-up hook, holding the configuration store it saves records to. */
  class GeoGigInitializer {
    const store: ConfigStore

    constructor (store: ConfigStore)
      ensures this.store == store
    {
      this.store := store;
    }

    /** `create(repoDirectory)`: a new record located at the directory, saved under a fresh id. */
    method Create(repoDirectory: string, randomBits: nat) returns (info: RepositoryInfo)
      requires store.Valid()
      modifies store
      ensures store.Valid() && fresh(info)
      ensures info.Value() == WithLocation(InfoValue(None, None, None), repoDirectory).(id := Some(UuidText(randomBits)))
      ensures store.files == Put(old(store.files), FileName(UuidText(randomBits)), Stored(info.Value()))
    {
      info := new RepositoryInfo();
      info.SetLocation(repoDirectory);
      var failure := store.Save(info, randomBits, false);
    }

    /** One pass of `initialize`'s loop: an unknown repository gets a record and its stores the record's id. */
    method UpgradeRepository(catalog: Catalog, key: string, group: seq<nat>,
                             allByLocation: map<Option<string>, InfoValue>, uuidFor: string -> nat)
      requires store.Valid()
      requires InBounds(group, |catalog.stores|)
      modifies catalog`stores, store
      ensures store.Valid()
      ensures Some(key) in allByLocation ==> catalog.stores == old(catalog.stores) && store.files == old(store.files)
      ensures Some(key) !in allByLocation ==>
        store.files == Put(old(store.files), FileName(NewId(key, uuidFor)), Stored(CreatedRecord(key, uuidFor)))
        && Rewired(old(catalog.stores), catalog.stores, group, NewId(key, uuidFor))
    {
      if Some(key) !in allByLocation {
        var info := Create(key, uuidFor(key));
        RewireGroup(catalog, group, info.id.value);
      }
    }

    /** `initialize`'s loop over the repository values, taken in the order of `keys`: any
     *  duplicate-free listing of the groups' values. */
    method UpgradeAll(catalog: Catalog, keys: seq<string>, groups: map<string, seq<nat>>,
                      allByLocation: map<Option<string>, InfoValue>, ghost orig: seq<Store>,
                      ghost known: set<Option<string>>, uuidFor: string -> nat)
      requires store.Valid() && catalog.stores == orig
      requires KeyGroups(orig, keys, groups)
      requires forall k :: k in allByLocation <==> k in known
      modifies catalog`stores, store
      ensures store.Valid()
      ensures catalog.stores == Partly(orig, keys, known, uuidFor)
      ensures store.files == SaveAll(old(store.files), keys, known, uuidFor)
    {
      ghost var files0 := store.files;
      assert keys[..0] == [];
      assert forall i :: 0 <= i < |orig| ==> Partly(orig, [], known, uuidFor)[i] == orig[i];
      var j := 0;
      while j < |keys|
        invariant 0 <= j <= |keys|
        invariant store.Valid()
        invariant catalog.stores == Partly(orig, keys[..j], known, uuidFor)
        invariant store.files == SaveAll(files0, keys[..j], known, uuidFor)
      {
        var key := keys[j];
        ghost var current := catalog.stores;
        SaveAllStep(files0, keys, j, known, uuidFor);
        UpgradeRepository(catalog, key, groups[key], allByLocation, uuidFor);
        PartlyStep(orig, keys, j, groups, known, uuidFor, current, catalog.stores);
        j := j + 1;
      }
      assert keys[..j] == keys;
    }

    /**
     * `initialize`: fails with nothing changed when a GeoGig store has no `REPOSITORY` parameter;
     * otherwise saves a record for every repository value that is no saved record's location
     * and rewires that value's stores to the new record. `uuidFor` gives the random bits drawn
     * for each created record.
     */
    method Initialize(catalog: Catalog, userDir: Path, uuidFor: string -> nat) returns (outcome: Outcome)
      requires store.Valid()
      modifies catalog, store
      ensures store.Valid()
      ensures !AllHaveRepository(old(catalog.stores)) ==>
        outcome.MissingRepository? && outcome.store in old(catalog.stores)
        && IsGeogigDataStore(outcome.store) && RepositoryParam(outcome.store).None?
        && catalog.stores == old(catalog.stores) && store.files == old(store.files)
      ensures AllHaveRepository(old(catalog.stores)) ==>
        var known := KnownLocations(old(store.files), userDir);
        outcome.Initialized?
        && catalog.stores == InitializedStores(old(catalog.stores), known, uuidFor)
        && store.files == SaveAll(old(store.files), RepoKeys(old(catalog.stores)), known, uuidFor)
    {
      ghost var orig := catalog.stores;
      ghost var files0 := store.files;
      ghost var known := KnownLocations(files0, userDir);
      var records := store.GetRepositories();
      var allByLocation := AllByLocation(records, userDir);
      var missing, keys, groups := StoreByRepository(catalog.stores);
      if missing.Some? {
        return MissingRepository(missing.value);
      }
      assert keys == RepoKeys(orig) by {
        assert orig[..|orig|] == orig;
      }
      GroupedKeyGroups(orig, keys, groups);
      UpgradeAll(catalog, keys, groups, allByLocation, orig, known, uuidFor);
      PartlyOfAllKeys(orig, keys, groups, known, uuidFor);
      assert known == KnownLocations(old(store.files), userDir);
      return Initialized;
    }
  }

  // ---------------------------------------------------------------------------------------
  // A second start-up

  /** No record location is ever a UUID text: locations are absolute paths. */
  lemma UuidIsNeverAKnownLocation(files: seq<ConfigFile>, userDir: Path, bits: nat)
    ensures Some(UuidText(bits)) !in KnownLocations(files, userDir)
  {
    AssignedIdsAreUuids(bits);
    UuidsAreNotAbsolute(UuidText(bits));
  }

  /** A UUID text is a single relative name. */
  lemma UuidIsABareName(bits: nat)
    ensures !FileOf(UuidText(bits)).absolute && FileOf(UuidText(bits)).names == [UuidText(bits)]
  {
    var s := UuidText(bits);
    AssignedIdsAreUuids(bits);
    UuidsAreNotAbsolute(s);
    assert '/' !in s by {
      forall k | 0 <= k < |s|
        ensures s[k] != '/'
      {
        assert IsDashPosition(k) || IsHexDigit(s[k]);
      }
    }
    SplitAllNoDelimiter(s, '/');
    assert NonEmpty([s]) == [s];
  }

  /**
   * A store upgraded at one start-up is upgraded again at the next, whatever records have been
   * saved by then: its `REPOSITORY` now holds an id, which `initialize` compares with record
   * locations only. The record created for it the second time has no location.
   */
  lemma UpgradedStoresAreUpgradedAgain(stores: seq<Store>, files: seq<ConfigFile>, later: seq<ConfigFile>,
                                       userDir: Path, uuidFor: string -> nat, laterUuidFor: string -> nat, i: int)
    requires 0 <= i < |stores| && IsUpgraded(stores[i], KnownLocations(files, userDir))
    ensures var once := InitializedStores(stores, KnownLocations(files, userDir), uuidFor);
      var id := NewId(RepositoryParam(stores[i]).value, uuidFor);
      once[i] == Upgraded(stores[i], id)
      && InitializedStores(once, KnownLocations(later, userDir), laterUuidFor)[i]
         == Upgraded(once[i], NewId(id, laterUuidFor))
      && LocationOf(CreatedRecord(id, laterUuidFor), userDir).None?
  {
    var once := InitializedStores(stores, KnownLocations(files, userDir), uuidFor);
    var id := NewId(RepositoryParam(stores[i]).value, uuidFor);
    assert RepositoryParam(once[i]) == Some(id);
    UuidIsNeverAKnownLocation(later, userDir, uuidFor(RepositoryParam(stores[i]).value));
    UuidIsABareName(uuidFor(RepositoryParam(stores[i]).value));
  }

  // ---------------------------------------------------------------------------------------
  // The evidently intended test: a value that is a saved record's location or id is known

  function KnownLocationsOrIds(files: seq<ConfigFile>, userDir: Path): set<Option<string>>
  {
    KnownLocations(files, userDir) + set v | v in Repositories(files) :: v.id
  }

  /** The created records' file names are not taken, and no two created records share an id. */
  predicate FreshIds(files: seq<ConfigFile>, keys: seq<string>, known: set<Option<string>>, uuidFor: string -> nat)
  {
    (forall j, k :: 0 <= j < |keys| && Some(keys[j]) !in known && 0 <= k < |files| ==>
       files[k].name != FileName(NewId(keys[j], uuidFor)))
    && (forall j1, j2 :: 0 <= j1 < j2 < |keys| && Some(keys[j1]) !in known && Some(keys[j2]) !in known ==>
          NewId(keys[j1], uuidFor) != NewId(keys[j2], uuidFor))
  }

  /** The files created for the unknown keys, in the order of `keys`. */
  function CreatedFiles(keys: seq<string>, known: set<Option<string>>, uuidFor: string -> nat)
    : (r: seq<ConfigFile>)
    ensures forall f :: f in r ==> exists j :: 0 <= j < |keys| && Some(keys[j]) !in known && f == CreatedFile(keys[j], uuidFor)
    decreases |keys|
  {
    if keys == [] then []
    else
      var n := |keys|;
      var before := CreatedFiles(keys[..n - 1], known, uuidFor);
      assert forall j :: 0 <= j < n - 1 ==> keys[..n - 1][j] == keys[j];
      if Some(keys[n - 1]) in known then before else before + [CreatedFile(keys[n - 1], uuidFor)]
  }

  /** The file of every unknown key is among the created files. */
  lemma {:induction false} CreatedFilesHoldEveryUnknownKey(keys: seq<string>, known: set<Option<string>>,
                                                           uuidFor: string -> nat, j: int)
    requires 0 <= j < |keys| && Some(keys[j]) !in known
    ensures CreatedFile(keys[j], uuidFor) in CreatedFiles(keys, known, uuidFor)
    decreases |keys|
  {
    var n := |keys|;
    var before := CreatedFiles(keys[..n - 1], known, uuidFor);
    var last := CreatedFile(keys[n - 1], uuidFor);
    if Some(keys[n - 1]) in known {
      assert CreatedFiles(keys, known, uuidFor) == before;
    } else {
      assert CreatedFiles(keys, known, uuidFor) == before + [last];
    }
    assert forall f :: f in before ==> f in CreatedFiles(keys, known, uuidFor);
    if j < n - 1 {
      assert keys[..n - 1][j] == keys[j];
      CreatedFilesHoldEveryUnknownKey(keys[..n - 1], known, uuidFor, j);
      assert CreatedFile(keys[j], uuidFor) in before;
    } else {
      assert j == n - 1;
    }
  }

  /** Freshness of all the keys gives freshness of a prefix of them. */
  lemma FreshIdsOfPrefix(files: seq<ConfigFile>, keys: seq<string>, known: set<Option<string>>,
                         uuidFor: string -> nat, n: int)
    requires 0 <= n <= |keys|
    requires FreshIds(files, keys, known, uuidFor)
    ensures FreshIds(files, keys[..n], known, uuidFor)
  {
    assert forall j :: 0 <= j < n ==> keys[..n][j] == keys[j];
  }

  /** The last key's new file name differs from every name listed before it is saved. */
  lemma LastNameIsNew(files: seq<ConfigFile>, keys: seq<string>, known: set<Option<string>>, uuidFor: string -> nat)
    requires keys != [] && Some(keys[|keys| - 1]) !in known
    requires FreshIds(files, keys, known, uuidFor)
    ensures var before := files + CreatedFiles(keys[..|keys| - 1], known, uuidFor);
      forall p :: 0 <= p < |before| ==> before[p].name != CreatedFile(keys[|keys| - 1], uuidFor).name
  {
    var n := |keys|;
    var prefix := keys[..n - 1];
    var k := keys[n - 1];
    var created := CreatedFiles(prefix, known, uuidFor);
    var before := files + created;
    var name := CreatedFile(k, uuidFor).name;
    forall p | 0 <= p < |before|
      ensures before[p].name != name
    {
      if p >= |files| {
        var g := created[p - |files|];
        assert g in created;
        var j :| 0 <= j < |prefix| && Some(prefix[j]) !in known && g == CreatedFile(prefix[j], uuidFor);
        assert prefix[j] == keys[j];
        FileNameIsInjective(NewId(keys[j], uuidFor), NewId(k, uuidFor));
      } else {
        assert before[p] == files[p];
      }
    }
  }

  /** Saving one more key keeps the created files appended, given that the shorter run did. */
  lemma SaveAllAppendsStep(files: seq<ConfigFile>, keys: seq<string>, known: set<Option<string>>,
                           uuidFor: string -> nat)
    requires keys != [] && FreshIds(files, keys, known, uuidFor)
    requires SaveAll(files, keys[..|keys| - 1], known, uuidFor) == files + CreatedFiles(keys[..|keys| - 1], known, uuidFor)
    ensures SaveAll(files, keys, known, uuidFor) == files + CreatedFiles(keys, known, uuidFor)
  {
    var n := |keys|;
    var k := keys[n - 1];
    var created := CreatedFiles(keys[..n - 1], known, uuidFor);
    if Some(k) !in known {
      var f := CreatedFile(k, uuidFor);
      LastNameIsNew(files, keys, known, uuidFor);
      PutNewNameAppends(files + created, f.name, f.content);
      assert (files + created) + [f] == files + (created + [f]);
    }
  }

  /** With fresh ids every created record's file is added after the existing ones. */
  lemma {:induction false} SaveAllAppends(files: seq<ConfigFile>, keys: seq<string>, known: set<Option<string>>,
                                          uuidFor: string -> nat)
    requires FreshIds(files, keys, known, uuidFor)
    ensures SaveAll(files, keys, known, uuidFor) == files + CreatedFiles(keys, known, uuidFor)
    decreases |keys|
  {
    if keys != [] {
      FreshIdsOfPrefix(files, keys, known, uuidFor, |keys| - 1);
      SaveAllAppends(files, keys[..|keys| - 1], known, uuidFor);
      SaveAllAppendsStep(files, keys, known, uuidFor);
    }
  }

  /** When every key is known nothing is saved. */
  lemma {:induction false} SaveAllOfKnownKeys(files: seq<ConfigFile>, keys: seq<string>, known: set<Option<string>>,
                                              uuidFor: string -> nat)
    requires forall j :: 0 <= j < |keys| ==> Some(keys[j]) in known
    ensures SaveAll(files, keys, known, uuidFor) == files
    decreases |keys|
  {
    if keys != [] {
      var n := |keys|;
      assert forall j :: 0 <= j < n - 1 ==> keys[..n - 1][j] == keys[j];
      SaveAllOfKnownKeys(files, keys[..n - 1], known, uuidFor);
    }
  }

  /** Every record read before is still read after appending, and so is every created record. */
  lemma CreatedRecordsAreKnown(files: seq<ConfigFile>, keys: seq<string>, known: set<Option<string>>,
                               uuidFor: string -> nat, userDir: Path)
    ensures var after := files + CreatedFiles(keys, known, uuidFor);
      KnownLocationsOrIds(files, userDir) <= KnownLocationsOrIds(after, userDir)
      && (forall j :: 0 <= j < |keys| && Some(keys[j]) !in known ==>
            Some(NewId(keys[j], uuidFor)) in KnownLocationsOrIds(after, userDir))
  {
    var created := CreatedFiles(keys, known, uuidFor);
    var after := files + created;
    RepositoriesConcat(files, created);
    assert forall v :: v in Repositories(files) ==> v in Repositories(after);
    forall j | 0 <= j < |keys| && Some(keys[j]) !in known
      ensures Some(NewId(keys[j], uuidFor)) in KnownLocationsOrIds(after, userDir)
    {
      var f := CreatedFile(keys[j], uuidFor);
      CreatedFilesHoldEveryUnknownKey(keys, known, uuidFor, j);
      var p := IndexOf(created, f);
      assert IsRecordFile(created[p]);
      assert CreatedRecord(keys[j], uuidFor) in Repositories(created);
    }
  }

  /** When every GeoGig store's repository value is known, a start-up changes nothing. */
  lemma NothingUnknownChangesNothing(stores: seq<Store>, files: seq<ConfigFile>, known: set<Option<string>>,
                                     uuidFor: string -> nat)
    requires forall i :: 0 <= i < |stores| && IsGeogigDataStore(stores[i]) ==>
      RepositoryParam(stores[i]).Some? && Some(RepositoryParam(stores[i]).value) in known
    ensures InitializedStores(stores, known, uuidFor) == stores
    ensures SaveAll(files, RepoKeys(stores), known, uuidFor) == files
  {
    var keys := RepoKeys(stores);
    forall j | 0 <= j < |keys|
      ensures Some(keys[j]) in known
    {
      assert keys[j] in keys;
      var i :| 0 <= i < |stores| && InGroup(stores[i], keys[j]);
    }
    SaveAllOfKnownKeys(files, keys, known, uuidFor);
  }

  /** After a run with the intended test, every GeoGig store's repository value is known. */
  lemma CorrectedRunLeavesEveryValueKnown(stores: seq<Store>, files: seq<ConfigFile>, userDir: Path,
                                          uuidFor: string -> nat)
    requires AllHaveRepository(stores)
    requires FreshIds(files, RepoKeys(stores), KnownLocationsOrIds(files, userDir), uuidFor)
    ensures var known := KnownLocationsOrIds(files, userDir);
      var once := InitializedStores(stores, known, uuidFor);
      var later := KnownLocationsOrIds(SaveAll(files, RepoKeys(stores), known, uuidFor), userDir);
      forall i :: 0 <= i < |once| && IsGeogigDataStore(once[i]) ==>
        RepositoryParam(once[i]).Some? && Some(RepositoryParam(once[i]).value) in later
  {
    var known := KnownLocationsOrIds(files, userDir);
    var keys := RepoKeys(stores);
    var once := InitializedStores(stores, known, uuidFor);
    SaveAllAppends(files, keys, known, uuidFor);
    CreatedRecordsAreKnown(files, keys, known, uuidFor, userDir);
    var later := KnownLocationsOrIds(SaveAll(files, keys, known, uuidFor), userDir);
    forall i | 0 <= i < |once| && IsGeogigDataStore(once[i])
      ensures RepositoryParam(once[i]).Some? && Some(RepositoryParam(once[i]).value) in later
    {
      var r := RepositoryParam(stores[i]).value;
      if IsUpgraded(stores[i], known) {
        assert InGroup(stores[i], r);
        var j := IndexOf(keys, r);
        assert RepositoryParam(once[i]) == Some(NewId(keys[j], uuidFor));
      }
    }
  }

  /**
   * With the intended test a second start-up changes nothing: every store keeps its parameters
   * and no record is saved.
   */
  lemma CorrectedInitializeIsIdempotent(stores: seq<Store>, files: seq<ConfigFile>, userDir: Path,
                                        uuidFor: string -> nat, laterUuidFor: string -> nat)
    requires AllHaveRepository(stores)
    requires FreshIds(files, RepoKeys(stores), KnownLocationsOrIds(files, userDir), uuidFor)
    ensures var known := KnownLocationsOrIds(files, userDir);
      var once := InitializedStores(stores, known, uuidFor);
      var saved := SaveAll(files, RepoKeys(stores), known, uuidFor);
      InitializedStores(once, KnownLocationsOrIds(saved, userDir), laterUuidFor) == once
      && SaveAll(saved, RepoKeys(once), KnownLocationsOrIds(saved, userDir), laterUuidFor) == saved
  {
    var known := KnownLocationsOrIds(files, userDir);
    var once := InitializedStores(stores, known, uuidFor);
    var saved := SaveAll(files, RepoKeys(stores), known, uuidFor);
    CorrectedRunLeavesEveryValueKnown(stores, files, userDir, uuidFor);
    NothingUnknownChangesNothing(once, saved, KnownLocationsOrIds(saved, userDir), laterUuidFor);
  }
}
