/**
 * The REST repository provider: resolves the `{repository}` path step of a request, written
 * `<workspace>:<datastore>`, to the GeoGig repository behind that catalog data store.
 */
module CatalogRepositoryProvider {
  import opened Wrappers
  import opened JavaStrings
  import opened GeoServerCatalog

  /**
   * What opening a data store (`getDataStore(null)`) gives: a GeoGig data store holding its
   * repository handle, some other kind of data access, or an `IOException`.
   */
  datatype DataAccess<G> = GeoGigDataStore(geogig: G) | OtherDataAccess | AccessFailed

  /** The outcome of `getGeogig`, with the exceptions it lets escape. */
  datatype Outcome<G> =
    | Found(geogig: G)
    | Absent
    | IllegalArgument(message: string)
    | IndexOutOfBounds
    | RestError(status: int, message: string)

  const NOT_FOUND := 404
  const BAD_REQUEST := 400
  const INTERNAL_ERROR := 500

  /** `findGeogigStores`: the enabled data stores of the GeoGig type, in catalog order. */
  function EnabledGeogigStores(catalog: seq<Store>): (r: seq<Store>)
    ensures forall s :: s in r <==>
      s in catalog && s.isDataStore && s.storeType == GeoGigType && s.enabled
    ensures |r| <= |catalog|
    decreases |catalog|
  {
    if catalog == [] then []
    else
      var rest := EnabledGeogigStores(catalog[1..]);
      assert forall s :: s in catalog <==> s == catalog[0] || s in catalog[1..];
      var s := catalog[0];
      if s.isDataStore && s.storeType == GeoGigType && s.enabled then [s] + rest else rest
  }

  /** One store in front: it is listed first when it qualifies. */
  lemma EnabledGeogigStoresCons(x: Store, rest: seq<Store>)
    ensures EnabledGeogigStores([x] + rest) == (if x.isDataStore && x.storeType == GeoGigType && x.enabled then [x] else []) + EnabledGeogigStores(rest)
  {
    assert ([x] + rest)[0] == x;
    assert ([x] + rest)[1..] == rest;
  }

  /** The listing keeps catalog order: it distributes over concatenation, which with the
   *  one-store case makes it the qualifying stores as a subsequence of the catalog. */
  lemma {:induction false} EnabledGeogigStoresConcat(a: seq<Store>, b: seq<Store>)
    ensures EnabledGeogigStores(a + b) == EnabledGeogigStores(a) + EnabledGeogigStores(b)
    decreases |a|
  {
    if a == [] {
      assert a + b == b;
    } else {
      var x, tail := a[0], a[1..];
      assert a == [x] + tail;
      assert a + b == [x] + (tail + b);
      var head := if x.isDataStore && x.storeType == GeoGigType && x.enabled then [x] else [];
      assert EnabledGeogigStores(a + b) == head + (EnabledGeogigStores(tail) + EnabledGeogigStores(b)) by {
        EnabledGeogigStoresConcat(tail, b);
        EnabledGeogigStoresCons(x, tail + b);
      }
      assert EnabledGeogigStores(a) == head + EnabledGeogigStores(tail) by {
        EnabledGeogigStoresCons(x, tail);
      }
      ListingsRegroup(head, EnabledGeogigStores(tail), EnabledGeogigStores(b));
    }
  }

  /** `getDataStoreByName(workspace, name)`: the data store with that workspace and name. */
  function DataStoreByName(catalog: seq<Store>, workspace: string, name: string): (r: Option<Store>)
    ensures r.Some? ==>
      (r.value in catalog && r.value.isDataStore
       && r.value.workspace.name == workspace && r.value.name == name)
    ensures r.None? ==> forall s :: s in catalog && s.isDataStore ==>
      s.workspace.name != workspace || s.name != name
    decreases |catalog|
  {
    if catalog == [] then None
    else
      var s := catalog[0];
      if s.isDataStore && s.workspace.name == workspace && s.name == name then Some(s)
      else
        assert forall t :: t in catalog ==> t == s || t in catalog[1..];
        DataStoreByName(catalog[1..], workspace, name)
  }

  /** `getRepositoryName`: the `repository` attribute, which must contain a ':' when present. */
  function RepositoryName<G>(attribute: Option<string>): (r: Option<Outcome<G>>)
    ensures attribute.None? ==> r == Some(Absent)
    ensures attribute.Some? && ':' !in attribute.value ==> r.Some? && r.value.IllegalArgument?
    ensures attribute.Some? && ':' in attribute.value ==> r.None?
  {
    if attribute.None? then Some(Absent)
    else if ':' !in attribute.value then
      Some(IllegalArgument("Repository name should be of the form <workspace>:<datastore>: "
        + attribute.value))
    else None
  }

  /**
   * `findDataStore`: split the name on ':', look the data store up, and walk the error ladder.
   * `open` is the data store's `getDataStore`; `typeName` renders a store's type.
   */
  function FindDataStore<G>(repositoryName: string, catalog: seq<Store>,
                            open: Store -> DataAccess<G>, typeName: StoreType -> string): (r: Outcome<G>)
    ensures r.IndexOutOfBounds? <==> |Split(repositoryName, ':')| < 2
    ensures !r.Absent? && !r.IllegalArgument?
    ensures r.RestError? ==> r.status == NOT_FOUND || r.status == BAD_REQUEST || r.status == INTERNAL_ERROR
    ensures r.Found? ==> exists info :: (info in catalog && info.isDataStore && info.enabled
      && open(info) == GeoGigDataStore(r.geogig))
  {
    var wsds := Split(repositoryName, ':');
    if |wsds| < 2 then IndexOutOfBounds
    else
      match DataStoreByName(catalog, wsds[0], wsds[1])
      case None => RestError(NOT_FOUND, "No such repository: " + repositoryName)
      case Some(info) =>
        if !info.enabled then RestError(BAD_REQUEST, "Repository is not enabled: " + repositoryName)
        else
          match open(info)
          case AccessFailed => RestError(INTERNAL_ERROR, "Error accessing datastore " + repositoryName)
          case OtherDataAccess =>
            RestError(BAD_REQUEST, repositoryName + " is not a Geogig DataStore: " + typeName(info.storeType))
          case GeoGigDataStore(g) => Found(g)
  }

  /** `getGeogig`: the request's repository, when it names an enabled GeoGig data store. */
  function GetGeogig<G>(attribute: Option<string>, catalog: seq<Store>,
                        open: Store -> DataAccess<G>, typeName: StoreType -> string): (r: Outcome<G>)
    ensures attribute.None? <==> r.Absent?
    ensures r.Found? ==>
      exists info :: (ResolvesTo(attribute, catalog, info)
        && info.enabled && open(info) == GeoGigDataStore(r.geogig))
    ensures forall info ::
      (ResolvesTo(attribute, catalog, info) && info.enabled && open(info).GeoGigDataStore?)
      ==> r == Found(open(info).geogig)
  {
    match RepositoryName<G>(attribute)
    case Some(failure) => failure
    case None =>
      var r := FindDataStore(attribute.value, catalog, open, typeName);
      assert r.Found? ==> ResolvesTo(attribute, catalog, DataStoreByName(catalog,
        Split(attribute.value, ':')[0], Split(attribute.value, ':')[1]).value);
      r
  }

  /** The attribute names a data store as `<workspace>:<datastore>[:...]` and it is `info`. */
  ghost predicate ResolvesTo(attribute: Option<string>, catalog: seq<Store>, info: Store)
  {
    attribute.Some? && ':' in attribute.value
    && var wsds := Split(attribute.value, ':');
    |wsds| >= 2 && DataStoreByName(catalog, wsds[0], wsds[1]) == Some(info)
  }

  /**
   * The error ladder, in the order the checks run: an unknown store is 404, a disabled one 400,
   * a store that cannot be opened 500, and a store that opens to something else 400.
   */
  lemma ErrorLadder<G>(repositoryName: string, catalog: seq<Store>, open: Store -> DataAccess<G>,
                       typeName: StoreType -> string, workspace: string, name: string)
    requires ':' in repositoryName
    requires |Split(repositoryName, ':')| >= 2
    requires Split(repositoryName, ':')[0] == workspace && Split(repositoryName, ':')[1] == name
    ensures var r := GetGeogig(Some(repositoryName), catalog, open, typeName);
      var info := DataStoreByName(catalog, workspace, name);
      (info.None? ==> r == RestError(404, "No such repository: " + repositoryName))
      && (info.Some? && !info.value.enabled ==> r.RestError? && r.status == 400)
      && (info.Some? && info.value.enabled && open(info.value).AccessFailed? ==>
            r.RestError? && r.status == 500)
      && (info.Some? && info.value.enabled && open(info.value).OtherDataAccess? ==>
            r.RestError? && r.status == 400)
  {
  }

  /** "ws:" splits into a single part, so asking for the data store fails on index 1. */
  lemma TrailingColonFailsOnIndex<G>(catalog: seq<Store>, open: Store -> DataAccess<G>,
                                     typeName: StoreType -> string)
    ensures GetGeogig(Some("ws:"), catalog, open, typeName) == IndexOutOfBounds
  {
    assert SplitAll("ws:", ':') == ["ws", ""] by {
      assert "ws:"[1..] == "s:";
      assert "s:"[1..] == ":";
      assert ":"[1..] == "";
      assert SplitAll(":", ':') == ["", ""];
      assert ["", ""][1..] == [""] && ['s'] + "" == "s";
      assert SplitAll("s:", ':') == ["s", ""];
      assert ["s", ""][1..] == [""] && ['w'] + "s" == "ws";
    }
    assert DropTrailingEmpty(["ws", ""]) == ["ws"] by {
      assert ["ws", ""][..1] == ["ws"];
    }
    assert ':' in "ws:" by {
      assert "ws:"[2] == ':';
    }
  }

  /** A found repository comes from an enabled store named by the attribute. */
  lemma FoundStoreIsEnabled<G>(attribute: Option<string>, catalog: seq<Store>,
                               open: Store -> DataAccess<G>, typeName: StoreType -> string)
    requires GetGeogig(attribute, catalog, open, typeName).Found?
    ensures attribute.Some? && ':' in attribute.value
    ensures exists info ::
      (info in catalog && info.isDataStore && info.enabled && ResolvesTo(attribute, catalog, info))
  {
    var wsds := Split(attribute.value, ':');
    var info := DataStoreByName(catalog, wsds[0], wsds[1]).value;
    assert ResolvesTo(attribute, catalog, info);
  }
}
