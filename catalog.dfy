/**
 * The slice of the GeoServer catalog that the GeoGig/GeoGit extensions read and write:
 * workspaces, stores with their connection parameters, layers with their authority
 * identifiers, and the WMS service's authority URLs.
 */
module GeoServerCatalog {
  /**
   * Connection-parameter keys. The first four are the keys the GeoGig (or GeoGit) data store
   * factory declares (`BRANCH`, `HEAD`, `REPOSITORY`, `RESOLVER_CLASS_NAME`); their literal text
   * lives in that factory, which is not part of this model.
   */
  datatype ParamKey = Branch | Head | Repository | ResolverClassName | Named(name: string)

  /** A store's connection parameters; every value is kept as its string form. */
  type Params = map<ParamKey, string>

  /**
   * The `type` of a store, i.e. the display name of the factory that made it. The GeoGig and
   * GeoGit factories' display names are kept symbolic.
   */
  datatype StoreType = GeoGigType | GeoGitType | OtherType(name: string)

  datatype Workspace = Workspace(id: string, name: string)

  /** A `StoreInfo`; `isDataStore` tells a `DataStoreInfo` from a coverage or WMS store. */
  datatype Store = Store(id: string, name: string, workspace: Workspace, isDataStore: bool,
                         storeType: StoreType, params: Params, enabled: bool)

  /** A `LayerIdentifierInfo`: an authority name and the identifier it assigns. */
  datatype LayerIdentifier = LayerIdentifier(authority: string, identifier: string)

  /** An `AuthorityURLInfo` of the WMS root layer. */
  datatype AuthorityUrl = AuthorityUrl(name: string, href: string)

  /** A catalog object that a modify event can carry. */
  datatype CatalogInfo = WorkspaceInfo(ws: Workspace) | StoreInfo(store: Store) | OtherInfo(otherId: string)
  {
    function Id(): string
    {
      match this
      case WorkspaceInfo(ws) => ws.id
      case StoreInfo(s) => s.id
      case OtherInfo(id) => id
    }
  }

  /**
   * A `LayerInfo`. The resource's store and native name are fixed for the layer; the identifier
   * list is edited in place, and `saves` counts the `catalog.save(layer)` calls made on it.
   */
  class Layer {
    const store: Store
    const nativeName: string
    var identifiers: seq<LayerIdentifier>
    var saves: nat

    constructor (store: Store, nativeName: string, identifiers: seq<LayerIdentifier>)
      ensures this.store == store && this.nativeName == nativeName
      ensures this.identifiers == identifiers && saves == 0
    {
      this.store := store;
      this.nativeName := nativeName;
      this.identifiers := identifiers;
      saves := 0;
    }
  }

  /** The `WMSInfo` service settings; `saves` counts `geoserver.save(serviceInfo)` calls. */
  class WmsInfo {
    var authorityUrls: seq<AuthorityUrl>
    var saves: nat

    constructor (authorityUrls: seq<AuthorityUrl>)
      ensures this.authorityUrls == authorityUrls && saves == 0
    {
      this.authorityUrls := authorityUrls;
      saves := 0;
    }
  }

  /** No object occurs twice: what a catalog query hands back. */
  predicate Distinct<T(==)>(s: seq<T>)
  {
    forall i, j :: 0 <= i < j < |s| ==> s[i] != s[j]
  }

  /** The catalog's stores in listing order; `save(store)` writes one back in place. */
  class Catalog {
    var stores: seq<Store>

    constructor (stores: seq<Store>)
      ensures this.stores == stores
    {
      this.stores := stores;
    }

    method SaveStore(i: nat, s: Store)
      requires i < |stores|
      modifies this`stores
      ensures stores == old(stores)[i := s]
    {
      stores := stores[i := s];
    }
  }

  /** Store listings regroup freely: concatenation is associative. */
  lemma ListingsRegroup(a: seq<Store>, b: seq<Store>, c: seq<Store>)
    ensures a + (b + c) == (a + b) + c
  {
  }
}
