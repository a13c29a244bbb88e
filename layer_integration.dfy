/**
 * The catalog listener that gives every GeoGig (or GeoGit) layer an authority identifier
 * "workspace:store:nativeName[:ref]" and makes sure the WMS root layer carries the matching
 * authority URL. The geogig and geogit copies of the listener differ only in the constants
 * of `Flavor`.
 */
module LayerIntegration {
  import opened Wrappers
  import opened JavaStrings
  import opened GeoServerCatalog

  /** The authority name and URL the listener installs, and the store type it reacts to. */
  datatype Flavor = Flavor(authorityName: string, authorityHref: string, storeType: StoreType)

  const GeoGig := Flavor("GEOGIG_ENTRY_POINT", "http://geogig.org", GeoGigType)
  const GeoGit := Flavor("GEOGIT_ENTRY_POINT", "http://geogit.org", GeoGitType)

  /** `isGeogigStore`: a data store whose type is the flavour's display name. */
  predicate IsGeogigStore(f: Flavor, s: Store)
  {
    s.isDataStore && s.storeType == f.storeType
  }

  // ---------------------------------------------------------------------------------------
  // Identifier text

  /** The ref the identifier names: the BRANCH parameter, else HEAD, else none. */
  function RefSpec(params: Params): (r: Option<string>)
    ensures Branch in params ==> r == Some(params[Branch])
    ensures Branch !in params && Head in params ==> r == Some(params[Head])
    ensures r.None? <==> Branch !in params && Head !in params
  {
    if Branch in params then Some(params[Branch])
    else if Head in params then Some(params[Head])
    else None
  }

  /** The pieces of the identifier, in order. */
  function IdentifierParts(store: Store, nativeName: string): (parts: seq<string>)
    ensures |parts| == 3 || |parts| == 4
    ensures parts[..3] == [store.workspace.name, store.name, nativeName]
    ensures |parts| == 4 <==> RefSpec(store.params).Some?
    ensures |parts| == 4 ==> parts[3] == RefSpec(store.params).value
  {
    var base := [store.workspace.name, store.name, nativeName];
    match RefSpec(store.params)
    case None => base
    case Some(ref) => base + [ref]
  }

  /** `buildLayerIdentifier`: the parts joined with ':'. */
  function BuildLayerIdentifier(store: Store, nativeName: string): (r: string)
    ensures var prefix := store.workspace.name + ":" + store.name + ":" + nativeName;
      (RefSpec(store.params).None? ==> r == prefix)
      && (RefSpec(store.params).Some? ==> r == prefix + ":" + RefSpec(store.params).value)
  {
    var parts := IdentifierParts(store, nativeName);
    assert Join(parts[2..], ':') == if |parts| == 3 then parts[2] else parts[2] + ":" + parts[3];
    assert Join(parts, ':') == parts[0] + ":" + (parts[1] + ":" + Join(parts[2..], ':'));
    Join(parts, ':')
  }

  /**
   * When no name and no ref contains ':', the identifier splits back into exactly
   * workspace, store, native name and (when configured) the ref.
   */
  lemma IdentifierSplitsBack(store: Store, nativeName: string)
    requires ':' !in store.workspace.name && ':' !in store.name && ':' !in nativeName
    requires Branch in store.params ==> ':' !in store.params[Branch]
    requires Head in store.params ==> ':' !in store.params[Head]
    ensures SplitAll(BuildLayerIdentifier(store, nativeName), ':')
            == IdentifierParts(store, nativeName)
  {
    var parts := IdentifierParts(store, nativeName);
    assert parts[0] == store.workspace.name && parts[1] == store.name && parts[2] == nativeName;
    SplitAllJoin(parts, ':');
  }

  /** Different stores or layers never share an identifier while names are ':'-free. */
  lemma IdentifierIsInjective(s1: Store, n1: string, s2: Store, n2: string)
    requires ':' !in s1.workspace.name && ':' !in s1.name && ':' !in n1
    requires Branch in s1.params ==> ':' !in s1.params[Branch]
    requires Head in s1.params ==> ':' !in s1.params[Head]
    requires ':' !in s2.workspace.name && ':' !in s2.name && ':' !in n2
    requires Branch in s2.params ==> ':' !in s2.params[Branch]
    requires Head in s2.params ==> ':' !in s2.params[Head]
    requires BuildLayerIdentifier(s1, n1) == BuildLayerIdentifier(s2, n2)
    ensures IdentifierParts(s1, n1) == IdentifierParts(s2, n2)
    ensures s1.workspace.name == s2.workspace.name && s1.name == s2.name && n1 == n2
    ensures RefSpec(s1.params) == RefSpec(s2.params)
  {
    IdentifierSplitsBack(s1, n1);
    IdentifierSplitsBack(s2, n2);
    var p1 := IdentifierParts(s1, n1);
    var p2 := IdentifierParts(s2, n2);
    assert p1[..3] == p2[..3];
    assert p1[0] == p2[0] && p1[1] == p2[1] && p1[2] == p2[2];
  }

  // ---------------------------------------------------------------------------------------
  // Replace-or-append of the flavour's identifier

  /** The index of the first identifier issued by `authority`, if any. */
  function FirstWithAuthority(ids: seq<LayerIdentifier>, authority: string): (r: Option<nat>)
    ensures r.Some? ==> r.value < |ids| && ids[r.value].authority == authority
    ensures r.Some? ==> forall j :: 0 <= j < r.value ==> ids[j].authority != authority
    ensures r.None? <==> forall j :: 0 <= j < |ids| ==> ids[j].authority != authority
    decreases |ids|
  {
    if ids == [] then None
    else if ids[0].authority == authority then Some(0)
    else match FirstWithAuthority(ids[1..], authority)
      case None => None
      case Some(k) => Some(k + 1)
  }

  /** The list already holds `value` as its first identifier from `authority`. */
  predicate IsCurrent(ids: seq<LayerIdentifier>, authority: string, value: string)
  {
    var k := FirstWithAuthority(ids, authority);
    k.Some? && ids[k.value].identifier == value
  }

  /**
   * `updateIdentifier` on values: unchanged when already current; otherwise the first entry
   * of the authority (if any) is dropped and the new entry appended.
   */
  function Updated(ids: seq<LayerIdentifier>, authority: string, value: string)
    : (r: seq<LayerIdentifier>)
    ensures LayerIdentifier(authority, value) in r
    ensures IsCurrent(ids, authority, value) ==> r == ids
    ensures |ids| <= |r| <= |ids| + 1
    ensures |r| == |ids| + 1 <==> forall j :: 0 <= j < |ids| ==> ids[j].authority != authority
  {
    if IsCurrent(ids, authority, value) then ids
    else
      var kept := match FirstWithAuthority(ids, authority)
        case None => ids
        case Some(k) => ids[..k] + ids[k + 1..];
      kept + [LayerIdentifier(authority, value)]
  }

  /** The entries of every other authority, in order. */
  function OtherAuthorities(ids: seq<LayerIdentifier>, authority: string): (r: seq<LayerIdentifier>)
    ensures forall x :: x in r <==> x in ids && x.authority != authority
    decreases |ids|
  {
    if ids == [] then []
    else if ids[0].authority == authority then OtherAuthorities(ids[1..], authority)
    else [ids[0]] + OtherAuthorities(ids[1..], authority)
  }

  lemma {:induction false} OtherAuthoritiesAppend(a: seq<LayerIdentifier>, b: seq<LayerIdentifier>,
                                                  authority: string)
    ensures OtherAuthorities(a + b, authority)
            == OtherAuthorities(a, authority) + OtherAuthorities(b, authority)
    decreases |a|
  {
    if a == [] {
      assert a + b == b;
    } else {
      assert (a + b)[1..] == a[1..] + b;
      OtherAuthoritiesAppend(a[1..], b, authority);
    }
  }

  /** At most one entry carries `authority`. */
  predicate AtMostOne(ids: seq<LayerIdentifier>, authority: string)
  {
    forall i, j :: 0 <= i < j < |ids| && ids[i].authority == authority ==> ids[j].authority != authority
  }

  /** Dropping an entry of `authority` leaves the other authorities' entries as they were. */
  lemma {:induction false} OtherAuthoritiesRemove(ids: seq<LayerIdentifier>, k: int, authority: string)
    requires 0 <= k < |ids| && ids[k].authority == authority
    ensures OtherAuthorities(ids[..k] + ids[k + 1..], authority) == OtherAuthorities(ids, authority)
    decreases k
  {
    var dropped := ids[..k] + ids[k + 1..];
    if k == 0 {
      assert dropped == ids[1..];
    } else {
      var tail := ids[1..];
      OtherAuthoritiesRemove(tail, k - 1, authority);
      assert dropped[0] == ids[0];
      assert dropped[1..] == tail[..k - 1] + tail[k..];
    }
  }

  /** The update never touches, drops or reorders the entries of other authorities. */
  lemma UpdatedKeepsOtherAuthorities(ids: seq<LayerIdentifier>, authority: string, value: string)
    ensures OtherAuthorities(Updated(ids, authority, value), authority) == OtherAuthorities(ids, authority)
  {
    var added := [LayerIdentifier(authority, value)];
    assert OtherAuthorities(added, authority) == [] by {
      assert added[1..] == [];
    }
    if !IsCurrent(ids, authority, value) {
      match FirstWithAuthority(ids, authority)
      case None =>
        OtherAuthoritiesAppend(ids, added, authority);
      case Some(k) =>
        var kept := ids[..k] + ids[k + 1..];
        OtherAuthoritiesAppend(kept, added, authority);
        OtherAuthoritiesRemove(ids, k, authority);
    }
  }

  /** After the update the list holds the new identifier, and it becomes current. */
  lemma UpdatedIsCurrent(ids: seq<LayerIdentifier>, authority: string, value: string)
    requires AtMostOne(ids, authority)
    ensures var r := Updated(ids, authority, value);
      IsCurrent(r, authority, value) && AtMostOne(r, authority)
      && forall j :: 0 <= j < |r| && r[j].authority == authority ==> r[j].identifier == value
  {
    var r := Updated(ids, authority, value);
    if !IsCurrent(ids, authority, value) {
      var kept := match FirstWithAuthority(ids, authority)
        case None => ids
        case Some(k) => ids[..k] + ids[k + 1..];
      assert r == kept + [LayerIdentifier(authority, value)];
      assert forall j :: 0 <= j < |kept| ==> kept[j].authority != authority by {
        match FirstWithAuthority(ids, authority)
        case None =>
        case Some(k) =>
          forall j | 0 <= j < |kept|
            ensures kept[j].authority != authority
          {
            if j >= k {
              assert kept[j] == ids[j + 1];
            }
          }
      }
      var last := |r| - 1;
      assert r[last] == LayerIdentifier(authority, value);
      assert forall j :: 0 <= j < last ==> r[j].authority != authority;
      assert FirstWithAuthority(r, authority) == Some(last);
    }
  }

  /** A second update with the same value changes nothing: the update is idempotent. */
  lemma UpdatedIsIdempotent(ids: seq<LayerIdentifier>, authority: string, value: string)
    requires AtMostOne(ids, authority)
    ensures Updated(Updated(ids, authority, value), authority, value) == Updated(ids, authority, value)
  {
    UpdatedIsCurrent(ids, authority, value);
  }

  /**
   * With two entries of the authority the update is not idempotent: the second call finds the
   * older duplicate first, drops it and appends the value once more.
   */
  lemma UpdatedWithDuplicatesIsNotIdempotent()
    ensures var ids := [LayerIdentifier("A", "old"), LayerIdentifier("A", "stale")];
      Updated(ids, "A", "new") == [LayerIdentifier("A", "stale"), LayerIdentifier("A", "new")]
      && Updated(Updated(ids, "A", "new"), "A", "new")
         == [LayerIdentifier("A", "new"), LayerIdentifier("A", "new")]
  {
    var ids := [LayerIdentifier("A", "old"), LayerIdentifier("A", "stale")];
    assert FirstWithAuthority(ids, "A") == Some(0);
    var once := [LayerIdentifier("A", "stale"), LayerIdentifier("A", "new")];
    assert ids[..0] + ids[1..] == [LayerIdentifier("A", "stale")];
    assert Updated(ids, "A", "new") == once;
    assert FirstWithAuthority(once, "A") == Some(0);
    assert once[..0] + once[1..] == [LayerIdentifier("A", "new")];
  }

  // ---------------------------------------------------------------------------------------
  // WMS root-layer authority URL

  predicate HasAuthorityUrl(urls: seq<AuthorityUrl>, name: string)
  {
    exists i :: 0 <= i < |urls| && urls[i].name == name
  }

  /** The authority URLs after `forceServiceRootLayerHaveGeogigAuthURL`. */
  function WithAuthorityUrl(urls: seq<AuthorityUrl>, f: Flavor): (r: seq<AuthorityUrl>)
    ensures HasAuthorityUrl(r, f.authorityName)
    ensures urls <= r && |r| <= |urls| + 1
    ensures |r| == |urls| + 1 <==> !HasAuthorityUrl(urls, f.authorityName)
    ensures |r| == |urls| + 1 ==> r[|urls|] == AuthorityUrl(f.authorityName, f.authorityHref)
  {
    if HasAuthorityUrl(urls, f.authorityName) then urls
    else
      var r := urls + [AuthorityUrl(f.authorityName, f.authorityHref)];
      assert r[|urls|].name == f.authorityName;
      r
  }

  /** Repeated calls add the URL once. */
  lemma WithAuthorityUrlIsIdempotent(urls: seq<AuthorityUrl>, f: Flavor)
    ensures WithAuthorityUrl(WithAuthorityUrl(urls, f), f) == WithAuthorityUrl(urls, f)
  {
  }

  // ---------------------------------------------------------------------------------------
  // Event handling

  /** The source of a catalog add event. */
  datatype AddSource = LayerAdded(layer: Layer) | OtherAdded

  /** Whether a modify event is worth remembering for the post-modify event. */
  predicate TriesPostUpdate(f: Flavor, source: CatalogInfo, propertyNames: seq<string>)
  {
    (source.WorkspaceInfo? || (source.StoreInfo? && IsGeogigStore(f, source.store)))
    && ("name" in propertyNames || "connectionParameters" in propertyNames)
  }

  /** Whether a layer is hit by the post-modify handling of `source`. */
  predicate Affects(f: Flavor, source: CatalogInfo, l: Layer)
  {
    match source
    case WorkspaceInfo(ws) => l.store.workspace.id == ws.id && l.store.storeType == f.storeType
    case StoreInfo(s) => s.isDataStore && l.store.id == s.id
    case OtherInfo(_) => false
  }

  /** The catalog query of the post-modify handlers: the affected layers in catalog order. */
  function AffectedLayers(f: Flavor, source: CatalogInfo, layers: seq<Layer>): (r: seq<Layer>)
    ensures forall i :: 0 <= i < |r| ==> r[i] in layers && Affects(f, source, r[i])
    ensures forall i :: 0 <= i < |layers| && Affects(f, source, layers[i]) ==> layers[i] in r
    ensures Distinct(layers) ==> Distinct(r)
    decreases |layers|
  {
    if layers == [] then []
    else
      var rest := AffectedLayers(f, source, layers[1..]);
      if Affects(f, source, layers[0]) then
        assert Distinct(layers) ==> layers[0] !in rest by {
          if Distinct(layers) {
            forall i | 0 <= i < |rest|
              ensures rest[i] != layers[0]
            {
              var j :| 0 <= j < |layers[1..]| && layers[1..][j] == rest[i];
              assert layers[j + 1] == rest[i];
            }
          }
        }
        [layers[0]] + rest
      else rest
  }

  /** The `GeogigLayerIntegrationListener` with its catalog, WMS settings and pending slot. */
  class Listener {
    const flavor: Flavor
    /** The catalog's layers, each once, in catalog order. */
    const layers: seq<Layer>
    /** The WMS settings; absent when GeoServer has none. */
    const wms: Option<WmsInfo>
    /** The thread-local pre-modify slot: the source remembered by the last modify event. */
    var pending: Option<CatalogInfo>

    constructor (flavor: Flavor, layers: seq<Layer>, wms: Option<WmsInfo>)
      requires Distinct(layers)
      ensures this.flavor == flavor && this.layers == layers && this.wms == wms
      ensures pending.None?
      ensures Valid()
    {
      this.flavor := flavor;
      this.layers := layers;
      this.wms := wms;
      pending := None;
    }

    predicate Valid()
    {
      Distinct(layers)
    }

    function WmsFrame(): set<object>
    {
      if wms.Some? then {wms.value} else {}
    }

    /** `updateIdentifier`: replace-or-append, and one save when the list changes. */
    method UpdateIdentifier(layer: Layer, newIdentifier: string)
      modifies layer
      ensures layer.identifiers == Updated(old(layer.identifiers), flavor.authorityName, newIdentifier)
      ensures layer.saves == old(layer.saves)
                             + (if IsCurrent(old(layer.identifiers), flavor.authorityName, newIdentifier)
                                then 0 else 1)
    {
      var found := FindAuthority(layer.identifiers, flavor.authorityName);
      if found.Some? {
        var k := found.value;
        if layer.identifiers[k].identifier == newIdentifier {
          return;
        }
        layer.identifiers := layer.identifiers[..k] + layer.identifiers[k + 1..];
      }
      layer.identifiers := layer.identifiers + [LayerIdentifier(flavor.authorityName, newIdentifier)];
      layer.saves := layer.saves + 1;
    }

    /** `setIdentifier`: update the layer with its built identifier. */
    method SetIdentifier(layer: Layer)
      modifies layer
      ensures layer.identifiers == Updated(old(layer.identifiers), flavor.authorityName,
                                           BuildLayerIdentifier(layer.store, layer.nativeName))
      ensures layer.saves == old(layer.saves)
                             + (if IsCurrent(old(layer.identifiers), flavor.authorityName,
                                             BuildLayerIdentifier(layer.store, layer.nativeName))
                                then 0 else 1)
    {
      UpdateIdentifier(layer, BuildLayerIdentifier(layer.store, layer.nativeName));
    }

    /** `updateLayers`: `setIdentifier` on every layer of the query, each exactly once. */
    method UpdateLayers(affected: seq<Layer>)
      requires Distinct(affected)
      modifies affected
      ensures forall l :: l in affected ==>
        l.identifiers == Updated(old(l.identifiers), flavor.authorityName,
                                 BuildLayerIdentifier(l.store, l.nativeName))
        && l.saves == old(l.saves)
                      + (if IsCurrent(old(l.identifiers), flavor.authorityName,
                                      BuildLayerIdentifier(l.store, l.nativeName))
                         then 0 else 1)
    {
      ghost var identifiers := seq(|affected|, j requires 0 <= j < |affected| reads affected =>
        Updated(affected[j].identifiers, flavor.authorityName,
                BuildLayerIdentifier(affected[j].store, affected[j].nativeName)));
      ghost var saves := seq(|affected|, j requires 0 <= j < |affected| reads affected =>
        affected[j].saves
        + (if IsCurrent(affected[j].identifiers, flavor.authorityName,
                        BuildLayerIdentifier(affected[j].store, affected[j].nativeName))
           then 0 else 1));
      var i := 0;
      while i < |affected|
        invariant 0 <= i <= |affected|
        invariant forall j :: 0 <= j < i ==>
          affected[j].identifiers == identifiers[j] && affected[j].saves == saves[j]
        invariant forall j :: i <= j < |affected| ==>
          affected[j].identifiers == old(affected[j].identifiers) && affected[j].saves == old(affected[j].saves)
      {
        SetIdentifier(affected[i]);
        i := i + 1;
      }
    }

    /**
     * `forceServiceRootLayerHaveGeogigAuthURL`: false only without WMS settings; otherwise the
     * authority URL is present afterwards, added (and saved) only when it was missing.
     */
    method ForceServiceRootAuthUrl() returns (ok: bool)
      modifies WmsFrame()
      ensures ok <==> wms.Some?
      ensures wms.Some? ==>
        wms.value.authorityUrls == WithAuthorityUrl(old(wms.value.authorityUrls), flavor)
        && wms.value.saves == old(wms.value.saves)
                              + (if HasAuthorityUrl(old(wms.value.authorityUrls), flavor.authorityName)
                                 then 0 else 1)
    {
      if wms.None? {
        return false;
      }
      var service := wms.value;
      var urls := service.authorityUrls;
      var i := 0;
      while i < |urls|
        invariant 0 <= i <= |urls|
        invariant forall j :: 0 <= j < i ==> urls[j].name != flavor.authorityName
      {
        if urls[i].name == flavor.authorityName {
          return true;
        }
        i := i + 1;
      }
      service.authorityUrls := urls + [AuthorityUrl(flavor.authorityName, flavor.authorityHref)];
      service.saves := service.saves + 1;
      return true;
    }

    /** `handleAddEvent`: only a layer of a geogig store, and only when WMS settings exist. */
    method HandleAddEvent(source: AddSource)
      modifies WmsFrame(), if source.LayerAdded? then {source.layer} else {}
      ensures !(source.LayerAdded? && IsGeogigStore(flavor, source.layer.store)) ==>
        (wms.Some? ==> unchanged(wms.value))
        && (source.LayerAdded? ==> unchanged(source.layer))
      ensures source.LayerAdded? && IsGeogigStore(flavor, source.layer.store) && wms.Some? ==>
        wms.value.authorityUrls == WithAuthorityUrl(old(wms.value.authorityUrls), flavor)
        && wms.value.saves == old(wms.value.saves)
                              + (if HasAuthorityUrl(old(wms.value.authorityUrls), flavor.authorityName)
                                 then 0 else 1)
        && source.layer.identifiers
           == Updated(old(source.layer.identifiers), flavor.authorityName,
                      BuildLayerIdentifier(source.layer.store, source.layer.nativeName))
        && source.layer.saves == old(source.layer.saves)
                                 + (if IsCurrent(old(source.layer.identifiers), flavor.authorityName,
                                                 BuildLayerIdentifier(source.layer.store,
                                                                      source.layer.nativeName))
                                    then 0 else 1)
      ensures source.LayerAdded? && wms.None? ==> unchanged(source.layer)
    {
      if !source.LayerAdded? {
        return;
      }
      var layer := source.layer;
      if !IsGeogigStore(flavor, layer.store) {
        return;
      }
      var ok := ForceServiceRootAuthUrl();
      if !ok {
        return;
      }
      SetIdentifier(layer);
    }

    /** `handleModifyEvent`: remember a relevant source, but only while the slot is empty. */
    method HandleModifyEvent(source: CatalogInfo, propertyNames: seq<string>)
      modifies this`pending
      ensures old(pending).None? && TriesPostUpdate(flavor, source, propertyNames) ==>
        pending == Some(source)
      ensures !(old(pending).None? && TriesPostUpdate(flavor, source, propertyNames)) ==>
        pending == old(pending)
    {
      if pending.Some? {
        return;
      }
      if TriesPostUpdate(flavor, source, propertyNames) {
        pending := Some(source);
      }
    }

    /**
     * `handlePostModifyEvent`: only a source whose id matches the pending one is handled; the
     * slot is cleared and every affected layer is given its rebuilt identifier.
     */
    method HandlePostModifyEvent(source: CatalogInfo)
      requires Valid()
      modifies this`pending, layers
      ensures var consumed := old(pending).Some? && old(pending).value.Id() == source.Id();
        (consumed ==> pending.None?) && (!consumed ==> pending == old(pending))
        && forall l :: l in layers ==>
          if consumed && Affects(flavor, source, l) then
            l.identifiers == Updated(old(l.identifiers), flavor.authorityName,
                                     BuildLayerIdentifier(l.store, l.nativeName))
            && l.saves == old(l.saves)
                          + (if IsCurrent(old(l.identifiers), flavor.authorityName,
                                          BuildLayerIdentifier(l.store, l.nativeName))
                             then 0 else 1)
          else l.identifiers == old(l.identifiers) && l.saves == old(l.saves)
    {
      if pending.None? || pending.value.Id() != source.Id() {
        return;
      }
      pending := None;
      var affected := AffectedLayers(flavor, source, layers);
      UpdateLayers(affected);
    }
  }

  /** The search loop of `updateIdentifier`: the first entry issued by `authority`. */
  method FindAuthority(ids: seq<LayerIdentifier>, authority: string) returns (found: Option<nat>)
    ensures found == FirstWithAuthority(ids, authority)
  {
    var i := 0;
    while i < |ids|
      invariant 0 <= i <= |ids|
      invariant forall j :: 0 <= j < i ==> ids[j].authority != authority
    {
      if ids[i].authority == authority {
        return Some(i);
      }
      i := i + 1;
    }
    return None;
  }
}
