/**
 * The command hook that truncates GeoWebCache tiles of GeoGit layers when a ref they publish
 * is moved by an `UpdateRef` command. The pre-hook records the ref name and its old value in
 * the command's client data; the post-hook decides whether anything has to be truncated and,
 * if so, which layers.
 */
module TruncateTilesHook {
  import opened Wrappers
  import opened GeoServerCatalog
  import opened GeogigCommands
  import LayerIntegration
  import NSH = NetworkSecurityHook

  /** `appliesTo`: only the `UpdateRef` command. */
  predicate AppliesTo(cls: CommandClass)
    ensures AppliesTo(cls) ==> !NSH.AppliesTo(cls)
  {
    cls == UpdateRefOp
  }

  /**
   * An `UpdateRef` command as the hook sees it: the ref name among its parameters and the
   * client-data entries the pre-hook writes ("name", "ignore", "oldValue"). An absent outer
   * option is a missing map entry; `Some(None)` is an entry holding null.
   */
  class UpdateRefCommand {
    const cls: CommandClass
    /** `(String) Scripting.getParamMap(command).get("name")`. */
    const refName: Option<string>
    var nameData: Option<Option<string>>
    var ignore: bool
    var oldValue: Option<Option<Ref>>

    constructor (cls: CommandClass, refName: Option<string>)
      ensures this.cls == cls && this.refName == refName
      ensures nameData.None? && !ignore && oldValue.None?
    {
      this.cls := cls;
      this.refName := refName;
      nameData := None;
      ignore := false;
      oldValue := None;
    }

    /**
     * `pre`: always records the ref name; a WORK_HEAD or STAGE_HEAD update is marked ignored and
     * gets no old value, any other ref gets its current value as resolved by `refParse`.
     */
    method Pre(refParse: Option<string> -> Option<Ref>)
      modifies this`nameData, this`ignore, this`oldValue
      ensures nameData == Some(refName)
      ensures IsWorkingHead(refName) ==> ignore && oldValue == old(oldValue)
      ensures !IsWorkingHead(refName) ==> ignore == old(ignore) && oldValue == Some(refParse(refName))
    {
      nameData := Some(refName);
      if IsWorkingHead(refName) {
        ignore := true;
        return;
      }
      oldValue := Some(refParse(refName));
    }
  }

  predicate IsWorkingHead(refName: Option<string>)
  {
    refName == Some(WORK_HEAD) || refName == Some(STAGE_HEAD)
  }

  // ---------------------------------------------------------------------------------------
  // Which ref a store publishes

  /** The ref a store is configured to follow: HEAD parameter first, then BRANCH. */
  function ConfiguredHead(params: Params): (r: Option<string>)
    ensures Head in params ==> r == Some(params[Head])
    ensures Head !in params && Branch in params ==> r == Some(params[Branch])
    ensures r.None? <==> Head !in params && Branch !in params
  {
    if Head in params then Some(params[Head])
    else if Branch in params then Some(params[Branch])
    else None
  }

  /**
   * `findDataStoreHeadRefName`: with nothing configured, the target of the repository's
   * symbolic HEAD; otherwise the configured ref resolved to its target (symbolic) or its own
   * name; null when the ref does not resolve or HEAD is not symbolic.
   */
  function DataStoreHead(params: Params, refParse: Option<string> -> Option<Ref>): (r: Option<string>)
    ensures ConfiguredHead(params).None? ==>
      (r.Some? <==> refParse(Some(HEAD)).Some? && refParse(Some(HEAD)).value.SymRef?)
      && (r.Some? ==> r.value == refParse(Some(HEAD)).value.target)
    ensures ConfiguredHead(params).Some? ==>
      var resolved := refParse(ConfiguredHead(params));
      (r.None? <==> resolved.None?)
      && (resolved.Some? && resolved.value.SymRef? ==> r == Some(resolved.value.target))
      && (resolved.Some? && resolved.value.Ref? ==> r == Some(resolved.value.name))
  {
    match ConfiguredHead(params)
    case None =>
      (match refParse(Some(HEAD))
       case Some(SymRef(_, target)) => Some(target)
       case _ => None)
    case Some(configured) =>
      (match refParse(Some(configured))
       case Some(SymRef(_, target)) => Some(target)
       case Some(Ref(name, _)) => Some(name)
       case None => None)
  }

  // ---------------------------------------------------------------------------------------
  // Affected layers

  /**
   * A layer as listed by the catalog query: its own `enabled` flag (what the query filters on),
   * the cascaded `enabled()` (layer, resource and store), and whether GWC has a tile layer for it.
   */
  datatype TiledLayer = TiledLayer(name: string, store: Store, enabled: bool, cascadedEnabled: bool,
                                   hasTileLayer: bool)

  /** The catalog filter: enabled layers of GeoGit stores. */
  predicate Listed(l: TiledLayer)
  {
    l.enabled && l.store.storeType == GeoGitType
  }

  /** A layer truncation is worth considering for: enabled all the way down and tiled. */
  predicate Qualifies(l: TiledLayer)
  {
    l.cascadedEnabled && l.hasTileLayer
  }

  /** A store whose head, as `findDataStoreHeadRefName` resolves it, is the ref being moved. */
  predicate Follows(store: Store, newRefName: string, refParse: Option<string> -> Option<Ref>)
  {
    DataStoreHead(store.params, refParse) == Some(newRefName)
  }

  /** The affected layers of a list of query results, in listing order. */
  function AffectedSpec(layers: seq<TiledLayer>, newRefName: string,
                        refParse: Option<string> -> Option<Ref>): (r: seq<TiledLayer>)
    ensures |r| <= |layers|
    ensures forall k :: 0 <= k < |r| ==>
      r[k] in layers && Qualifies(r[k]) && Follows(r[k].store, newRefName, refParse)
    ensures forall k :: 0 <= k < |layers| && Qualifies(layers[k])
                        && Follows(layers[k].store, newRefName, refParse)
                        ==> layers[k] in r
    decreases |layers|
  {
    if layers == [] then []
    else
      var last := layers[|layers| - 1];
      var prefix := layers[..|layers| - 1];
      var rest := AffectedSpec(prefix, newRefName, refParse);
      assert forall k :: 0 <= k < |prefix| ==> prefix[k] == layers[k];
      if Qualifies(last) && Follows(last.store, newRefName, refParse)
      then rest + [last] else rest
  }

  /** One more listed layer adds itself to the affected ones exactly when it qualifies on its own. */
  lemma AffectedStep(listed: seq<TiledLayer>, i: int, newRefName: string,
                     refParse: Option<string> -> Option<Ref>)
    requires 0 <= i < |listed|
    ensures AffectedSpec(listed[..i + 1], newRefName, refParse)
      == AffectedSpec(listed[..i], newRefName, refParse)
         + (if Qualifies(listed[i]) && Follows(listed[i].store, newRefName, refParse)
            then [listed[i]] else [])
  {
    assert listed[..i + 1][..i] == listed[..i];
  }

  /**
   * `findAffectedLayers`: the loop over the query results that fills a store-keyed multimap,
   * resolving each store's head only for its first qualifying layer.
   */
  method FindAffectedLayers(listed: seq<TiledLayer>, newRefName: string,
                            refParse: Option<string> -> Option<Ref>)
    returns (affected: seq<TiledLayer>)
    ensures affected == AffectedSpec(listed, newRefName, refParse)
  {
    var keys: set<Store> := {};
    affected := [];
    var i := 0;
    while i < |listed|
      invariant 0 <= i <= |listed|
      invariant affected == AffectedSpec(listed[..i], newRefName, refParse)
      invariant forall s :: s in keys ==> Follows(s, newRefName, refParse)
    {
      var layer := listed[i];
      AffectedStep(listed, i, newRefName, refParse);
      if layer.cascadedEnabled && layer.hasTileLayer {
        var store := layer.store;
        if store in keys {
          affected := affected + [layer];
        } else {
          var dataStoreHead := DataStoreHead(store.params, refParse);
          if dataStoreHead == Some(newRefName) {
            keys := keys + {store};
            affected := affected + [layer];
          }
        }
      }
      i := i + 1;
    }
    assert listed[..i] == listed;
  }

  // ---------------------------------------------------------------------------------------
  // The post-hook

  datatype HookFailure =
    | IllegalArgument
    | IllegalState(message: string)
    /** Guava's `Optional.get()` on an absent value. */
    | AbsentValue

  /** What `post` returns and which layers it truncates (old and new value travel with them). */
  datatype PostOutcome = PostOutcome(returned: Option<Ref>, truncated: seq<TiledLayer>)

  datatype PostResult = Returned(outcome: PostOutcome) | Thrown(failure: HookFailure)

  /**
   * `post` on the recorded client data. `gwcInstalled` says whether the GWC mediator exists;
   * `listed` is the catalog query's answer.
   */
  function PostSpec(cls: CommandClass, nameData: Option<Option<string>>, ignore: bool,
                    oldValue: Option<Option<Ref>>, retVal: Option<Ref>, success: bool,
                    gwcInstalled: bool, listed: seq<TiledLayer>,
                    refParse: Option<string> -> Option<Ref>): (r: PostResult)
    ensures r.Returned? ==> r.outcome.returned == retVal
  {
    if cls != UpdateRefOp then Thrown(IllegalArgument)
    else if nameData.None? || nameData.value.None? then Thrown(IllegalState("refName not captured in pre-hook"))
    else if ignore || !success || !gwcInstalled then Returned(PostOutcome(retVal, []))
    else if oldValue.None? then Thrown(IllegalState("oldValue not captured in pre-hook"))
    else if oldValue.value == retVal then Returned(PostOutcome(retVal, []))
    else if retVal.None? then Thrown(AbsentValue)
    else Returned(PostOutcome(retVal, AffectedSpec(Filtered(listed), retVal.value.name, refParse)))
  }

  /** The catalog query `catalog.list(LayerInfo.class, GEOGIT_LAYERINFO_FILTER)`. */
  function Filtered(layers: seq<TiledLayer>): (r: seq<TiledLayer>)
    ensures forall k :: 0 <= k < |r| ==> r[k] in layers && Listed(r[k])
    ensures forall k :: 0 <= k < |layers| && Listed(layers[k]) ==> layers[k] in r
    decreases |layers|
  {
    if layers == [] then []
    else (if Listed(layers[0]) then [layers[0]] else []) + Filtered(layers[1..])
  }

  /** `post` on an `UpdateRef` command carrying client data. */
  method Post(command: UpdateRefCommand, retVal: Option<Ref>, success: bool, gwcInstalled: bool,
              layers: seq<TiledLayer>, refParse: Option<string> -> Option<Ref>)
    returns (r: PostResult)
    ensures r == PostSpec(command.cls, command.nameData, command.ignore, command.oldValue, retVal,
                          success, gwcInstalled, layers, refParse)
  {
    if command.cls != UpdateRefOp {
      return Thrown(IllegalArgument);
    }
    if command.nameData.None? || command.nameData.value.None? {
      return Thrown(IllegalState("refName not captured in pre-hook"));
    }
    if command.ignore || !success || !gwcInstalled {
      return Returned(PostOutcome(retVal, []));
    }
    var oldValue := command.oldValue;
    if oldValue.None? {
      return Thrown(IllegalState("oldValue not captured in pre-hook"));
    }
    if oldValue.value == retVal {
      return Returned(PostOutcome(retVal, []));
    }
    if retVal.None? {
      return Thrown(AbsentValue);
    }
    var affected := FindAffectedLayers(Filtered(layers), retVal.value.name, refParse);
    return Returned(PostOutcome(retVal, affected));
  }

  /** No truncation when the ref is ignored, the update failed, GWC is absent or nothing moved. */
  lemma NothingTruncatedWithoutAMove(cls: CommandClass, nameData: Option<Option<string>>, ignore: bool,
                                     oldValue: Option<Option<Ref>>, retVal: Option<Ref>, success: bool,
                                     gwcInstalled: bool, listed: seq<TiledLayer>,
                                     refParse: Option<string> -> Option<Ref>)
    requires ignore || !success || !gwcInstalled || oldValue == Some(retVal)
    ensures var r := PostSpec(cls, nameData, ignore, oldValue, retVal, success, gwcInstalled, listed, refParse);
      r.Returned? ==> r.outcome.truncated == []
  {
  }

  /** A ref update recorded by the pre-hook on a working head is never acted on. */
  lemma IgnoredRefsAreNeverTruncated(refName: Option<string>, oldValue: Option<Option<Ref>>,
                                     retVal: Option<Ref>, success: bool, gwcInstalled: bool,
                                     listed: seq<TiledLayer>, refParse: Option<string> -> Option<Ref>)
    requires IsWorkingHead(refName)
    ensures PostSpec(UpdateRefOp, Some(refName), true, oldValue, retVal, success, gwcInstalled, listed, refParse)
            == Returned(PostOutcome(retVal, []))
  {
  }

  /** Only tiled, enabled layers of GeoGit stores following the new ref are truncated. */
  lemma TruncatedLayersFollowTheNewRef(cls: CommandClass, nameData: Option<Option<string>>, ignore: bool,
                                       oldValue: Option<Option<Ref>>, retVal: Option<Ref>, success: bool,
                                       gwcInstalled: bool, listed: seq<TiledLayer>,
                                       refParse: Option<string> -> Option<Ref>)
    ensures var r := PostSpec(cls, nameData, ignore, oldValue, retVal, success, gwcInstalled, listed, refParse);
      r.Returned? ==> forall l :: l in r.outcome.truncated ==>
        l in listed && Listed(l) && Qualifies(l) && retVal.Some?
        && DataStoreHead(l.store.params, refParse) == Some(retVal.value.name)
  {
    var r := PostSpec(cls, nameData, ignore, oldValue, retVal, success, gwcInstalled, listed, refParse);
    if r.Returned? && r.outcome.truncated != [] {
      var f := Filtered(listed);
      forall l | l in r.outcome.truncated
        ensures l in listed && Listed(l)
      {
        assert l in f;
      }
    }
  }

  /**
   * The identifier builder prefers BRANCH while the truncation hook prefers HEAD: with both
   * parameters set to different refs they name different refs for the same store.
   */
  lemma HeadPreferenceIsOppositeToIdentifier(params: Params)
    requires Branch in params && Head in params && params[Branch] != params[Head]
    ensures ConfiguredHead(params) == Some(params[Head])
    ensures LayerIntegration.RefSpec(params) == Some(params[Branch])
    ensures ConfiguredHead(params) != LayerIntegration.RefSpec(params)
  {
  }
}
