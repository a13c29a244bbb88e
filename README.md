# GeoServer extensions: Mapmeter, GeoGig catalog integration and small parsers, in Dafny

This project models the decision logic of several GeoServer community extensions and proves
properties about that model.

- **Mapmeter.**
  - The configuration object: settings from `monitoring/mapmeter.properties`, their defaults, the derived URLs, write-back, and the legacy-file migration.
  - The SaaS service: free-trial sign-up, the data fetch, credential conversion, user state, and the message-storage check. Each SaaS reply is an input.
  - The storage-check result value.
  - The `data.json` REST resource and its error envelope.
  - The administration page's form visibility and submit handlers.
  - The home-page widget's reaction to the envelope, and the shaping of its chart data.
- **GeoGig/GeoGit catalog hooks.**
  - The layer-integration listener that keeps each layer's authority identifier
    `workspace:store:nativeName[:ref]` and the WMS root authority URL. The geogig copy
    (`geogig/.../wms/GeogigLayerIntegrationListener.java`) and the geogit copy
    (`geogit/.../layer/GeogitLayerIntegrationListener.java`) differ only in their constants. One
    module, `LayerIntegration`, models both, through a `Flavor` value.
  - The GeoWebCache truncation hook on `UpdateRef`.
  - The two network-security hooks that check remote URLs against the whitelist rules.
  - The security logger.
- **GeoGig repository configuration and UI logic.**
  - The repository record.
  - The XML configuration store and its UUID ids.
  - The repository manager.
  - The start-up initializer that upgrades stores to record ids.
  - The directory model and the directory chooser.
  - The REST repository provider.
  - The branch drop-down.
  - The remote-edit dialog.
- **Small parsers and containers.**
  - The ysld `Tuple` parser and printer.
  - The importer `BaseResource` import/task/item lookups.
  - The FileGDB data store factory.
  - The GeoServices fake servlet request and response.
  - The `parseFeatureSpecs` parser of the GeoGit test data builder.

Code that changes state step by step is modelled imperatively: a Dafny `class` with `modifies`
clauses, and loops with invariants. This covers the Mapmeter configuration, the layer listener,
the repository record, the configuration store, the initializer, the directory chooser, the
branch panel, the remote dialog, the security logger registry and the fake servlet response.
Each method is specified against a function on the old state, and the properties are proved
about those functions. Pure code is modelled as datatypes, functions and lemmas.

Java library behaviour that the code relies on is written out, in `java_strings.dfy`,
`java_numbers.dfy` and `java_files.dfy`:
- `String.split` on one character drops trailing empty strings;
- `trim` and ASCII `toLowerCase`;
- `Long.parseLong` and `Integer.parseInt` with their 64- and 32-bit ranges, on ASCII digits only;
- `java.io.File` names, parents, children and absolute paths on a Unix file system.

Outside collaborators are parameters of the operations, never modelled:
- the Mapmeter SaaS client;
- the GeoServer catalog's lookups;
- the random UUID generator;
- URL parsing and `File` canonicalisation;
- GeoGig ref resolution;
- the whitelist read;
- the password encoder.

The mapmeter widget is modelled on `mapmeter.js` as its JavaScript evaluates:
- A `reason` that names no message element shows the "unknown" message slot with the raw error text (mapmeter.js:34-37). A reason such as `toString` is found on `Object.prototype` by `msg[reason]`: the container is shown and `show` then throws (`MapmeterWidget.OtherReasonShowsUnknown`).
- A missing `request_count` sample is not defaulted to 0. It makes the maximum and the sum `NaN`, as `Math.max` and `+` do on `undefined` (`MapmeterWidget.MissingCountIsNotDefaulted`).
- A null `time` throws at `times.length`, and a string `time` is iterated character by character (`MapmeterWidget.UnindexedTimeThrows`, `MapmeterWidget.TextTimeIsIteratedByCharacter`).

The Mapmeter page's required fields are modelled as Wicket checks them: an entry with no visible character fails the check, the handler does not run, and only the feedback changes.

In the two places where the code evidently differs from its authors' intent (see "Findings"):
- the model follows the code as written;
- the intended definition is modelled beside it, with the intended property proved about it.

## Model

| member | source | states |
|---|---|---|
| GeogigConfigStore.HexDigits | geogig/src/main/java/org/geogig/geoserver/config/ConfigStore.java:61-62 | exactly `width` characters, each a lower-case hexadecimal digit |
| GeogigConfigStore.UuidText | geogig/src/main/java/org/geogig/geoserver/config/ConfigStore.java:97-99 | the text of a random UUID is 36 characters long |
| GeogigConfigStore.AssignedIdsAreUuids | geogig/src/main/java/org/geogig/geoserver/config/ConfigStore.java:97-103 | every id `save` assigns to a new record matches the 8-4-4-4-12 pattern `save` demands of ids already set |
| GeogigConfigStore.UuidsAreNotAbsolute | geogig/src/main/java/org/geogig/geoserver/config/ConfigStore.java:61-62 | no text matching the id pattern starts with '/' |
| GeogigConfigStore.FileName | geogig/src/main/java/org/geogig/geoserver/config/ConfigStore.java:115-117 | the record file name ends in ".xml" |
| GeogigConfigStore.ConfigPath | geogig/src/main/java/org/geogig/geoserver/config/ConfigStore.java:115-117 | the record path lies under "geogigconfig/" and ends in ".xml" |
| GeogigConfigStore.ConfigPathIsInjective | geogig/src/main/java/org/geogig/geoserver/config/ConfigStore.java:106-117 | two ids with the same record path are the same id |
| GeogigConfigStore.FileNameIsInjective | geogig/src/main/java/org/geogig/geoserver/config/ConfigStore.java:115-117 | two ids with the same file name are the same id |
| GeogigConfigStore.Lookup | geogig/src/main/java/org/geogig/geoserver/config/ConfigStore.java:139-145 | no content exactly when no listed file has the name; otherwise the content of a file of that name |
| GeogigConfigStore.PutThenLookup | geogig/src/main/java/org/geogig/geoserver/config/ConfigStore.java:88-93 | after writing a file it reads back as written and every other name reads as before |
| GeogigConfigStore.PutKeepsNamesUnique | geogig/src/main/java/org/geogig/geoserver/config/ConfigStore.java:88-93 | writing keeps the directory free of duplicate names |
| GeogigConfigStore.PutNames | geogig/src/main/java/org/geogig/geoserver/config/ConfigStore.java:88-93 | every file after a write is the written one or one that was there before |
| GeogigConfigStore.PutNewNameAppends | geogig/src/main/java/org/geogig/geoserver/config/ConfigStore.java:88-93 | a file under a new name is added at the end of the listing |
| GeogigConfigStore.Repositories | geogig/src/main/java/org/geogig/geoserver/config/ConfigStore.java:123-127 | a record is listed exactly when some ".xml" file that parses holds it |
| GeogigConfigStore.RepositoriesConcat | geogig/src/main/java/org/geogig/geoserver/config/ConfigStore.java:123-127 | the records of two listings, one after the other, are the records of their concatenation |
| GeogigConfigStore.LoadFrom | geogig/src/main/java/org/geogig/geoserver/config/ConfigStore.java:133-154 | a null id fails; a missing file fails with "File not found: " and the absolute path; an unparsable file fails with "Unable to load repo config " and the file name; a loaded record is the content of `<id>.xml` |
| GeogigConfigStore.SaveThenLoad | geogig/src/main/java/org/geogig/geoserver/config/ConfigStore.java:85-154 | a record saved under an id loads back unchanged and is among the listed repositories |
| GeogigConfigStore.SaveKeepsOtherRecords | geogig/src/main/java/org/geogig/geoserver/config/ConfigStore.java:85-154 | saving one record leaves the load of every other id unchanged |
| GeogigConfigStore.ConfigStore.constructor | geogig/src/main/java/org/geogig/geoserver/config/ConfigStore.java:68-74 | the store starts over the given data directory and files |
| GeogigConfigStore.ConfigStore.Save | geogig/src/main/java/org/geogig/geoserver/config/ConfigStore.java:84-104 | a null record is refused; a record without id gets a UUID id and its file written; a record with a UUID id has its file replaced; any other id is refused with "Id doesn't match UUID format" and nothing is written; a failing write leaves the files unchanged, yet a new record keeps the id it was just given |
| GeogigConfigStore.ConfigStore.Load | geogig/src/main/java/org/geogig/geoserver/config/ConfigStore.java:133-137 | loading through the store is `LoadFrom` on its files |
| GeogigConfigStore.ConfigStore.GetRepositories | geogig/src/main/java/org/geogig/geoserver/config/ConfigStore.java:123-127 | the listing through the store is `Repositories` of its files |
| GeogigRepositoryInfo.LocationOf | geogig/src/main/java/org/geogig/geoserver/config/RepositoryInfo.java:14-19 | the location is null exactly when the parent directory or the name is null |
| GeogigRepositoryInfo.WithLocation | geogig/src/main/java/org/geogig/geoserver/config/RepositoryInfo.java:21-25 | setting a location keeps the id and sets the name and parent of `new File(location)` |
| GeogigRepositoryInfo.LocationRoundTrip | geogig/src/main/java/org/geogig/geoserver/config/RepositoryInfo.java:14-25 | an absolute location with at least one name reads back from `getLocation` as its normalised path |
| GeogigRepositoryInfo.BareNameHasNoLocation | geogig/src/main/java/org/geogig/geoserver/config/RepositoryInfo.java:14-25 | a location that is one relative name has no parent, so `getLocation` is null |
| GeogigRepositoryInfo.RepositoryInfo.constructor | geogig/src/main/java/org/geogig/geoserver/config/ConfigStore.java:40-41 | a new record has no id, name or parent directory |
| GeogigRepositoryInfo.RepositoryInfo.Location | geogig/src/main/java/org/geogig/geoserver/config/RepositoryInfo.java:14-19 | the object's location is `LocationOf` its current value |
| GeogigRepositoryInfo.RepositoryInfo.SetLocation | geogig/src/main/java/org/geogig/geoserver/config/RepositoryInfo.java:21-25 | the new value is `WithLocation` of the old one |
| GeogigRepositoryInfo.RepositoryInfo.SetParentDirectory | geogig/src/main/java/org/geogig/geoserver/config/RepositoryInfo.java:27-29 | the parent directory becomes the argument, null included |
| GeogigRepositoryInfo.RepositoryInfo.SetName | geogig/src/main/java/org/geogig/geoserver/config/RepositoryInfo.java:35-37 | the name becomes the argument |
| GeogigRepositoryInfo.RepositoryInfo.SetId | geogig/src/main/java/org/geogig/geoserver/config/ConfigStore.java:97-99 | the id becomes the argument |
| GeogigRepositoryManager.GeogigStores | geogig/src/main/java/org/geogig/geoserver/config/RepositoryManager.java:52-64 | a store is returned exactly when it is in the catalog with the GeoGig type; no more stores than the catalog has |
| GeogigRepositoryManager.GeogigStoresConcat | geogig/src/main/java/org/geogig/geoserver/config/RepositoryManager.java:52-64 | the listing distributes over concatenation of catalogs, so the GeoGig stores come in catalog order |
| GeogigRepositoryManager.PutAllKeys | geogig/src/main/java/org/geogig/geoserver/config/RepositoryManager.java:37-47 | the map filled by successive `put`s has a key exactly when some entry has it |
| GeogigRepositoryManager.PutAllLastWins | geogig/src/main/java/org/geogig/geoserver/config/RepositoryManager.java:37-47 | the value kept under a key is that of the last entry with the key |
| GeogigRepositoryManager.Entries | geogig/src/main/java/org/geogig/geoserver/config/RepositoryManager.java:39-47 | one (location, record) pair per store, in order, the record made by `setLocation` and `setName` of the `REPOSITORY` text |
| GeogigRepositoryManager.ByLocationKeys | geogig/src/main/java/org/geogig/geoserver/config/RepositoryManager.java:34-50 | a location is a key exactly when some GeoGig store of the catalog has it |
| GeogigRepositoryManager.MissingRepositoryHasNoLocation | geogig/src/main/java/org/geogig/geoserver/config/RepositoryManager.java:41-46 | a store without a `REPOSITORY` parameter reads "null", which has no parent, so it is keyed by null |
| GeogigRepositoryManager.AbsoluteRepositoryIsTheKey | geogig/src/main/java/org/geogig/geoserver/config/RepositoryManager.java:41-46 | a store with an absolute repository path is keyed by that path, normalised |
| GeogigRepositoryManager.GetAll | geogig/src/main/java/org/geogig/geoserver/config/RepositoryManager.java:34-50 | the loop's map is the records of the GeoGig stores by location, a later store replacing an earlier one |
| GeogigRepositoryManager.Get | geogig/src/main/java/org/geogig/geoserver/config/RepositoryManager.java:24-28 | the registered manager when there is one, otherwise the `checkState` failure |
| GeogigInitializer.RepoKeys | geogig/src/main/java/org/geogig/geoserver/config/GeoGigInitializer.java:81-88 | the multimap's keys have no duplicates, and a value is a key exactly when some GeoGig store has it as its `REPOSITORY` |
| GeogigInitializer.Upgraded | geogig/src/main/java/org/geogig/geoserver/config/GeoGigInitializer.java:57-59 | an upgraded store has `REPOSITORY` set to the new id and the resolver class set, and nothing else changed |
| GeogigInitializer.InitializedStores | geogig/src/main/java/org/geogig/geoserver/config/GeoGigInitializer.java:45-63 | the catalog after start-up has the same length, each store in its final form: rewired when its repository value was not known, untouched otherwise |
| GeogigInitializer.CreatedRecord | geogig/src/main/java/org/geogig/geoserver/config/GeoGigInitializer.java:74-79 | the record created for a repository directory carries the id `save` assigns |
| GeogigInitializer.AllByLocation | geogig/src/main/java/org/geogig/geoserver/config/GeoGigInitializer.java:66-72 | a location is a key exactly when some saved record has it |
| GeogigInitializer.KnownLocations | geogig/src/main/java/org/geogig/geoserver/config/GeoGigInitializer.java:66-72 | a location is known exactly when some saved record file has it |
| GeogigInitializer.StoreByRepository | geogig/src/main/java/org/geogig/geoserver/config/GeoGigInitializer.java:81-96 | the grouping loop stops at a GeoGig store without `REPOSITORY`, exactly when one exists, and reports the first such store (every store before it that is GeoGig has the parameter); otherwise every GeoGig store is listed under its value, and the keys are the distinct values |
| GeogigInitializer.UpgradedIsIdempotent | geogig/src/main/java/org/geogig/geoserver/config/GeoGigInitializer.java:57-59 | rewiring a store twice to the same id is rewiring it once |
| GeogigInitializer.RewireGroup | geogig/src/main/java/org/geogig/geoserver/config/GeoGigInitializer.java:53-61 | the inner loop rewires exactly the stores of the group to the id and leaves the rest alone |
| GeogigInitializer.Partly | geogig/src/main/java/org/geogig/geoserver/config/GeoGigInitializer.java:45-63 | the stores after part of the outer loop keep their number |
| GeogigInitializer.PartlyOfAllKeys | geogig/src/main/java/org/geogig/geoserver/config/GeoGigInitializer.java:45-63 | once every key is handled, the loop's catalog is `InitializedStores` |
| GeogigInitializer.GeoGigInitializer.constructor | geogig/src/main/java/org/geogig/geoserver/config/GeoGigInitializer.java:31-33 | the initializer works on the given configuration store |
| GeogigInitializer.GeoGigInitializer.Create | geogig/src/main/java/org/geogig/geoserver/config/GeoGigInitializer.java:74-79 | a fresh record located at the directory, with a UUID id, and its file written by `save` |
| GeogigInitializer.GeoGigInitializer.UpgradeRepository | geogig/src/main/java/org/geogig/geoserver/config/GeoGigInitializer.java:47-62 | a known repository value changes nothing; an unknown one gets a saved record and its stores are rewired to the record's id |
| GeogigInitializer.GeoGigInitializer.UpgradeAll | geogig/src/main/java/org/geogig/geoserver/config/GeoGigInitializer.java:45-63 | the outer loop leaves the catalog as `Partly` of all keys and the files as one save per unknown key, taking the keys in the order they are given |
| GeogigInitializer.GeoGigInitializer.Initialize | geogig/src/main/java/org/geogig/geoserver/config/GeoGigInitializer.java:36-64 | a GeoGig store without `REPOSITORY` aborts before any change; otherwise the catalog becomes `InitializedStores` and one record is saved per unknown repository value |
| GeogigInitializer.UuidIsNeverAKnownLocation | geogig/src/main/java/org/geogig/geoserver/config/GeoGigInitializer.java:66-72 | a UUID id is never the location of a saved record |
| GeogigInitializer.UuidIsABareName | geogig/src/main/java/org/geogig/geoserver/config/GeoGigInitializer.java:74-79 | a UUID id, read as a path, is a single relative name |
| GeogigInitializer.UpgradedStoresAreUpgradedAgain | geogig/src/main/java/org/geogig/geoserver/config/GeoGigInitializer.java:45-63 | as written, a store rewired by one start-up is rewired again by the next, to a record with no location |
| GeogigInitializer.CreatedFiles | geogig/src/main/java/org/geogig/geoserver/config/GeoGigInitializer.java:74-79 | every created file belongs to some key the start-up did not know |
| GeogigInitializer.CreatedFilesHoldEveryUnknownKey | geogig/src/main/java/org/geogig/geoserver/config/GeoGigInitializer.java:49-51 | the file of every unknown key is among the created files |
| GeogigInitializer.SaveAllAppends | geogig/src/main/java/org/geogig/geoserver/config/GeoGigInitializer.java:49-51 | with fresh ids, the saved files are the old ones followed by the created ones |
| GeogigInitializer.SaveAllOfKnownKeys | geogig/src/main/java/org/geogig/geoserver/config/GeoGigInitializer.java:49 | when every key is known nothing is saved |
| GeogigInitializer.CreatedRecordsAreKnown | geogig/src/main/java/org/geogig/geoserver/config/GeoGigInitializer.java:66-79 | every record known before is known after the saves, and so is the id of every created record |
| GeogigInitializer.NothingUnknownChangesNothing | geogig/src/main/java/org/geogig/geoserver/config/GeoGigInitializer.java:45-63 | when every GeoGig store's repository value is known, start-up leaves the catalog and the files alone |
| GeogigInitializer.CorrectedRunLeavesEveryValueKnown | geogig/src/main/java/org/geogig/geoserver/config/GeoGigInitializer.java:41-63 | with the intended test (location or id), after one start-up every GeoGig store's repository value is known |
| GeogigInitializer.CorrectedInitializeIsIdempotent | geogig/src/main/java/org/geogig/geoserver/config/GeoGigInitializer.java:36-64 | with the intended test, a second start-up changes neither the catalog nor the saved files |
| GeogigDirectoryModel.JoinedOrNull | geogig/src/main/java/org/geogig/geoserver/web/repository/GeoGigDirectoryModel.java:67-77 | the path the loop builds is null exactly when there are no names to join |
| GeogigDirectoryModel.InsideIsRelativeToDataDirectory | geogig/src/main/java/org/geogig/geoserver/web/repository/GeoGigDirectoryModel.java:62-78 | a file strictly inside the data directory is stored as "file:" and its path below the data directory, which resolves back to the file |
| GeogigDirectoryModel.DataDirectoryIsStoredAsFileNull | geogig/src/main/java/org/geogig/geoserver/web/repository/GeoGigDirectoryModel.java:66-78 | the data directory itself enters no loop iteration and is stored as "file:null" |
| GeogigDirectoryModel.OutsideKeepsOrAbsolutises | geogig/src/main/java/org/geogig/geoserver/web/repository/GeoGigDirectoryModel.java:79-86 | outside the data directory, a location the data directory resolves to another file is kept as typed; otherwise it becomes "file://" and the file's absolute path |
| GeogigDirectoryModel.DirectoryModel.constructor | geogig/src/main/java/org/geogig/geoserver/web/repository/GeoGigDirectoryModel.java:42-45 | the model wraps the given value and data directory |
| GeogigDirectoryModel.DirectoryModel.SetObject | geogig/src/main/java/org/geogig/geoserver/web/repository/GeoGigDirectoryModel.java:61-89 | null is stored as null; any other location is stored in its data-directory-relative or absolute form |
| GeogigDirectoryChooser.Roots | geogig/src/main/java/org/geogig/geoserver/web/repository/DirectoryChooser.java:84-97 | the data directory comes first, the home directory second when known, then the sorted file system roots, and nothing else |
| GeogigDirectoryChooser.FirstAncestorIsFirst | geogig/src/main/java/org/geogig/geoserver/web/repository/DirectoryChooser.java:113-118 | the root found is the earliest that is the selection or one of its ancestors; none is found exactly when no root is |
| GeogigDirectoryChooser.DataDirectoryComesFirst | geogig/src/main/java/org/geogig/geoserver/web/repository/DirectoryChooser.java:84-118 | a selection inside the data directory is always placed under the data directory root |
| GeogigDirectoryChooser.FindSelectionRoot | geogig/src/main/java/org/geogig/geoserver/web/repository/DirectoryChooser.java:111-118 | the selection loop returns `FirstAncestor` of the roots |
| GeogigDirectoryChooser.DirectoryChooser.constructor | geogig/src/main/java/org/geogig/geoserver/web/repository/DirectoryChooser.java:77-198 | the roots as `Roots`; no selection, a missing file or no enclosing root fall back to the data directory; otherwise the enclosing root, and the directory (or the file's parent) as the listing and breadcrumb selection; the OK link hidden when repositories are selectable |
| GeogigDirectoryChooser.DirectoryChooser.UpdateFileBrowser | geogig/src/main/java/org/geogig/geoserver/web/repository/DirectoryChooser.java:200-206 | a GeoGig directory changes nothing; any other file becomes the directory, the listing and the breadcrumb selection |
| GeogigDirectoryChooser.DirectoryChooser.DirectoryClicked | geogig/src/main/java/org/geogig/geoserver/web/repository/DirectoryChooser.java:222-230 | the clicked file becomes the directory, the listing and the breadcrumb selection |
| GeogigDirectoryChooser.DirectoryChooser.RootChosen | geogig/src/main/java/org/geogig/geoserver/web/repository/DirectoryChooser.java:142-152 | the breadcrumbs' root becomes the chosen root, then the browser moves there unless it is a GeoGig directory |
| JavaFiles.IsSubfileIsAncestorOrSelf | geogig/src/main/java/org/geogig/geoserver/web/repository/GeoGigDirectoryModel.java:47-54 | `isSubfile(root, s)` holds exactly when the root is `s` itself or one of its ancestors; an empty relative path is under no root |
| JavaFiles.NoSelectionIsUnderNoRoot | geogig/src/main/java/org/geogig/geoserver/web/repository/DirectoryChooser.java:236-243 | a null selection is under no root |
| CatalogRepositoryProvider.EnabledGeogigStores | geogig/src/main/java/org/geogig/geoserver/rest/CatalogRepositoryProvider.java:60-80 | a store is returned exactly when it is an enabled data store of the GeoGig type in the catalog |
| CatalogRepositoryProvider.EnabledGeogigStoresConcat | geogig/src/main/java/org/geogig/geoserver/rest/CatalogRepositoryProvider.java:60-80 | the listing distributes over concatenation of catalogs, so the enabled GeoGig stores come in catalog order |
| CatalogRepositoryProvider.DataStoreByName | geogig/src/main/java/org/geogig/geoserver/rest/CatalogRepositoryProvider.java:101 | a found store is a data store of the catalog with that workspace and name; none is found only when no data store has both |
| CatalogRepositoryProvider.RepositoryName | geogig/src/main/java/org/geogig/geoserver/rest/CatalogRepositoryProvider.java:51-58 | no attribute is absent; an attribute without ':' is an `IllegalArgumentException`; one with ':' goes on to the store lookup |
| CatalogRepositoryProvider.FindDataStore | geogig/src/main/java/org/geogig/geoserver/rest/CatalogRepositoryProvider.java:95-123 | the index error happens exactly when the name splits into fewer than two parts; the outcome is never absent or an argument error; REST errors are 404, 400 or 500; a found repository is that of an enabled data store of the catalog |
| CatalogRepositoryProvider.GetGeogig | geogig/src/main/java/org/geogig/geoserver/rest/CatalogRepositoryProvider.java:83-93 | absent exactly when there is no attribute; a found repository comes from an enabled store the attribute resolves to that opens as a GeoGig store, and every such store gives that result |
| CatalogRepositoryProvider.ErrorLadder | geogig/src/main/java/org/geogig/geoserver/rest/CatalogRepositoryProvider.java:95-123 | an unknown store is 404 "No such repository: " + name; a disabled one 400; one that fails to open 500; one that opens to another kind of store 400 |
| CatalogRepositoryProvider.TrailingColonFailsOnIndex | geogig/src/main/java/org/geogig/geoserver/rest/CatalogRepositoryProvider.java:96-98 | "ws:" splits into one part, so reading the store name fails with an index error |
| CatalogRepositoryProvider.FoundStoreIsEnabled | geogig/src/main/java/org/geogig/geoserver/rest/CatalogRepositoryProvider.java:83-123 | a found repository needs an attribute with ':' and an enabled data store of the catalog it resolves to |
| BranchSelectionPanel.WithCurrent | geogig/src/main/java/org/geogig/geoserver/web/data/store/geogig/BranchSelectionPanel.java:101-104 | the current branch is always offered; the list holds exactly the listed names and the current one; a current branch that is not listed is put first, otherwise the list is the names |
| BranchSelectionPanel.WithCurrentKeepsNoDuplicates | geogig/src/main/java/org/geogig/geoserver/web/data/store/geogig/BranchSelectionPanel.java:101-104 | a duplicate-free listing stays duplicate-free |
| BranchSelectionPanel.WithCurrentIsIdempotent | geogig/src/main/java/org/geogig/geoserver/web/data/store/geogig/BranchSelectionPanel.java:101-104 | adding the current branch a second time changes nothing |
| BranchSelectionPanel.BranchSelectionPanel.constructor | geogig/src/main/java/org/geogig/geoserver/web/data/store/geogig/BranchSelectionPanel.java:52-81 | the drop-down starts with the listed names and the current branch, and no error is reported |
| BranchSelectionPanel.BranchSelectionPanel.UpdateChoices | geogig/src/main/java/org/geogig/geoserver/web/data/store/geogig/BranchSelectionPanel.java:87-106 | the choices become `WithCurrent` of the listing (empty after a failure); a failure adds "Could not list branches: " and its message to the form only when errors are reported |
| BranchSelectionPanel.BranchSelectionPanel.Refresh | geogig/src/main/java/org/geogig/geoserver/web/data/store/geogig/BranchSelectionPanel.java:66-79 | the refresh link updates the choices and reports a listing failure, on both its submit and error paths |
| RemoteEditPanel.ClashCountPositive | geogig/src/main/java/org/geogig/geoserver/web/repository/RemoteEditPanel.java:58-66 | the count of clashes is positive exactly when some listed remote has the entered name and is not the edited remote's previous name |
| RemoteEditPanel.NewRemoteClashesWithAnyEqualName | geogig/src/main/java/org/geogig/geoserver/web/repository/RemoteEditPanel.java:55-66 | for a new remote any listed remote with the entered name clashes |
| RemoteEditPanel.ValidateUnique | geogig/src/main/java/org/geogig/geoserver/web/repository/RemoteEditPanel.java:58-66 | the validator adds one "A remote named … already exists" error per clashing remote |
| RemoteEditPanel.NameErrors | geogig/src/main/java/org/geogig/geoserver/web/repository/RemoteEditPanel.java:49-67 | a missing name is "required"; a name with whitespace fails the pattern; otherwise there is no error exactly when no remote clashes |
| RemoteEditPanel.FormErrors | geogig/src/main/java/org/geogig/geoserver/web/repository/RemoteEditPanel.java:49-75 | the form has no error exactly when the name is present, matches the pattern and clashes with nothing, and the URL is present |
| RemoteEditPanel.RemotesTable.Add | geogig/src/main/java/org/geogig/geoserver/web/repository/RemoteEditPanel.java:96-99 | the remote is appended to the table |
| RemoteEditPanel.RemoteEditPanel.constructor | geogig/src/main/java/org/geogig/geoserver/web/repository/RemoteEditPanel.java:37-55 | the previous name is none for a new remote and the model's name otherwise; the dialog opens with no feedback |
| RemoteEditPanel.RemoteEditPanel.ValidateName | geogig/src/main/java/org/geogig/geoserver/web/repository/RemoteEditPanel.java:49-67 | the name field's validators give `NameErrors` against the table's current remotes |
| RemoteEditPanel.RemoteEditPanel.Submit | geogig/src/main/java/org/geogig/geoserver/web/repository/RemoteEditPanel.java:86-103 | with errors the feedback grows and nothing else changes; without, the dialog closes and a new remote (only a new one) is appended to the table |
| RemoteEditPanel.RemoteEditPanel.Cancel | geogig/src/main/java/org/geogig/geoserver/web/repository/RemoteEditPanel.java:105-118 | cancel closes the dialog on both paths and leaves the table alone |
| SecurityLogger.WatchedCommands | geogig/src/main/java/org/geogig/geoserver/security/SecurityLogger.java:30-55 | the logger is interested exactly in the six remote commands (remote add and remove, pull, push, fetch, clone), not in update-ref or ls-remote |
| SecurityLogger.FriendlyName | geogig/src/main/java/org/geogig/geoserver/security/SecurityLogger.java:151-218 | the names "Pull", "Push", "Fetch" and "Clone" each belong to exactly that command; a name starts with "Remote " exactly for remote add and remote remove |
| SecurityLogger.ParamsText | geogig/src/main/java/org/geogig/geoserver/security/SecurityLogger.java:158-224 | the parameter text starts with the first parameter of the command's kind: name, remote, remotes or url |
| SecurityLogger.PreMessage | geogig/src/main/java/org/geogig/geoserver/security/SecurityLogger.java:137-139 | the debug message starts with the friendly name and ends with the parameter text, with a separator between them |
| SecurityLogger.PostMessage | geogig/src/main/java/org/geogig/geoserver/security/SecurityLogger.java:133-135 | the info message starts with the friendly name and ends with the parameter text, with a separator between them |
| SecurityLogger.ErrorMessage | geogig/src/main/java/org/geogig/geoserver/security/SecurityLogger.java:141-144 | the error message starts with the friendly name and ends with the exception's message, "null" when it has none |
| SecurityLogger.MessagesAreDistinct | geogig/src/main/java/org/geogig/geoserver/security/SecurityLogger.java:131-144 | the pre, post and error messages of a command never coincide |
| SecurityLogger.FriendlyNamesIdentifyTheClass | geogig/src/main/java/org/geogig/geoserver/security/SecurityLogger.java:151-225 | two watched commands share a friendly name exactly when they are of the same class |
| SecurityLogger.RepoUrl | geogig/src/main/java/org/geogig/geoserver/security/SecurityLogger.java:104-129 | no context, repository or location gives null; a file location always gives a path |
| SecurityLogger.GeogigDirectoryIsDropped | geogig/src/main/java/org/geogig/geoserver/security/SecurityLogger.java:119-124 | a repository in a ".geogig" directory is logged under the directory that holds it |
| SecurityLogger.OtherDirectoriesAreKept | geogig/src/main/java/org/geogig/geoserver/security/SecurityLogger.java:119-124 | any other file location is logged under its own absolute path |
| SecurityLogger.LogStore.Append | geogig/src/main/java/org/geogig/geoserver/security/SecurityLogger.java:81-95 | the log store gains exactly the written entry, at the end |
| SecurityLogger.EntryFor | geogig/src/main/java/org/geogig/geoserver/security/SecurityLogger.java:78-102 | an entry is written exactly when the command has a message builder and its repository URL can be computed |
| SecurityLogger.Logger.constructor | geogig/src/main/java/org/geogig/geoserver/security/SecurityLogger.java:48-51 | the logger writes to the given store |
| SecurityLogger.Logger.Write | geogig/src/main/java/org/geogig/geoserver/security/SecurityLogger.java:78-96 | the outcome is the builder lookup's and the URL's; the store gains the one entry `EntryFor` gives, or nothing |
| SecurityLogger.Registry.NewLogger | geogig/src/main/java/org/geogig/geoserver/security/SecurityLogger.java:48-51 | a new logger becomes the static instance |
| SecurityLogger.Registry.LogPre | geogig/src/main/java/org/geogig/geoserver/security/SecurityLogger.java:57-62 | before a logger exists nothing happens; afterwards a debug entry with the pre message |
| SecurityLogger.Registry.LogPost | geogig/src/main/java/org/geogig/geoserver/security/SecurityLogger.java:64-75 | before a logger exists nothing happens; afterwards an info entry with the post message, or an error entry with the error message when an exception was raised |
| NetworkSecurityHook.NonNetworkUrlsAreNeverBlocked | geogig/src/main/java/org/geogig/geoserver/security/NetworkSecurityHook.java:93-104 | a URL that does not parse, has no host or protocol, or uses `file` is never blocked, by any rule |
| NetworkSecurityHook.RuleBlocks | geogig/src/main/java/org/geogig/geoserver/security/NetworkSecurityHook.java:93-117 | only a network URL is blocked; over https a rule blocks exactly when its pattern matches the host; over any other protocol a rule requiring SSL blocks |
| NetworkSecurityHook.RequireSslBlocksPlainUrls | geogig/src/main/java/org/geogig/geoserver/security/NetworkSecurityHook.java:106-108 | a rule that requires SSL blocks every network URL whose protocol is not `https`, whatever its pattern |
| NetworkSecurityHook.SuffixRuleBlocksSubdomains | geogig/src/main/java/org/geogig/geoserver/security/NetworkSecurityHook.java:110-112 | a `[.*]domain` pattern blocks every host ending in that domain |
| NetworkSecurityHook.ExactRuleBlocksOnlyItsHost | geogig/src/main/java/org/geogig/geoserver/security/NetworkSecurityHook.java:113-115 | over `https`, a plain pattern blocks a host if and only if the host equals the pattern |
| NetworkSecurityHook.FirstBlocking | geogig/src/main/java/org/geogig/geoserver/security/NetworkSecurityHook.java:85-90 | the rule found is in the whitelist and blocks the URL; none is found exactly when no rule blocks it |
| NetworkSecurityHook.CheckSpec | geogig/src/main/java/org/geogig/geoserver/security/NetworkSecurityHook.java:75-91 | an unreadable whitelist is a failure; otherwise the check fails exactly when some rule blocks the URL, naming that URL and a blocking rule |
| NetworkSecurityHook.CheckRestricted | geogig/src/main/java/org/geogig/geoserver/security/NetworkSecurityHook.java:75-91 | the loop over the rules reaches the outcome its specification describes |
| NetworkSecurityHook.Message | geogig/src/main/java/org/geogig/geoserver/security/NetworkSecurityHook.java:81-88 | an unreadable whitelist's message ends with the IO error's message; a block's message ends with the remote URL; a message starts with "Blocked " exactly when a rule blocked |
| NetworkSecurityHook.CheckedUrls | geogig/src/main/java/org/geogig/geoserver/security/NetworkSecurityHook.java:30-57 | an ls-remote or push is checked on its remote's fetch or push URL, a clone on its repository URL, a fetch on every remote's fetch URL in order, any other command on nothing |
| NetworkSecurityHook.FirstFailure | geogig/src/main/java/org/geogig/geoserver/security/NetworkSecurityHook.java:47-49 | there is no failure exactly when every URL passes; otherwise the failure is that of one of the URLs |
| NetworkSecurityHook.Pre | geogig/src/main/java/org/geogig/geoserver/security/NetworkSecurityHook.java:30-60 | the command proceeds unchanged when every checked URL passes and is refused with the first failure otherwise |
| NetworkSecurityHook.UnreadableWhitelistRefusesRemoteCommands | geogig/src/main/java/org/geogig/geoserver/security/NetworkSecurityHook.java:79-84 | when the whitelist cannot be read, every command that has a URL to check is refused |
| NetworkSecurityHook.PushChecksThePushUrl | geogig/src/main/java/org/geogig/geoserver/security/NetworkSecurityHook.java:50-56 | a push is judged by its remote's push URL |
| NetworkSecurityHook.Post | geogig/src/main/java/org/geogig/geoserver/security/NetworkSecurityHook.java:64-67 | the command's return value is passed through untouched |
| NetworkSecurityHook.AppliesTo | geogig/src/main/java/org/geogig/geoserver/security/NetworkSecurityHook.java:70-73 | the hook applies to none of pull, remote add, remote remove, update-ref or any other command |
| WebNetworkSecurityHook.IsRestricted | geogig/src/main/java/org/geogig/geoserver/web/security/NetworkSecurityHook.java:72-86 | a URL is restricted when the whitelist cannot be read (fail closed) or some rule blocks it |
| WebNetworkSecurityHook.AgreesWithCheckRestricted | geogig/src/main/java/org/geogig/geoserver/web/security/NetworkSecurityHook.java:72-110 | this copy restricts a URL if and only if the security copy's check fails on it |
| WebNetworkSecurityHook.CheckedUrls | geogig/src/main/java/org/geogig/geoserver/web/security/NetworkSecurityHook.java:23-55 | as in the security copy, except that a push is checked on its remote's fetch URL |
| WebNetworkSecurityHook.Pre | geogig/src/main/java/org/geogig/geoserver/web/security/NetworkSecurityHook.java:23-58 | the command is refused if and only if one of its checked URLs is restricted |
| WebNetworkSecurityHook.PushIsJudgedByFetchUrl | geogig/src/main/java/org/geogig/geoserver/web/security/NetworkSecurityHook.java:46-54 | a push whose fetch URL is allowed but whose push URL is blocked proceeds here and is refused by the security copy |
| WebNetworkSecurityHook.AppliesTo | geogig/src/main/java/org/geogig/geoserver/web/security/NetworkSecurityHook.java:65-70 | the web copy applies to exactly the commands the security copy applies to, so never to pull |
| LayerIntegration.RefSpec | geogig/src/main/java/org/geogig/geoserver/wms/GeogigLayerIntegrationListener.java:264-269 | the ref of a store is its `branch` parameter when there is one, else its `head` parameter, and absent exactly when neither is set |
| LayerIntegration.IdentifierParts | geogig/src/main/java/org/geogig/geoserver/wms/GeogigLayerIntegrationListener.java:258-278 | the identifier's parts are workspace, store and native name, followed by the ref exactly when the store has one |
| LayerIntegration.BuildLayerIdentifier | geogig/src/main/java/org/geogig/geoserver/wms/GeogigLayerIntegrationListener.java:258-278 | the identifier is "workspace:store:nativeName", followed by ":" and the ref when the store names a branch or head |
| LayerIntegration.IdentifierSplitsBack | geogig/src/main/java/org/geogig/geoserver/wms/GeogigLayerIntegrationListener.java:271-275 | when no part contains a colon, splitting the built identifier on `:` gives back its parts |
| LayerIntegration.IdentifierIsInjective | geogig/src/main/java/org/geogig/geoserver/wms/GeogigLayerIntegrationListener.java:258-278 | colon-free workspace, store, layer and ref names are all recovered from the identifier: two layers with one identifier agree on all four |
| LayerIntegration.FirstWithAuthority | geogig/src/main/java/org/geogig/geoserver/wms/GeogigLayerIntegrationListener.java:233-239 | the index found is the first identifier of the GeoGig authority; none is found exactly when there is no such identifier |
| LayerIntegration.OtherAuthorities | geogig/src/main/java/org/geogig/geoserver/wms/GeogigLayerIntegrationListener.java:229-256 | the identifiers of other authorities are exactly the listed ones whose authority differs |
| LayerIntegration.Updated | geogig/src/main/java/org/geogig/geoserver/wms/GeogigLayerIntegrationListener.java:229-256 | the GeoGig identifier is always present afterwards; an already current list is left as it is; the list grows by one exactly when no identifier of the authority was present, and otherwise keeps its length |
| LayerIntegration.OtherAuthoritiesAppend | geogig/src/main/java/org/geogig/geoserver/wms/GeogigLayerIntegrationListener.java:244-251 | the identifiers of other authorities in a concatenation are those of each part, in order |
| LayerIntegration.OtherAuthoritiesRemove | geogig/src/main/java/org/geogig/geoserver/wms/GeogigLayerIntegrationListener.java:244 | removing an identifier of the GeoGig authority leaves the other authorities' identifiers as they were |
| LayerIntegration.UpdatedKeepsOtherAuthorities | geogig/src/main/java/org/geogig/geoserver/wms/GeogigLayerIntegrationListener.java:229-256 | updating the GeoGig identifier never changes, drops or reorders the identifiers of other authorities |
| LayerIntegration.UpdatedIsCurrent | geogig/src/main/java/org/geogig/geoserver/wms/GeogigLayerIntegrationListener.java:229-256 | on a list with at most one GeoGig identifier, after the update the list holds exactly one, with the new value |
| LayerIntegration.UpdatedIsIdempotent | geogig/src/main/java/org/geogig/geoserver/wms/GeogigLayerIntegrationListener.java:240-243 | on a list with at most one GeoGig identifier, updating twice with the same value is updating once |
| LayerIntegration.UpdatedWithDuplicatesIsNotIdempotent | geogig/src/main/java/org/geogig/geoserver/wms/GeogigLayerIntegrationListener.java:233-251 | with two GeoGig identifiers only the first is replaced, so a stale one survives the first update and a second update changes the list again |
| LayerIntegration.WithAuthorityUrl | geogig/src/main/java/org/geogig/geoserver/wms/GeogigLayerIntegrationListener.java:188-199 | the service ends up with the GeoGig authority URL; the list is extended by exactly that URL, at the end, if and only if it had none of that name |
| LayerIntegration.WithAuthorityUrlIsIdempotent | geogig/src/main/java/org/geogig/geoserver/wms/GeogigLayerIntegrationListener.java:188-199 | adding the authority URL a second time changes nothing |
| LayerIntegration.AffectedLayers | geogig/src/main/java/org/geogig/geoserver/wms/GeogigLayerIntegrationListener.java:145-165 | the layers updated after a change are exactly the catalog's layers of the changed GeoGig store, or of GeoGig stores in the changed workspace, without repeats |
| LayerIntegration.Listener.constructor | geogig/src/main/java/org/geogig/geoserver/wms/GeogigLayerIntegrationListener.java:78-82 | a new listener holds no pending pre-modify event |
| LayerIntegration.Listener.UpdateIdentifier | geogig/src/main/java/org/geogig/geoserver/wms/GeogigLayerIntegrationListener.java:229-256 | the layer's identifiers become the updated list, and the layer is saved once unless its GeoGig identifier was already the new value |
| LayerIntegration.Listener.SetIdentifier | geogig/src/main/java/org/geogig/geoserver/wms/GeogigLayerIntegrationListener.java:223-227 | the layer's GeoGig identifier is set to the identifier built from its store and native name |
| LayerIntegration.Listener.UpdateLayers | geogig/src/main/java/org/geogig/geoserver/wms/GeogigLayerIntegrationListener.java:167-176 | every affected layer gets its GeoGig identifier set, each saved at most once |
| LayerIntegration.Listener.ForceServiceRootAuthUrl | geogig/src/main/java/org/geogig/geoserver/wms/GeogigLayerIntegrationListener.java:178-205 | succeeds exactly when there is a WMS service; the service then holds the authority URL and is saved only if the URL had to be added |
| LayerIntegration.Listener.HandleAddEvent | geogig/src/main/java/org/geogig/geoserver/wms/GeogigLayerIntegrationListener.java:85-98 | a new layer of a GeoGig store gets the authority URL on the service, which is saved once when the URL was missing, and its identifier set, with the layer saved once when the identifier changed; any other addition, or a missing WMS service, leaves the layer alone |
| LayerIntegration.Listener.HandleModifyEvent | geogig/src/main/java/org/geogig/geoserver/wms/GeogigLayerIntegrationListener.java:103-122 | a rename or connection change of a workspace or GeoGig store is remembered, unless an event is already pending; nothing else is |
| LayerIntegration.Listener.HandlePostModifyEvent | geogig/src/main/java/org/geogig/geoserver/wms/GeogigLayerIntegrationListener.java:125-143 | the pending event is consumed only by the post-modify event of the same object, and then exactly the affected layers get their identifiers rebuilt, each saved once when its identifier changed; all other layers are untouched and unsaved |
| LayerIntegration.FindAuthority | geogig/src/main/java/org/geogig/geoserver/wms/GeogigLayerIntegrationListener.java:233-239 | the loop finds the first identifier of the authority, as specified |
| TruncateTilesHook.UpdateRefCommand.Pre | geogit/src/main/java/org/geogit/gwc/TruncateTilesOnUpdateRefHook.java:75-96 | the ref name is always recorded; a WORK_HEAD or STAGE_HEAD update is marked ignored with no old value, any other ref records its current value |
| TruncateTilesHook.AppliesTo | geogit/src/main/java/org/geogit/gwc/TruncateTilesOnUpdateRefHook.java:70-72 | the tile hook's command is never one the network security hook checks |
| TruncateTilesHook.ConfiguredHead | geogit/src/main/java/org/geogit/gwc/TruncateTilesOnUpdateRefHook.java:201-205 | a store's configured head is its `head` parameter when there is one, else its `branch` parameter, and absent when neither is set |
| TruncateTilesHook.DataStoreHead | geogit/src/main/java/org/geogit/gwc/TruncateTilesOnUpdateRefHook.java:199-229 | without a configured head, the target of HEAD when HEAD is symbolic; otherwise the configured ref resolved (target of a symbolic ref, name of a plain one), absent when it does not resolve |
| TruncateTilesHook.AffectedSpec | geogit/src/main/java/org/geogit/gwc/TruncateTilesOnUpdateRefHook.java:161-197 | the affected layers are exactly the listed ones that are enabled all the way down, tiled, and whose store's head is the moved ref |
| TruncateTilesHook.FindAffectedLayers | geogit/src/main/java/org/geogit/gwc/TruncateTilesOnUpdateRefHook.java:161-197 | the multimap loop, which resolves a store's head only once, returns exactly the specified affected layers in listing order |
| TruncateTilesHook.Filtered | geogit/src/main/java/org/geogit/gwc/TruncateTilesOnUpdateRefHook.java:66-67 | the catalog query returns exactly the enabled layers of GeoGit stores |
| TruncateTilesHook.PostSpec | geogit/src/main/java/org/geogit/gwc/TruncateTilesOnUpdateRefHook.java:100-145 | whenever the post-hook returns, it returns the command's own result |
| TruncateTilesHook.Post | geogit/src/main/java/org/geogit/gwc/TruncateTilesOnUpdateRefHook.java:100-145 | the post-hook's checks, in order, reach the outcome its specification describes |
| TruncateTilesHook.NothingTruncatedWithoutAMove | geogit/src/main/java/org/geogit/gwc/TruncateTilesOnUpdateRefHook.java:105-132 | nothing is truncated when the ref is ignored, the update failed, GWC is not installed, or the ref did not change |
| TruncateTilesHook.IgnoredRefsAreNeverTruncated | geogit/src/main/java/org/geogit/gwc/TruncateTilesOnUpdateRefHook.java:85-108 | an update of WORK_HEAD or STAGE_HEAD returns its result and truncates nothing, whatever else holds |
| TruncateTilesHook.TruncatedLayersFollowTheNewRef | geogit/src/main/java/org/geogit/gwc/TruncateTilesOnUpdateRefHook.java:134-143 | every truncated layer is a listed, enabled, tiled GeoGit layer whose store's head is the ref's new name |
| TruncateTilesHook.HeadPreferenceIsOppositeToIdentifier | geogit/src/main/java/org/geogit/gwc/TruncateTilesOnUpdateRefHook.java:203-205 | with both `branch` and `head` set to different refs, this hook follows `head` while the layer identifier names `branch` |
| MapmeterConfig.BaseUrlFrom | mapmeter/src/main/java/org/opengeo/mapmeter/monitor/config/MapmeterConfiguration.java:164-170 | a configured base URL is the trimmed text, less one trailing slash exactly when it ends in one |
| MapmeterConfig.ParseSettings | mapmeter/src/main/java/org/opengeo/mapmeter/monitor/config/MapmeterConfiguration.java:138-201 | without a file every setting is absent; otherwise each setting is present exactly when its key is (credentials need both user name and password), with the API key and user name trimmed, the base URL normalised, on-premise true only for true/1/yes, and the password decrypted |
| MapmeterConfig.SaveProperties | mapmeter/src/main/java/org/opengeo/mapmeter/monitor/config/MapmeterConfiguration.java:276-294 | the saved file holds exactly the keys of the present settings, and nothing else |
| MapmeterConfig.SavedKeys | mapmeter/src/main/java/org/opengeo/mapmeter/monitor/config/MapmeterConfiguration.java:280-294 | each present setting is saved as its own text, the flag as `true`/`false`, the password encrypted |
| MapmeterConfig.SaveThenRefresh | mapmeter/src/main/java/org/opengeo/mapmeter/monitor/config/MapmeterConfiguration.java:138-201 | saving normalised settings and reading the file back gives the same settings |
| MapmeterConfig.BoolTextParses | mapmeter/src/main/java/org/opengeo/mapmeter/monitor/config/MapmeterConfiguration.java:171-179 | a saved on-premise flag reads back as the same flag |
| MapmeterConfig.LegacyBaseUrl | mapmeter/src/main/java/org/opengeo/mapmeter/monitor/config/MapmeterConfiguration.java:107-114 | the migrated base URL is the legacy URL's scheme, `://` and authority |
| MapmeterConfig.MigratedProperties | mapmeter/src/main/java/org/opengeo/mapmeter/monitor/config/MapmeterConfiguration.java:82-136 | the migrated file carries the legacy API key when there is one, and a base URL exactly when the legacy URL parses as a URI; nothing else |
| MapmeterConfig.OnPremiseByDefault | mapmeter/src/main/java/org/opengeo/mapmeter/monitor/config/MapmeterConfiguration.java:324-326 | without an explicit flag the server is on premise exactly when a non-default base URL is configured |
| MapmeterConfig.Configuration.constructor | mapmeter/src/main/java/org/opengeo/mapmeter/monitor/config/MapmeterConfiguration.java:60-80 | a legacy file is migrated only when the new file does not exist yet, and the settings are then read from the (possibly migrated) file |
| MapmeterConfig.Configuration.RefreshConfig | mapmeter/src/main/java/org/opengeo/mapmeter/monitor/config/MapmeterConfiguration.java:138-201 | all four settings are replaced by what the file says |
| MapmeterConfig.Configuration.GetBaseUrl | mapmeter/src/main/java/org/opengeo/mapmeter/monitor/config/MapmeterConfiguration.java:252-254 | the configured base URL, else the default one |
| MapmeterConfig.Configuration.GetStorageUrl | mapmeter/src/main/java/org/opengeo/mapmeter/monitor/config/MapmeterConfiguration.java:256-258 | the storage URL is the effective base URL followed by the storage suffix |
| MapmeterConfig.Configuration.GetCheckUrl | mapmeter/src/main/java/org/opengeo/mapmeter/monitor/config/MapmeterConfiguration.java:260-262 | the check URL is the effective base URL followed by the check suffix |
| MapmeterConfig.Configuration.GetSystemUpdateUrl | mapmeter/src/main/java/org/opengeo/mapmeter/monitor/config/MapmeterConfiguration.java:264-266 | the system-update URL is the effective base URL followed by its suffix |
| MapmeterConfig.Configuration.GetApiKey | mapmeter/src/main/java/org/opengeo/mapmeter/monitor/config/MapmeterConfiguration.java:268-270 | the system-property override wins over the stored key |
| MapmeterConfig.Configuration.IsApiKeyOverridden | mapmeter/src/main/java/org/opengeo/mapmeter/monitor/config/MapmeterConfiguration.java:316-318 | when overridden, the effective key is the override; otherwise it is the key from the properties file |
| MapmeterConfig.Configuration.GetIsOnPremise | mapmeter/src/main/java/org/opengeo/mapmeter/monitor/config/MapmeterConfiguration.java:324-326 | an explicit flag decides; without one the server is on premise exactly when a base URL other than the default is configured |
| MapmeterConfig.Configuration.SetApiKey | mapmeter/src/main/java/org/opengeo/mapmeter/monitor/config/MapmeterConfiguration.java:272-274 | the stored key becomes the given one |
| MapmeterConfig.Configuration.SetBaseUrl | mapmeter/src/main/java/org/opengeo/mapmeter/monitor/config/MapmeterConfiguration.java:320-322 | the configured base URL becomes the given one |
| MapmeterConfig.Configuration.SetIsOnPremise | mapmeter/src/main/java/org/opengeo/mapmeter/monitor/config/MapmeterConfiguration.java:328-330 | the explicit flag is set and is what the server then reports |
| MapmeterConfig.Configuration.SetCredentials | mapmeter/src/main/java/org/opengeo/mapmeter/monitor/config/MapmeterConfiguration.java:336-338 | the credentials become the given ones |
| MapmeterConfig.Configuration.Save | mapmeter/src/main/java/org/opengeo/mapmeter/monitor/config/MapmeterConfiguration.java:276-314 | the file becomes the saved form of the current settings; the API key is written only when it is stored, never the override |
| MapmeterConfig.Configuration.ClearConfig | mapmeter/src/main/java/org/opengeo/mapmeter/monitor/config/MapmeterConfiguration.java:354-359 | all settings are cleared: default base URL, not on premise, only the override left as API key |
| MapmeterStorageResult.InvalidApiKey | mapmeter/src/main/java/org/opengeo/mapmeter/monitor/saas/MapmeterMessageStorageResult.java:37-39 | a rejected key: not valid and no error |
| MapmeterStorageResult.Error | mapmeter/src/main/java/org/opengeo/mapmeter/monitor/saas/MapmeterMessageStorageResult.java:41-43 | a server-side error: not valid, carrying the error text |
| MapmeterStorageResult.Success | mapmeter/src/main/java/org/opengeo/mapmeter/monitor/saas/MapmeterMessageStorageResult.java:45-47 | an accepted key: valid and no error |
| MapmeterStorageResult.FactoriesAreDistinct | mapmeter/src/main/java/org/opengeo/mapmeter/monitor/saas/MapmeterMessageStorageResult.java:14-47 | every result built by the factories is identified by its validity and error flag alone |
| MapmeterService.Unexpected | mapmeter/src/main/java/org/opengeo/mapmeter/monitor/saas/MapmeterService.java:97-103 | the "unexpected response" failure keeps the reply's status code and replaces its body with the fixed message |
| MapmeterService.TrialFields | mapmeter/src/main/java/org/opengeo/mapmeter/monitor/saas/MapmeterService.java:57-84 | the trial's result is read exactly when the user, organization and server objects hold all five strings, and it carries those strings |
| MapmeterService.TrialOutcome | mapmeter/src/main/java/org/opengeo/mapmeter/monitor/saas/MapmeterService.java:32-95 | an existing API key refuses the trial before any call; an I/O error is rethrown; an error reply fails with its status; a successful reply gives the trial's fields exactly when they are all present, and a reply missing any of them (absent, null or of the wrong type) fails with the unexpected-response exception carrying the reply's status |
| MapmeterService.TrialSucceedsOnWellFormedReply | mapmeter/src/main/java/org/opengeo/mapmeter/monitor/saas/MapmeterService.java:57-94 | a successful reply holding user id, email, password, organization name and server API key gives exactly those values |
| MapmeterService.StartFreeTrial | mapmeter/src/main/java/org/opengeo/mapmeter/monitor/saas/MapmeterService.java:32-95 | the outcome is the specified one; on success the new API key and credentials are stored and saved, and on failure the configuration and its file are untouched |
| MapmeterService.PlanFetch | mapmeter/src/main/java/org/opengeo/mapmeter/monitor/saas/MapmeterService.java:105-131 | a missing API key fails first, then missing credentials unless on premise; otherwise the request uses the configured key, base URL and credentials over the last `days` days ending now |
| MapmeterService.FetchMapmeterData | mapmeter/src/main/java/org/opengeo/mapmeter/monitor/saas/MapmeterService.java:105-139 | a planning failure is the result; otherwise an I/O error is rethrown, the data is the reply's body exactly when the reply is not an error, and an error reply fails with its status, body and the text "Error fetching mapmeter data" |
| MapmeterService.OnPremiseNeedsNoCredentials | mapmeter/src/main/java/org/opengeo/mapmeter/monitor/saas/MapmeterService.java:122-125 | an on-premise server with an API key fetches data without credentials |
| MapmeterService.ConvertOutcome | mapmeter/src/main/java/org/opengeo/mapmeter/monitor/saas/MapmeterService.java:141-177 | without stored credentials the conversion is refused with IllegalStateException; a lookup I/O error is rethrown; an error-status lookup fails with its status and "Failure looking up user in mapmeter"; a lookup without an id fails with the lookup's status, and a non-text id with ClassCastException; once an id is found, a conversion I/O error is rethrown, an error-status conversion fails with its status and "Error converting mapmeter credentials", and a successful conversion gives exactly that id |
| MapmeterService.ConvertMapmeterCredentials | mapmeter/src/main/java/org/opengeo/mapmeter/monitor/saas/MapmeterService.java:141-177 | the outcome is the specified one; on success only the credentials change and are saved, and on failure nothing changes |
| MapmeterService.FindUserState | mapmeter/src/main/java/org/opengeo/mapmeter/monitor/saas/MapmeterService.java:179-207 | without credentials the lookup fails; an I/O error is rethrown; an error reply fails with its status, naming the user; otherwise the user is converted, anonymous or normal exactly according to the two flags of the reply |
| MapmeterService.CheckMessageStorage | mapmeter/src/main/java/org/opengeo/mapmeter/monitor/saas/MapmeterService.java:209-260 | a missing key fails with MissingMapmeterApiKeyException; an I/O error is rethrown; any SaaS error status fails with that status and reply and the text "Failure checking message storage for key: " followed by the key; a storage result is only ever returned for the configured key, after a non-error reply, and is always one built by the three factories |
| MapmeterService.StorageCheckOutcomes | mapmeter/src/main/java/org/opengeo/mapmeter/monitor/saas/MapmeterService.java:234-259 | on a non-error reply, each outcome holds exactly under its condition: `OK` is success; `ERROR` with `INVALID` is an invalid key; `ERROR` with no key status is an error carrying the reply's error text, and a null text fails; any other status or key status, or a non-string field, is an unexpected-response failure carrying the status code |
| MapmeterDataResource.StatusReason | mapmeter/src/main/java/org/geoserver/monitor/rest/MapmeterDataResource.java:80-87 | status 403, 401 and 400 map to `serverExpired`, `missingCredentials` and `invalidApiKey` respectively, and each reason names an element of the widget |
| MapmeterDataResource.Envelope | mapmeter/src/main/java/org/geoserver/monitor/rest/MapmeterDataResource.java:49-91 | fetched data is returned as is; an I/O failure gives only its message; the missing-key and missing-credential failures give their fixed message and reason; a SaaS failure keeps Mapmeter's own string reason, else derives one from the status |
| MapmeterDataResource.FetchResponse | mapmeter/src/main/java/org/geoserver/monitor/rest/MapmeterDataResource.java:49-91 | the resource answers with the fetched data; a missing key or missing credentials give their fixed error and reason; an I/O error gives an envelope holding only its message; an error reply gives "Error fetching mapmeter data" as the error |
| MapmeterDataResource.WidgetReactionToFailures | mapmeter/src/main/resources/org/geoserver/web/mapmeter.js:21-47 | in the page's widget, a missing key shows nothing, missing credentials and each status-derived reason show their own message, any other SaaS failure is only logged |
| MapmeterPage.AddElements | mapmeter/src/main/java/org/geoserver/web/MapmeterPage.java:71-161 | the API key form appears unless the key is overridden (a warning then); on premise no Mapmeter form is shown; the enable form appears exactly without a key, the connection check exactly with one; the convert form exactly for an anonymous user and never together with the credentials form; a 401 on the user lookup flags invalid credentials; a wrong-typed lookup reply fails the page |
| MapmeterPage.ConnectionCheckFeedback | mapmeter/src/main/java/org/geoserver/web/MapmeterPage.java:178-213 | without a key when the page reads it, "API key must be set first."; a key removed before the service reads it, "Missing api key"; an I/O error, "IO Failure connecting to mapmeter"; an error status, "Failure response from mapmeter"; a valid key, the exact info text; otherwise the message for the storage check's outcome; an info message only ever follows a successful check |
| MapmeterPage.StorageCheckFeedback | mapmeter/src/main/java/org/geoserver/web/MapmeterPage.java:185-208 | a storage error shows "Mapmeter error: " and its text, an invalid key "Invalid API key", a valid key the info text; an I/O failure, a SaaS failure and a missing key each show their fixed error text; any other exception shows nothing |
| MapmeterPage.MissingFields | mapmeter/src/main/java/org/geoserver/web/MapmeterPage.java:307-385 | the missing fields are reported exactly when some entry has no visible character; each blank entry's field id is reported and only the form's own ids appear |
| MapmeterPage.AllBlankReportsEveryField | mapmeter/src/main/java/org/geoserver/web/MapmeterPage.java:310-315 | a form left entirely blank reports each of its required fields, in the form's order |
| MapmeterPage.ErrorMessage | mapmeter/src/main/java/org/opengeo/mapmeter/monitor/saas/MapmeterService.java:97-103 | a SaaS failure carries an error message exactly when the reply's "message" entry is text, and then it is that text |
| MapmeterPage.ConvertFailureFeedback | mapmeter/src/main/java/org/geoserver/web/MapmeterPage.java:344-358 | only I/O and SaaS failures are reported, always as errors: the I/O message, or the exception's text with the reply's message appended, or the "Error response from mapmeter" fallback without one |
| MapmeterPage.EnableFailureFeedback | mapmeter/src/main/java/org/geoserver/web/MapmeterPage.java:283-292 | only I/O and SaaS failures of the free trial are reported: "IO Error activating mapmeter: " with the I/O message, or "Error activating mapmeter: " with the SaaS exception's text |
| MapmeterPage.LookupRefusalShowsReplyMessage | mapmeter/src/main/java/org/geoserver/web/MapmeterPage.java:348-357 | a user lookup the SaaS refuses shows "Failure looking up user in mapmeter: " followed by the reply's own message |
| MapmeterPage.MissingIdWithoutMessageShowsFallback | mapmeter/src/main/java/org/geoserver/web/MapmeterPage.java:348-357 | a lookup reply with neither an id nor a message shows the "Error response from mapmeter" fallback around the service's text |
| MapmeterPage.UnexpectedReplyShowsBothTexts | mapmeter/src/test/java/org/opengeo/mapmeter/monitor/saas/MapmeterServiceTest.java:117-122 | an exception raised for a malformed reply shows "Unexpected mapmeter saas response: Unexpected json response from mapmeter saas", the two texts the service test expects |
| MapmeterPage.Page.constructor | mapmeter/src/main/java/org/geoserver/web/MapmeterPage.java:58-69 | a new page shows the chosen forms, no feedback, and the configured key (or nothing) in the key field |
| MapmeterPage.Page.SubmitApiKey | mapmeter/src/main/java/org/geoserver/web/MapmeterPage.java:221-253 | a blank key fails the required field: only the feedback changes, listing that field, and nothing is stored or saved; otherwise the trimmed key becomes the field's value, is stored and saved, the connection check form appears and the user is told the key was saved |
| MapmeterPage.Page.SubmitEnable | mapmeter/src/main/java/org/geoserver/web/MapmeterPage.java:270-294 | the submission succeeds exactly when the trial does; then the trial's key and account are stored and saved, the new key is shown, and the enable form is replaced by the convert and connection-check forms; on failure no form, field, setting or file changes and the I/O or SaaS failure is reported with its own prefix, other exceptions showing nothing new |
| MapmeterPage.Page.SubmitConvert | mapmeter/src/main/java/org/geoserver/web/MapmeterPage.java:307-374 | blank required fields are listed and change nothing else; mismatched passwords change nothing but the feedback; a successful conversion changes only the stored credentials, to the trimmed new ones, saves the settings, and swaps the convert form for the credentials form; a failed one changes no form, setting or file and shows the I/O message, or the SaaS exception's text followed by the reply's own message when it has one, or nothing new for the exceptions the page does not catch |
| MapmeterPage.Page.SubmitSaveCredentials | mapmeter/src/main/java/org/geoserver/web/MapmeterPage.java:376-432 | blank required fields are listed and nothing is stored; mismatched passwords change nothing but the feedback; otherwise the trimmed credentials are stored and saved and the user is told so |
| MapmeterWidget.ElementNamed | mapmeter/src/main/resources/org/geoserver/web/mapmeter.js:28 | a reason names a message element exactly when it is that element's key; `missingApiKey` names none |
| MapmeterWidget.ElementNamedKeyOf | mapmeter/src/main/resources/org/geoserver/web/mapmeter.js:98-105 | every message element is found under its own key |
| MapmeterWidget.MsgEntry | mapmeter/src/main/resources/org/geoserver/web/mapmeter.js:28 | `msg[reason]` is one of the widget's elements exactly when the reason is that element's key, an inherited member exactly for the names every plain object inherits, and undefined otherwise |
| MapmeterWidget.Classify | mapmeter/src/main/resources/org/geoserver/web/mapmeter.js:21-47 | no reply is logged; a truthy error wins over data: its reason shows the named element, ends in a thrown error for a member inherited from Object.prototype, is silent for `missingApiKey`, shows the error text in the unknown slot otherwise, and is only logged without a reason; data without an error draws the chart |
| MapmeterWidget.Apply | mapmeter/src/main/resources/org/geoserver/web/mapmeter.js:21-47 | the chart is shown exactly when it is drawn; the message container is shown exactly when some message is, and never together with the chart; no element shows without the container; the unknown slot's text changes only when that slot is shown |
| MapmeterWidget.NothingVisibleUnlessShown | mapmeter/src/main/resources/org/geoserver/web/mapmeter.js:21-47 | the widget stays hidden exactly when nothing is shown: no reply, a missing key, a logged error or an unknown response |
| MapmeterWidget.ErrorWinsOverData | mapmeter/src/main/resources/org/geoserver/web/mapmeter.js:25-44 | a reply with both an error and data never draws the chart |
| MapmeterWidget.KnownReasonShowsItsSlot | mapmeter/src/main/resources/org/geoserver/web/mapmeter.js:27-31 | a reason naming an element shows the message container and that element only |
| MapmeterWidget.MissingApiKeyIsSilent | mapmeter/src/main/resources/org/geoserver/web/mapmeter.js:32-33 | a missing API key leaves the widget as it was |
| MapmeterWidget.OtherReasonShowsUnknown | mapmeter/src/main/resources/org/geoserver/web/mapmeter.js:28-37 | any other reason shows the message container; an inherited member such as `toString` then throws at `show`, leaving only the container, and every remaining reason shows the unknown slot holding the raw error text |
| MapmeterWidget.JsMax | mapmeter/src/main/resources/org/geoserver/web/mapmeter.js:211 | `Math.max` is a number exactly when both operands are, and then the larger of them |
| MapmeterWidget.JsAdd | mapmeter/src/main/resources/org/geoserver/web/mapmeter.js:212 | the running sum is a number exactly when both operands are, and then their sum |
| MapmeterWidget.Metrics | mapmeter/src/main/resources/org/geoserver/web/mapmeter.js:187-194 | the metrics are exactly the array-valued fields of the data |
| MapmeterWidget.RequestCountAt | mapmeter/src/main/resources/org/geoserver/web/mapmeter.js:201-206 | a point's value is the i-th request count when that exists, and undefined otherwise |
| MapmeterWidget.Column | mapmeter/src/main/resources/org/geoserver/web/mapmeter.js:200-213 | one value per time stamp, the i-th being the i-th request count |
| MapmeterWidget.CharToNumber | mapmeter/src/main/resources/org/geoserver/web/mapmeter.js:183-209 | `1000 * times[i]` on a one-character string: a digit is its value, white space is 0, any other character is NaN |
| MapmeterWidget.StampAt | mapmeter/src/main/resources/org/geoserver/web/mapmeter.js:183-209 | an array entry's date is 1000 times the entry; a character's date is 1000 times its numeric value, and NaN exactly when the character is not a number |
| MapmeterWidget.ShapeChartData | mapmeter/src/main/resources/org/geoserver/web/mapmeter.js:180-216 | a missing or null `time` throws; a value without a length gives an empty chart with invalid dates; otherwise one point per array entry or string character, with the request count as value and the time in milliseconds as date |
| MapmeterWidget.ShapeValues | mapmeter/src/main/resources/org/geoserver/web/mapmeter.js:196-213 | the loop yields exactly the specified points, running maximum and running sum |
| MapmeterWidget.MaxNaNIffMissing | mapmeter/src/main/resources/org/geoserver/web/mapmeter.js:197-213 | the maximum is NaN exactly when some point has no request count |
| MapmeterWidget.MaxBoundsEveryValue | mapmeter/src/main/resources/org/geoserver/web/mapmeter.js:197-213 | a numeric maximum is at least 0 and at least every value |
| MapmeterWidget.MaxIsAttained | mapmeter/src/main/resources/org/geoserver/web/mapmeter.js:197-213 | with all counts present and not negative, the maximum is one of them |
| MapmeterWidget.ChartShape | mapmeter/src/main/resources/org/geoserver/web/mapmeter.js:180-216 | the chart has one point per time stamp, spans the first to the last time stamp, and each point carries its time and request count |
| MapmeterWidget.UnindexedTimeThrows | mapmeter/src/main/resources/org/geoserver/web/mapmeter.js:181-182 | a missing or null `time` makes `times.length` throw |
| MapmeterWidget.TextTimeIsIteratedByCharacter | mapmeter/src/main/resources/org/geoserver/web/mapmeter.js:181-209 | a string `time` yields one point per character: a digit's date is its value in seconds, any other non-blank character's date is invalid, and an empty string gives invalid start and end dates |
| MapmeterWidget.MissingCountIsNotDefaulted | mapmeter/src/main/resources/org/geoserver/web/mapmeter.js:205-211 | without a request_count array every value is undefined and the maximum is NaN |
| YsldTuple.Group | ysld/src/main/java/com/boundlessgeo/ysld/Tuple.java:18-19 | a captured group is null exactly when it is empty |
| YsldTuple.Parse | ysld/src/main/java/com/boundlessgeo/ysld/Tuple.java:10-32 | an accepted text contains the separating comma, and each parsed part is null or a non-empty run of digits that prints back |
| YsldTuple.ParseIsSound | ysld/src/main/java/com/boundlessgeo/ysld/Tuple.java:10-19 | every accepted text has the pattern's layout (optional blanks and parentheses around two digit runs separated by a comma), and the tuple holds its two digit runs |
| YsldTuple.ParseIsComplete | ysld/src/main/java/com/boundlessgeo/ysld/Tuple.java:10-19 | every text with that layout is accepted, giving its two digit runs, an empty run as null |
| YsldTuple.ParsedIsNullIffGroupsEmpty | ysld/src/main/java/com/boundlessgeo/ysld/Tuple.java:18-32 | a parsed tuple is null exactly when both digit runs are empty |
| YsldTuple.ToString | ysld/src/main/java/com/boundlessgeo/ysld/Tuple.java:34-43 | the printed tuple is always enclosed in parentheses |
| YsldTuple.ParseToString | ysld/src/main/java/com/boundlessgeo/ysld/Tuple.java:10-43 | a tuple of digit strings with a second part prints to a text that parses back to the same tuple |
| YsldTuple.ToStringWithoutSecondDoesNotParse | ysld/src/main/java/com/boundlessgeo/ysld/Tuple.java:10-43 | a tuple without a second part prints without a comma, which the pattern rejects |
| YsldTuple.UnbalancedParenthesisIsAccepted | ysld/src/main/java/com/boundlessgeo/ysld/Tuple.java:10 | the two parentheses are optional independently, so `(1,2` parses |
| GdbDataStoreFactory.LastIndex | importer-gdb/src/main/java/org/geoserver/importer/gdb/GDBDataStoreFactory.java:51-54 | the index found is the last occurrence of the character, or -1 when there is none |
| GdbDataStoreFactory.Extension | importer-gdb/src/main/java/org/geoserver/importer/gdb/GDBDataStoreFactory.java:51-54 | a non-empty extension is what follows the file name's last dot, and never holds a dot or a path separator |
| GdbDataStoreFactory.CanProcessExtension | importer-gdb/src/main/java/org/geoserver/importer/gdb/GDBDataStoreFactory.java:51-54 | an accepted name has a three-letter extension and ends with "." followed by it |
| GdbDataStoreFactory.AcceptedHasSuffix | importer-gdb/src/main/java/org/geoserver/importer/gdb/GDBDataStoreFactory.java:51-54 | an accepted file name ends in a dot followed by `gdb` in any case, with no separator after the dot |
| GdbDataStoreFactory.SuffixIsAccepted | importer-gdb/src/main/java/org/geoserver/importer/gdb/GDBDataStoreFactory.java:51-54 | every such name is accepted |
| GdbDataStoreFactory.CanProcessExtensionIffSuffix | importer-gdb/src/main/java/org/geoserver/importer/gdb/GDBDataStoreFactory.java:51-54 | a file name is accepted if and only if it has the `.gdb` suffix, in any case |
| GdbDataStoreFactory.AdvertisedExtensionsAreAccepted | importer-gdb/src/main/java/org/geoserver/importer/gdb/GDBDataStoreFactory.java:28-29 | any name ending in an advertised extension is accepted |
| GdbDataStoreFactory.FileFromParams | importer-gdb/src/main/java/org/geoserver/importer/gdb/GDBDataStoreFactory.java:56-66 | the `file` parameter wins; without it the `url` parameter is converted; without either there is no file; a failing lookup is an I/O error |
| GdbDataStoreFactory.CanProcess | importer-gdb/src/main/java/org/geoserver/importer/gdb/GDBDataStoreFactory.java:68-78 | a parameter map is accepted exactly when a file is found in it and its path is accepted; I/O errors count as not accepted |
| GdbDataStoreFactory.FileParamTakesPrecedence | importer-gdb/src/main/java/org/geoserver/importer/gdb/GDBDataStoreFactory.java:56-73 | with a `file` parameter, acceptance depends on that file's suffix alone |
| GdbDataStoreFactory.CanProcessUrl | importer-gdb/src/main/java/org/geoserver/importer/gdb/GDBDataStoreFactory.java:135-137 | a URL that is not a file URL fails with a null pointer; otherwise it is accepted exactly when its file has the suffix |
| GdbDataStoreFactory.CreateDataStoreFromFile | importer-gdb/src/main/java/org/geoserver/importer/gdb/GDBDataStoreFactory.java:95-107 | a null file and a file that does not exist are refused with their own messages; any other file opens a FileGDB store over it with the given namespace |
| GdbDataStoreFactory.CreateDataStore | importer-gdb/src/main/java/org/geoserver/importer/gdb/GDBDataStoreFactory.java:109-118 | a map without a file is refused; a store is opened exactly when a file is found and the namespace lookup does not fail, over that file, with that namespace |
| GdbDataStoreFactory.CreateNewDataStore | importer-gdb/src/main/java/org/geoserver/importer/gdb/GDBDataStoreFactory.java:126-129 | creating a new store behaves as opening one: refused without a file, otherwise over the file found |
| GdbDataStoreFactory.CreateDataStoreSkipsExistenceCheck | importer-gdb/src/main/java/org/geoserver/importer/gdb/GDBDataStoreFactory.java:99-118 | a missing file named in the parameters still opens a store, while the file-based entry point refuses it |
| GeogitTestData.AttributeSpec | geogit/src/test/java/org/geogit/geoserver/GeoGitTestData.java:257-269 | an accepted piece has a non-empty, colon-free name and, as written, always a value |
| GeogitTestData.FeatureSpec | geogit/src/test/java/org/geogit/geoserver/GeoGitTestData.java:245-271 | an accepted spec has a non-empty fid not seen before, and adds exactly that fid to the map |
| GeogitTestData.AttributesStopAtFirstError | geogit/src/test/java/org/geogit/geoserver/GeoGitTestData.java:256-270 | the first invalid piece decides the error of the whole spec |
| GeogitTestData.SpecsStopAtFirstError | geogit/src/test/java/org/geogit/geoserver/GeoGitTestData.java:244-272 | the first invalid spec decides the error of the whole parse |
| GeogitTestData.ParseAttributes | geogit/src/test/java/org/geogit/geoserver/GeoGitTestData.java:254-270 | the inner loop parses a spec's pieces as specified, stopping at the first invalid one |
| GeogitTestData.ParseFeatureSpec | geogit/src/test/java/org/geogit/geoserver/GeoGitTestData.java:245-271 | one pass of the outer loop gives the specified outcome for one spec: its fid errors, its first attribute error, or the map with the new fid added |
| GeogitTestData.ParseFeatureSpecs | geogit/src/test/java/org/geogit/geoserver/GeoGitTestData.java:240-274 | the outer loop parses the specs as specified, stopping at the first invalid one |
| GeogitTestData.LastAssignmentWins | geogit/src/test/java/org/geogit/geoserver/GeoGitTestData.java:269 | a name's value is the one of its last assignment |
| GeogitTestData.OnlyAssignedNames | geogit/src/test/java/org/geogit/geoserver/GeoGitTestData.java:269 | only assigned names appear among the attributes |
| GeogitTestData.AttributeSpecRoundTrip | geogit/src/test/java/org/geogit/geoserver/GeoGitTestData.java:257-269 | a piece written from a plain name and a non-empty plain value reads back as that assignment |
| GeogitTestData.EmptyValueIsRejected | geogit/src/test/java/org/geogit/geoserver/GeoGitTestData.java:257-268 | as written, a piece with an empty value is refused as an invalid attribute spec, so the null branch is never reached |
| GeogitTestData.IntendedAttributeSpec | geogit/src/test/java/org/geogit/geoserver/GeoGitTestData.java:199 | with the trailing empty string kept, an accepted piece has a non-empty, colon-free name |
| GeogitTestData.IntendedAttributeSpecRoundTrip | geogit/src/test/java/org/geogit/geoserver/GeoGitTestData.java:192-203 | with the trailing empty string kept, every expressible assignment reads back, a null value included; as written, only those with a value do |
| GeogitTestData.AttributesOfRendered | geogit/src/test/java/org/geogit/geoserver/GeoGitTestData.java:253-270 | the pieces written from assignments with values read back as the map those assignments mean |
| GeogitTestData.FeatureSpecRoundTrip | geogit/src/test/java/org/geogit/geoserver/GeoGitTestData.java:245-271 | a spec written from a new plain fid and assignments with values reads back as its attribute map under its fid |
| GeogitTestData.ParsedSpecsAreKeyedByFid | geogit/src/test/java/org/geogit/geoserver/GeoGitTestData.java:240-274 | a successful parse holds exactly one entry per spec, under the spec's own fid, with no fid repeated |
| GeogitTestData.SeparatorOnlyGivesNoAttributes | geogit/src/test/java/org/geogit/geoserver/GeoGitTestData.java:253-256 | a spec whose attribute part is a lone `;` is accepted with no attributes, despite the format's "one or more" |
| GsrFakeServlet.RequestUriIsContextPathAndPathInfo | gsr/src/main/java/org/opengeo/gsr/ms/util/FakeHttpServletRequest.java:67-69 | the fixed request URI is the context path followed by the path info |
| GsrFakeServlet.GetParameter | gsr/src/main/java/org/opengeo/gsr/ms/util/FakeHttpServletRequest.java:127-129 | a parameter's value is the query's value, and null exactly when the query lacks the name |
| GsrFakeServlet.GetParameterMap | gsr/src/main/java/org/opengeo/gsr/ms/util/FakeHttpServletRequest.java:131-137 | the parameter map has the query's names, each with its value as a one-element array |
| GsrFakeServlet.GetParameterNames | gsr/src/main/java/org/opengeo/gsr/ms/util/FakeHttpServletRequest.java:139-141 | no parameter names are reported, whatever the query holds |
| GsrFakeServlet.GetParameterValues | gsr/src/main/java/org/opengeo/gsr/ms/util/FakeHttpServletRequest.java:143-145 | no parameter values are reported, whatever the query holds |
| GsrFakeServlet.ParameterAccessorsDisagree | gsr/src/main/java/org/opengeo/gsr/ms/util/FakeHttpServletRequest.java:127-145 | a name in the query has a value through getParameter but appears among neither the names nor the values |
| GsrFakeServlet.GetAttribute | gsr/src/main/java/org/opengeo/gsr/ms/util/FakeHttpServletRequest.java:43-45 | every attribute reads as null |
| GsrFakeServlet.SetAttribute | gsr/src/main/java/org/opengeo/gsr/ms/util/FakeHttpServletRequest.java:261-265 | setting an attribute leaves the request as it was |
| GsrFakeServlet.SetAttributeIsNotStored | gsr/src/main/java/org/opengeo/gsr/ms/util/FakeHttpServletRequest.java:43-45 | an attribute just set still reads as null, and the parameters are unchanged |
| GsrFakeServlet.ByteBuffer.Write | gsr/src/main/java/org/opengeo/gsr/ms/util/FakeHttpServletResponse.java:156-165 | writing an int appends its low eight bits to the body |
| GsrFakeServlet.LowBytes | gsr/src/main/java/org/opengeo/gsr/ms/util/FakeHttpServletResponse.java:156-165 | one byte per written value, each the value's low eight bits |
| GsrFakeServlet.ServletOutputStream.Write | gsr/src/main/java/org/opengeo/gsr/ms/util/FakeHttpServletResponse.java:156-165 | the stream appends the value's low eight bits to its buffer |
| GsrFakeServlet.ServletOutputStream.WriteAll | gsr/src/main/java/org/opengeo/gsr/ms/util/FakeHttpServletResponse.java:156-165 | writing several values appends their low bytes in order |
| GsrFakeServlet.FakeResponse.constructor | gsr/src/main/java/org/opengeo/gsr/ms/util/FakeHttpServletResponse.java:14-20 | a new response has no body, no stream and no content type |
| GsrFakeServlet.FakeResponse.GetOutputStream | gsr/src/main/java/org/opengeo/gsr/ms/util/FakeHttpServletResponse.java:85-91 | the first call creates an empty body and its stream; later calls return the same stream and keep the body |
| GsrFakeServlet.FakeResponse.GetBodyBytes | gsr/src/main/java/org/opengeo/gsr/ms/util/FakeHttpServletResponse.java:151-154 | the body written so far, or an illegal-state error exactly when no stream was ever asked for |
| GsrFakeServlet.FakeResponse.SetContentType | gsr/src/main/java/org/opengeo/gsr/ms/util/FakeHttpServletResponse.java:120-122 | the content type read back is the one set |
| GsrFakeServlet.FakeResponse.GetStatus | gsr/src/main/java/org/opengeo/gsr/ms/util/FakeHttpServletResponse.java:93-95 | the status is always 0 |
| GsrFakeServlet.FakeResponse.ContainsHeader | gsr/src/main/java/org/opengeo/gsr/ms/util/FakeHttpServletResponse.java:34-36 | no header is ever reported |
| GsrFakeServlet.FakeResponse.SetStatus | gsr/src/main/java/org/opengeo/gsr/ms/util/FakeHttpServletResponse.java:145-149 | setting a status leaves every field of the response unchanged |
| GsrFakeServlet.WrittenBytesAreTheBody | gsr/src/main/java/org/opengeo/gsr/ms/util/FakeHttpServletResponse.java:65-154 | on a fresh response, the bytes written through the stream, even when fetched twice, are the body in order, and the content type set is the one read |
| GsrFakeServlet.UnwrittenBodyIsAnError | gsr/src/main/java/org/opengeo/gsr/ms/util/FakeHttpServletResponse.java:93-154 | a response never written to refuses its body and reports status 0 even after a status was set |
| ImporterResource.Indexed | importer/src/main/java/org/opengeo/data/importer/rest/BaseResource.java:33-55 | an index below the size gives that element, a negative one fails as `List.get` does, and one at or past the end is null |
| ImporterResource.Context | importer/src/main/java/org/opengeo/data/importer/rest/BaseResource.java:19-31 | an unparsable id is a number-format error; the import is found exactly when the id parses to a known one; an unknown id is null when optional and a 404 otherwise |
| ImporterResource.Task | importer/src/main/java/org/opengeo/data/importer/rest/BaseResource.java:33-55 | a task is only looked up inside a found import and is the import's task at the parsed index; a null task is only possible when optional |
| ImporterResource.Item | importer/src/main/java/org/opengeo/data/importer/rest/BaseResource.java:57-79 | an item is only looked up inside a found task and is the task's item at the parsed index; a null item is only possible when optional, otherwise a 400 |
| ImporterResource.ContextOfPrintedId | importer/src/main/java/org/opengeo/data/importer/rest/BaseResource.java:19-31 | the import named by its printed id is found; a missing one is null or a 404 naming the id |
| ImporterResource.TaskOfPrintedIndex | importer/src/main/java/org/opengeo/data/importer/rest/BaseResource.java:33-55 | a printed task index selects that task, fails when negative, and past the end is null or a 404 naming task and import |
| ImporterResource.MissingTaskIsNotFound | importer/src/main/java/org/opengeo/data/importer/rest/BaseResource.java:33-55 | a missing task attribute is null when optional and a 404 otherwise |
| ImporterResource.ItemOfPrintedIndex | importer/src/main/java/org/opengeo/data/importer/rest/BaseResource.java:57-79 | a printed item index selects that item, fails when negative, and past the end is null or a 400 |

## Left out

- JavaNumbers.ParseDecimal: only ASCII digits are read. `Long.parseLong` and `Integer.parseInt` read each digit with `Character.digit`, which accepts every Unicode decimal digit ("١٢" is 12), so ImporterResource.Context, ImporterResource.Task and ImporterResource.Item report a number-format error on such an id, which the source resolves. The Unicode digit table is not modelled.
- Widget rendering: d3 scales, axes, SVG paths and their floating-point geometry in `mapmeter.js`. Also `createDomElements`, the `$.getJSON` call, and the login-link detection in `mapmeterHome.js`. The envelope the fetch delivers is an input.
- MapmeterWidget.ShapeChartData: sample values are integers (or `NaN`), not JavaScript doubles, because floating point is not modelled.
- MapmeterWidget.ShapeChartData: a `time` object with its own `length` property, and array entries that are not numbers, are not modelled. A field is an array of integers, null, a string, or a value without a length.
- MapmeterWidget.Metrics: `$.each` treats a `data` object with a numeric `length` property as array-like and walks its indices instead of its keys (`{"length": 0, "request_count": [...]}` gives no metrics); the model always walks the keys, because the data object is a map of fields.
- MapmeterWidget.CharToNumber: U+180E, which engines before Unicode 6.3 also strip as white space, is not in the white-space set.
- MapmeterPage.ErrorMessage: `MapmeterSaasException` is not part of this model. Its `getErrorMessage()` is read as the reply's "message" entry when that entry is text, and as absent otherwise.
- MapmeterPage.Page.SubmitApiKey: a failing save ("Failure saving api key: ") is not modelled, because configuration file I/O is not modelled. Wicket's wording of the required-field message is not modelled either: the feedback lists the ids of the blank fields.
- MapmeterPage.Page.SubmitSaveCredentials: a failing save ("Failure saving mapmeter credentials: ") is not modelled, because configuration file I/O is not modelled.
- The Mapmeter SaaS client is network I/O. Each reply (status, error flag, JSON map, or an IOException) is an input `Reply`. The `synchronized` blocks of `MapmeterService` are concurrency and are not modelled.
- Mapmeter configuration file I/O is not modelled. The properties files are optional string maps held by the configuration object. PBE encryption and decryption are a pair of functions passed to the operations that use them, and `Closer`/`Files` error handling is left out.
- MapmeterConfig.LegacyBaseUrl: the scheme and authority of the legacy URL come from a URL parser passed in as a function, because `java.net.URL` parsing is not modelled.
- The cloudwatch module (metric timers, AWS clients, caches) is not modelled. It is concurrent metric collection with floating-point rates.
- The GeoServices map resources (export, tiles, catalog and layer resources) are REST and dispatcher plumbing with floating-point bbox maths. Only the fake servlet request and response are modelled.
- Thin wrappers over libraries not in this model are left out: the diff-bounds walk, the repository cache, the GeoServer repository provider and resolver, the life-cycle listener, the repository list resource and the data store factory wrapper.
- The ysld parse handlers depend on SnakeYAML events and GeoTools factories. Only `Tuple` is modelled.
- Wicket pages and panels with no decision logic are not modelled: whitelist editors, remotes page, repository lists and edit pages, directory data view, data store edit panel, and the confirm-removal panel. The directory validators are file-system checks and are left out too. For the modelled panels, their decision logic and the state they change are modelled, and on the Mapmeter page also the required-field checks. Wicket's form-model plumbing (model objects, AJAX targets, component refreshes) is not.
- RemoteEditPanel.RemoteEditPanel.Submit: editing an existing remote changes that remote through the shared Wicket model. The model only states that the table is not appended to. The ping link (`RemotePingLink`) is network I/O.
- The importer item resources (`ItemResource`, `ItemLayerResource`, `ImportItemModel`) are catalog and CRS plumbing and are not modelled. `importer.getContext(id)` is a map from ids to imports.
- The whitelist rules, `WhitelistRule`, `MapmeterEnableResult` and `GeoGigConnector` are plain datatypes.
- `ConfigStore.getWhitelist()`, which the security hook calls, is not part of the shown configuration store. The rule list, or the failure to read it, is an input of the hooks.
- `RepositoryInfo.getId`/`setId`, which the configuration store uses, are not part of the shown record class. The record carries an optional id field.
- GeogigConfigStore.UuidText: `UUID.randomUUID()` is a number passed in per call, printed in the 8-4-4-4-12 form. Its randomness is not modelled.
- GeogigConfigStore.ConfigStore.GetRepositories: the order of the directory listing is the order of the modelled file sequence. XStream serialisation is not modelled: a file holds either a record or `Unparsable` content.
- GeogigInitializer.StoreByRepository: the keys of the `ArrayListMultimap` are listed first seen first. `keySet()` iterates them in hash order, which is not modelled. GeogigInitializer.GeoGigInitializer.UpgradeAll works for any duplicate-free order of the keys, but GeogigInitializer.GeoGigInitializer.Initialize states its files for the first-seen order. The final catalog (`InitializedStores`) does not depend on the order. The created files depend on it only in their position in the listing.
- GeogigInitializer.GeoGigInitializer.Create: the save is taken to succeed. A failing write would propagate out of `initialize` as an unchecked exception; that path is modelled in GeogigConfigStore.ConfigStore.Save only.
- GeogigConfigStore.ConfigStore.Save: a failing write is taken to leave the file as it was. A partly written file is not modelled.
- GeogigRepositoryManager.GetAll: the `HashMap` is a Dafny `map`, so its iteration order is not modelled. `File` canonicalisation of the location is the path normalisation of `JavaFiles`.
- GeogigDirectoryChooser.Roots: the sorting of `File.listRoots()` and the existence of files are inputs.
- GeogigDirectoryModel.DirectoryModel.SetObject: the data directory's canonical file and the data-dir URL resolution (`Files.url`) are inputs.
- TruncateTilesHook.Post: the truncation itself (`TruncateHelper` tasks and GeoWebCache seeding) is not modelled. The model returns the layers to truncate. Ref resolution in the repository is an input map.
- NetworkSecurityHook.Pre: URL parsing is an input function that yields protocol and host, or "malformed".
- SecurityLogger.Logger.Write: log4j levels and appenders are a list of entries. Parameter values are plain text; Java's `toString` of lists and numbers is not modelled.
- GdbDataStoreFactory.CreateDataStore: opening the OGR data store, `isAvailable` and `getImplementationHints` are not modelled. `Param.lookUp` is modelled as the parameter map's value, present, missing or failing. A non-`file:` URL resolves through a function passed in.
- GsrFakeServlet: only the request accessors that return something other than null or a constant, plus the body/stream/content-type state of the response, are modelled. Sessions, cookies, locales, `getWriter`, the remaining null-returning accessors and the no-op setters are left out, beyond the representative `GetAttribute`, `SetAttribute`, `GetStatus`, `ContainsHeader` and `SetStatus`.
- Test/code mismatches are resolved by following the main code:
  - the geogit listener test expects the identifier "workspace:store", but the code builds `workspace:store:nativeName[:ref]`;
  - the configuration store test saves the ids "uuid" and "1", which `checkId` refuses;
  - the GDB factory test exercises a CSV factory, not the FileGDB one.

## Findings

| source | as written | input that shows it | evidently intended | confidence | as-written member | corrected member |
|---|---|---|---|---|---|---|
| geogig/src/main/java/org/geogig/geoserver/config/GeoGigInitializer.java:45-79 | Known records are indexed by location only. A store the initializer already rewired holds a record id, not a path, in `REPOSITORY`. So every later start-up creates a new record, with no location, and rewires the store again. | a store with `REPOSITORY` = "/data/repo" and no record: the first start-up gives it a UUID id; at the second start-up that UUID matches no record location | a store whose `REPOSITORY` already names a saved record's id is left alone, so a second start-up changes nothing | not executed | GeogigInitializer.UpgradedStoresAreUpgradedAgain | GeogigInitializer.CorrectedInitializeIsIdempotent |
| geogit/src/test/java/org/geogit/geoserver/GeoGitTestData.java:257-268 | `attSpec.split(":")` drops the trailing empty string, so "att:" has one part and is rejected as an invalid attribute spec. The null branch for an empty value is never taken. | the feature spec "id=att:" | an empty value is read as null, as the method's documentation (line 199) says; `split(":", -1)` keeps the empty part | not executed | GeogitTestData.EmptyValueIsRejected | GeogitTestData.IntendedAttributeSpecRoundTrip |
