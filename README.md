# A verified model of the Our.Umbraco.Migration content migration engine

Our.Umbraco.Migration moves the stored values of an Umbraco site from one
data-type representation to another. Numeric content ids become
`umb://kind/guid` UDIs and back, and the JSON blobs of Archetype, Grid,
RJP Multi URL Picker, nuPickers and Maps are rewritten. It also records which
versioned product migrations have already run. This project models the
engine's core in Dafny and proves what that code promises.

The model has four parts:

- **UDI codecs**:
  - `IdToUdi` and `UdiToId` model the current transforms with their static caches.
  - `LegacyIdToUdi` models the legacy transform and the legacy instance-cached mapper.
  - `Udis` and `Guids` hold the UDI text format and the 32-digit "N" guid format.
  - A cache is a class with a `map` field, and a lookup that misses is cached too.
  - Starting from a cache that agrees with the repository, the cached run gives the same answers as one without a cache.
- **Transform runner and counting**:
  - `FieldTransform` models `TryMap`, `RemapContent` and the merge of the per-field `Counts`.
  - The content node is a class whose fields the transforms overwrite.
  - A field is written only when its mapped value differs from its old one.
  - A node is saved only when some field changed.
  - A failed save turns that node's successes into save errors.
  - Merging a node's tallies into the run's adds them field by field, and the order of merging does not matter.
  - `ContentMapper` models the pre-change published state and the save dispatch by base type.
- **Schema coordination**:
  - `ContentsByType` and `LegacyContentsByType` model the content-type relation table, the descendant closure and the paging loop.
  - `DataTypeMigration` models the data-type migration loop of `IdToUdiMigration`.
    - The include/exclude filter.
    - A content migration is staged, then dropped if its schema write fails.
    - Pre-value equivalence.
    - Each data type is updated exactly once.
  - `TypeMappings` models the related-type walk.
  - `DataTypeMigratorFactory` and `GridAliasMigratorFactory` model the two alias registries.
    - They infer an alias from a class-name suffix.
    - They accept overwrites as the source allows.
    - They memoise created migrators, including misses.
- **Version resolution and value recoders**:
  - `ProductResolver` and `LegacyProductResolver` model discovery of the migrations for each product, the allow-list, and the choice of which upgraders to run.
  - `Versions` holds semantic versions as (major, minor, patch) triples; prerelease and build parts are left out.
  - `VersionedUpgrader` models the ordered upgrade plan and its final state.
  - Recoders, each proved against its partner:
    - `JsonContent` and `LegacyJsonContent`: the JSON-subtree migration through the one-property virtual node;
    - `Archetype`, `Grid`, `MultiUrlPicker`: the JSON path extractors;
    - `NuPicker` and `Maps`: value recoders;
    - `MediaPicker`: the legacy pre-value rewrite;
    - `Composition`: the composition alias rule.

Shared modules:

- `Wrappers`: `Option` and `Result`. A `Result` error stands for a thrown exception.
- `Text`: splitting, joining, trimming, Int32 parsing and formatting, and ASCII lower case.
- `Json`: a JSON datatype with its compact serialiser.
- `Platform`: values and the content repository.
- `Transforms`: property transforms and migrations as records of function values.
- `Sets`: set and sequence helpers.

The host's services (content, media, member and content-type services),
UDI parsing, JSON parsing and semantic-version parsing are parameters of the
model: the `Services` record and function-valued arguments.

## Model

| member | source | states |
|---|---|---|
| IdToUdi.TokenRules | src/Our.Umbraco.Migration/IdToUdiTransform.cs:61-91 | a non-integer token that parses as a udi is passed through; any other non-integer token is kept exactly when `retainInvalidData` is set and dropped otherwise; an integer token is dropped exactly when no node of the kind has that id, whatever the flag |
| IdToUdi.ResolvedShape | src/Our.Umbraco.Migration/IdToUdiTransform.cs:58-87 | a resolved udi is "umb://" + the lower-case kind name + "/" + the 32-digit dash-free key, and it parses back as that kind and key |
| IdToUdi.MapTokensOrigin | src/Our.Umbraco.Migration/IdToUdiTransform.cs:47 | every output token is the answer for some input token, and every non-null answer is in the output |
| IdToUdi.MapTokensAllKept | src/Our.Umbraco.Migration/IdToUdiTransform.cs:47 | when no token is dropped, the output is the pointwise answer in input order |
| IdToUdi.TokenUdiIsToken | src/Our.Umbraco.Migration/IdToUdiTransform.cs:61-91 | the answer for a non-empty, comma-free token is again non-empty and comma-free |
| IdToUdi.MapTokensAreTokens | src/Our.Umbraco.Migration/IdToUdiTransform.cs:47-48 | the output list is a list of non-empty, comma-free tokens, so splitting the joined text gives it back |
| IdToUdi.TokenUdiIdempotent | src/Our.Umbraco.Migration/IdToUdiTransform.cs:61-64 | if every udi the transform writes parses as a udi, then answering an answer again returns it unchanged |
| IdToUdi.MapTokensIdempotent | src/Our.Umbraco.Migration/IdToUdiTransform.cs:47-48 | mapping an already mapped token list again changes nothing |
| IdToUdi.MapValueIdempotent | src/Our.Umbraco.Migration/IdToUdiTransform.cs:43-51 | mapping an already mapped value again changes nothing, so a second migration run is inert |
| IdToUdi.RunTransparent | src/Our.Umbraco.Migration/IdToUdiTransform.cs:53-91 | with a cache that agrees with the repository, the memoised run gives the cache-free answers, keeps the cache sound, only grows it, looks an id up only when it was not cached, and caches every looked-up id, misses included |
| IdToUdi.UdiCache.For | src/Our.Umbraco.Migration/IdToUdiTransform.cs:12-21 | the per-kind cache is created empty on first use of a kind and is reused unchanged afterwards |
| IdToUdi.MapToUdiWith | src/Our.Umbraco.Migration/IdToUdiTransform.cs:61-91 | one token through the cache: the answer, the new cache entries and the ids looked up are those of the cache step |
| IdToUdi.MapToUdi | src/Our.Umbraco.Migration/IdToUdiTransform.cs:55-92 | the static lookup picks the kind's shared cache (creating it when absent) and answers as the cache step does; no other kind's cache changes; a sound shared cache, with no cache shared by two kinds, stays sound |
| IdToUdi.IdToUdiTransform.constructor | src/Our.Umbraco.Migration/IdToUdiTransform.cs:17-23 | the transform records kind, flag and lower-case kind name and shares the kind's cache, creating it only when absent |
| IdToUdi.IdToUdiTransform.MapAll | src/Our.Umbraco.Migration/IdToUdiTransform.cs:47 | the select-and-filter over the tokens gives the run's kept answers and leaves the cache as the run does |
| IdToUdi.IdToUdiTransform.Map | src/Our.Umbraco.Migration/IdToUdiTransform.cs:43-51 | non-strings are returned unchanged with the cache untouched; strings are split, each token is run through the cache and the kept answers are joined; with a sound cache the result is the cache-free map and the cache stays sound |
| UdiToId.KindOfHost | src/Our.Umbraco.Migration/UdiToIdTransform.cs:45-56 | only the hosts "document", "media" and "member" select a lookup, each the kind whose lower-case name it is |
| UdiToId.KindOfTypeName | src/Our.Umbraco.Migration/UdiToIdTransform.cs:45-56 | the udi host written for each kind selects that kind again |
| UdiToId.MapTokens | src/Our.Umbraco.Migration/UdiToIdTransform.cs:32-33 | one output per input token, in order, each the token's id or the token itself |
| UdiToId.RunTransparent | src/Our.Umbraco.Migration/UdiToIdTransform.cs:39-63 | with a sound cache, the memoised run gives the cache-free answers, keeps the cache sound, and looks up only well-formed udis that were not cached, each once |
| UdiToId.MapToId | src/Our.Umbraco.Migration/UdiToIdTransform.cs:33-63 | one token through the cache: the answer (the token itself when there is no id), the new entries and the udis looked up are those of the cache step |
| UdiToId.UdiToIdTransform.MapAll | src/Our.Umbraco.Migration/UdiToIdTransform.cs:32-33 | the select over the tokens gives the run's answers and leaves the cache as the run does |
| UdiToId.UdiToIdTransform.Map | src/Our.Umbraco.Migration/UdiToIdTransform.cs:28-37 | non-strings come back unchanged with the cache untouched; strings are split, mapped through the cache and joined; with a sound cache the result is the cache-free map |
| UdiToId.MapValueKeepsTokens | src/Our.Umbraco.Migration/UdiToIdTransform.cs:32-34 | no token is dropped: one output per non-empty input token, and a token that is not a udi stays as it is |
| UdiToId.TokenRoundTrip | src/Our.Umbraco.Migration/UdiToIdTransform.cs:39-62 | the udi written for an existing node reads back as that node's id |
| UdiToId.TokensRoundTrip | src/Our.Umbraco.Migration/UdiToIdTransform.cs:32-33 | for a list of existing node ids, every token resolves and reads back as itself |
| UdiToId.MapTokensRoundTrip | src/Our.Umbraco.Migration/UdiToIdTransform.cs:32-34 | converting existing ids to udis and back gives the original token list |
| UdiToId.IdsRoundTrip | src/Our.Umbraco.Migration/UdiToIdTransform.cs:28-37 | converting a stored id list to udis and back gives the list with empty entries removed, when every id names an existing node of the kind and is written in its canonical decimal form (an id written "007" is not covered) |
| UdiToId.TokenReverseRoundTrip | src/Our.Umbraco.Migration/UdiToIdTransform.cs:39-62 | the id read from an existing node's udi maps back to that udi |
| Udis.ParseUdiFor | src/Our.Umbraco.Migration/UdiToIdTransform.cs:42 | a udi written for a kind parses (absolute URI, non-blank host, guid path) back to that host and guid |
| Udis.UdiForIsToken | src/Our.Umbraco.Migration/IdToUdiTransform.cs:47-87 | a written udi is a non-empty, comma-free token that never parses as an integer |
| Guids.ParseFormatN | src/Our.Umbraco.Migration/UdiToIdTransform.cs:42 | the "N" text of a guid parses back to that guid |
| Transforms.TryGet | src/Our.Umbraco.Migration/IdToUdiTransform.cs:28-36 | the text getter reports nothing for a missing property and otherwise only string values |
| Transforms.SetValue | src/Our.Umbraco.Migration/IdToUdiTransform.cs:38-41 | a write to a stored node replaces exactly that field |
| Transforms.UnchangedIffEqual | src/Our.Umbraco.Migration/Our.Umbraco.Migration/FieldTransformMigration.cs:197 | the three-way "unchanged" test (both null, or either value equals the other) holds exactly when the two values are equal |
| FieldTransform.Add | src/Our.Umbraco.Migration/Our.Umbraco.Migration/FieldTransformMigration.cs:165-169 | the component-wise sum of two tallies has the sum of their totals |
| FieldTransform.TryMapWritesIffChanged | src/Our.Umbraco.Migration/Our.Umbraco.Migration/FieldTransformMigration.cs:192-201 | TryMap writes exactly when the read succeeded and the mapped value differs from the read one; then the field holds the mapped value and no other field changes |
| FieldTransform.TryMap | src/Our.Umbraco.Migration/Our.Umbraco.Migration/FieldTransformMigration.cs:192-201 | the method's result and the node's fields are those of the TryMap specification |
| FieldTransform.SaveFailed | src/Our.Umbraco.Migration/Our.Umbraco.Migration/FieldTransformMigration.cs:141-145 | every field keeps its tally; its successes become save errors and its successes are zero |
| FieldTransform.OtherFailed | src/Our.Umbraco.Migration/Our.Umbraco.Migration/FieldTransformMigration.cs:151-155 | every field keeps its tally; its successes become other errors and its successes are zero |
| FieldTransform.MergeCounts | src/Our.Umbraco.Migration/Our.Umbraco.Migration/FieldTransformMigration.cs:160-171 | the merged tallies cover exactly the fields of the run and of the node |
| FieldTransform.RunCounts.Merge | src/Our.Umbraco.Migration/Our.Umbraco.Migration/FieldTransformMigration.cs:160-171 | the finally loop leaves the run's tallies equal to the merge of the old ones with the node's |
| FieldTransform.MapField | src/Our.Umbraco.Migration/Our.Umbraco.Migration/FieldTransformMigration.cs:111-130 | one pass of the field loop, catch included, leaves fields, tallies and the changed flag as the loop step says |
| FieldTransform.RemapContent | src/Our.Umbraco.Migration/Our.Umbraco.Migration/FieldTransformMigration.cs:100-173 | fields, merged tallies and whether the node was saved are those of the per-node specification |
| FieldTransform.FieldsRunTallies | src/Our.Umbraco.Migration/Our.Umbraco.Migration/FieldTransformMigration.cs:109-131 | after the field loop every mapper key has a tally holding only successes and unchanged counts, at most one per mapper of that key; the node changed exactly when some tally has a success, and an unchanged node keeps its fields |
| FieldTransform.RemapOutcome | src/Our.Umbraco.Migration/Our.Umbraco.Migration/FieldTransformMigration.cs:100-173 | a node is saved exactly when the pre-change state was read and some field changed; map and other errors stay zero; after a failed save no field keeps a success and each has as many save errors as it had successes; a node that is not saved keeps its fields |
| FieldTransform.MergeOrderIrrelevant | src/Our.Umbraco.Migration/Our.Umbraco.Migration/FieldTransformMigration.cs:160-171 | merging two nodes' tallies into the run gives the same result in either order |
| FieldTransform.MergeAdds | src/Our.Umbraco.Migration/Our.Umbraco.Migration/FieldTransformMigration.cs:160-171 | merging adds the node's total to the run's total field by field, and a new field's tally is stored as it is |
| LegacyIdToUdi.MapTokens | src/Our.Umbraco.Migration/Our.Umbraco.Migration/IdToUdiTransform.cs:44 | one output per input token, in order: no token is dropped |
| LegacyIdToUdi.TokenRules | src/Our.Umbraco.Migration/Our.Umbraco.Migration/IdToUdiTransform.cs:44-74 | a non-integer token is written back as it is; an integer with no node is written back as it is; an existing node's id becomes "umb://" + lower-case kind + "/" + its "N" key |
| LegacyIdToUdi.TokenUdiIsToken | src/Our.Umbraco.Migration/Our.Umbraco.Migration/IdToUdiTransform.cs:44-69 | the text written for a non-empty comma-free token is again one, and a rewritten token no longer parses as an integer |
| LegacyIdToUdi.MapValueIdempotent | src/Our.Umbraco.Migration/Our.Umbraco.Migration/IdToUdiTransform.cs:40-48 | mapping an already mapped value again changes nothing |
| LegacyIdToUdi.AgreesWithRetaining | src/Our.Umbraco.Migration/Our.Umbraco.Migration/IdToUdiTransform.cs:44 | when every integer token names an existing node, the legacy transform and the current one with retainInvalidData set write the same tokens |
| LegacyIdToUdi.RunTransparent | src/Our.Umbraco.Migration/Our.Umbraco.Migration/IdToUdiTransform.cs:50-74 | with a sound cache the memoised run equals the cache-free map, the cache stays sound and only grows, an id is looked up only when not cached, at most once, and misses are cached |
| LegacyIdToUdi.MapToken | src/Our.Umbraco.Migration/Our.Umbraco.Migration/IdToUdiTransform.cs:44-74 | one token through the cache with the "?? id" fallback: answer, entries and lookups are those of the cache step |
| LegacyIdToUdi.MapAll | src/Our.Umbraco.Migration/Our.Umbraco.Migration/IdToUdiTransform.cs:44 | the select over the tokens gives the run's answers and leaves the cache as the run does |
| LegacyIdToUdi.IdToUdiTransform.constructor | src/Our.Umbraco.Migration/Our.Umbraco.Migration/IdToUdiTransform.cs:16-21 | the transform records the kind and its lower-case name and shares the kind's cache, creating it only when absent |
| LegacyIdToUdi.IdToUdiTransform.Map | src/Our.Umbraco.Migration/Our.Umbraco.Migration/IdToUdiTransform.cs:40-48 | non-strings come back unchanged with the cache untouched; strings are split, mapped through the cache and joined; with a sound cache the result is the cache-free map |
| LegacyIdToUdiMapper.IdToUdiMapper.constructor | src/Our.Umbraco.Migration/Our.Umbraco.Migration/IdToUdiMapper.cs:11-23 | a new mapper has an empty fresh cache and an empty kind name |
| LegacyIdToUdiMapper.IdToUdiMapper.SetType | src/Our.Umbraco.Migration/Our.Umbraco.Migration/IdToUdiMapper.cs:14-22 | setting the kind also sets the lower-case kind name and keeps the cache |
| LegacyIdToUdiMapper.IdToUdiMapper.SetKnownIds | src/Our.Umbraco.Migration/Our.Umbraco.Migration/IdToUdiMapper.cs:23 | replacing the cache changes nothing else |
| LegacyIdToUdiMapper.IdToUdiMapper.Map | src/Our.Umbraco.Migration/Our.Umbraco.Migration/IdToUdiMapper.cs:40-74 | the mapper's Map follows the legacy transform's rule over its own cache, written with its current kind name |
| LegacyIdToUdiMapper.ConfiguredMap | src/Our.Umbraco.Migration/Our.Umbraco.Migration/IdToUdiMapper.cs:14-74 | a mapper whose kind is set and whose cache is sound writes the same text as the legacy transform of that kind, and the cache stays sound |
| ContentsByType.AddEdge | src/Our.Umbraco.Migration/ContentsByTypeSource.cs:107-111 | adding an edge creates the parent's set when absent and leaves every other parent's set as it was |
| ContentsByType.AddEdgeMembers | src/Our.Umbraco.Migration/ContentsByTypeSource.cs:107-111 | after adding p to c, c is below p in addition to the old edges and nothing else; sets never repeat an id; re-adding an edge changes nothing |
| ContentsByType.AddAllMembers | src/Our.Umbraco.Migration/ContentsByTypeSource.cs:95-101 | the composition loop adds exactly one edge from each composition id to the child |
| ContentsByType.DefEdgesMembers | src/Our.Umbraco.Migration/ContentsByTypeSource.cs:90-101 | one definition adds an edge from its parent only when the parent id is positive, and one from each composition id |
| ContentsByType.RelationsOfMembers | src/Our.Umbraco.Migration/ContentsByTypeSource.cs:84-105 | x is directly below p exactly when some definition with id x has p as its positive parent id or among its composition ids; no set repeats an id |
| ContentsByType.RelationTable.AddRelation | src/Our.Umbraco.Migration/ContentsByTypeSource.cs:107-111 | the table after the call is the old one with the edge added |
| ContentsByType.GetRelationships | src/Our.Umbraco.Migration/ContentsByTypeSource.cs:84-105 | the loops fill a fresh table equal to the relations the definitions declare |
| ContentsByType.Closure | src/Our.Umbraco.Migration/ContentsByTypeSource.cs:119-132 | the walk yields the root first |
| ContentsByType.ClosureComplete | src/Our.Umbraco.Migration/ContentsByTypeSource.cs:119-132 | every id reachable from the root along the table's edges is yielded |
| ContentsByType.ClosureSound | src/Our.Umbraco.Migration/ContentsByTypeSource.cs:119-132 | every yielded id ends a path of edges from the root |
| ContentsByType.DiamondRepeats | src/Our.Umbraco.Migration/ContentsByTypeSource.cs:119-132 | there is no visited set: a type reached along two routes is yielded twice |
| ContentsByType.TypeIds | src/Our.Umbraco.Migration/ContentsByTypeSource.cs:113-117 | the descendant ids of a type start with the type itself |
| ContentsByType.TypeIdsReach | src/Our.Umbraco.Migration/ContentsByTypeSource.cs:113-132 | the ids yielded for a root are exactly those reachable from it over parent and composition edges |
| ContentsByType.OfTypes | src/Our.Umbraco.Migration/ContentsByTypeSource.cs:38-46 | the nodes of the queried types are exactly the stored nodes whose type is among them |
| ContentsByType.PagedOfTypes | src/Our.Umbraco.Migration/ContentsByTypeSource.cs:38-73 | a page query answers with the total count and the slice of the matching nodes that the page covers |
| ContentsByType.GetContentOfType | src/Our.Umbraco.Migration/ContentsByTypeSource.cs:65-82 | the paging loop yields exactly the nodes of the given types in store order, fetching pages 0, 1, ... of 100, and one page even when there is nothing |
| ContentsByType.GetContentsAsWritten | src/Our.Umbraco.Migration/ContentsByTypeSource.cs:27-63 | as written: for documents and members it is the corrected `GetContentsSpec`; a media source looks its alias up among the document types, so an alias no document type has yields nothing, and one a document type has yields the media of the media types reachable from that document type's id |
| ContentsByType.GetContentsSpec | src/Our.Umbraco.Migration/ContentsByTypeSource.cs:27-63 | corrected (see Findings): a missing name yields nothing; an out-of-range source type throws; a document type, or a media type looked up among the media types, yields the nodes of it and of every type below it; an unknown alias yields nothing; members come from their member type |
| ContentsByType.GetContents | src/Our.Umbraco.Migration/ContentsByTypeSource.cs:27-63 | the method over the services returns what the corrected `GetContentsSpec` describes (media looked up among the media types; see Findings) |
| ContentsByType.MediaLookupAsWritten | src/Our.Umbraco.Migration/ContentsByTypeSource.cs:42 | as written, a media source for the media type "Image" yields nothing, because the alias is looked up among the document types |
| ContentsByType.MediaLookupCorrected | src/Our.Umbraco.Migration/ContentsByTypeSource.cs:42-46 | looked up among the media types, the same source yields its one image |
| LegacyContentsByType.PerTypeMembers | src/Our.Umbraco.Migration/Our.Umbraco.Migration/ContentsByTypeSource.cs:37-45 | fetching the nodes type by type finds the same nodes as one query over all the types |
| LegacyContentsByType.PerTypeRepeats | src/Our.Umbraco.Migration/Our.Umbraco.Migration/ContentsByTypeSource.cs:99-112 | a type that occurs twice in the walk has its nodes fetched twice |
| LegacyContentsByType.GetContents | src/Our.Umbraco.Migration/Our.Umbraco.Migration/ContentsByTypeSource.cs:26-62 | a missing name yields nothing; an out-of-range source type throws; otherwise the nodes of each type of the walk, in walk order, over the same parent and composition relations (lines 64-112) as the current source |
| LegacyContentsByType.SameNodes | src/Our.Umbraco.Migration/Our.Umbraco.Migration/ContentsByTypeSource.cs:26-62 | the legacy source succeeds exactly when the paged one does and yields the same nodes, possibly in another order and with repetitions |
| DataTypeMigration.SkippedCases | src/Our.Umbraco.Migration/IdToUdiMigration.cs:128-130 | the include/exclude filter compares names ignoring case; an excluded name is skipped even when included; with no lists nothing is skipped; an included name that is not excluded passes |
| DataTypeMigration.EligibleMembers | src/Our.Umbraco.Migration/IdToUdiMigration.cs:124-134 | exactly the data types that pass the filter and whose pre-values could be read are handed on, with those pre-values |
| DataTypeMigration.BuildCharacterised | src/Our.Umbraco.Migration/IdToUdiMigration.cs:145-157 | after the loop there is one key per distinct editor alias ignoring case, in first-seen order; each entry is the migrator made for the first data type with that alias (null when the factory has none, and then nothing is staged under it) with, in order, the data types it says need migrating; the factory is asked once per key, for the first alias seen |
| DataTypeMigration.CreatedOncePerAlias | src/Our.Umbraco.Migration/IdToUdiMigration.cs:149-153 | each alias key is asked of the factory exactly once and remembered even when the factory has no migrator |
| DataTypeMigration.PresentFrom | src/Our.Umbraco.Migration/IdToUdiMigration.cs:136 | removing the null entries leaves only migrations that some key in the insertion order holds |
| DataTypeMigration.StagedNeedMigration | src/Our.Umbraco.Migration/IdToUdiMigration.cs:119-138 | every data type staged for migration is one of the service's data types, passes the filter, had its pre-values read, and its migrator says it needs migrating |
| DataTypeMigration.EntryForMembers | src/Our.Umbraco.Migration/IdToUdiMigration.cs:155-156 | what an entry stages comes from data types with its alias that need migrating |
| DataTypeMigration.MigrationTable.UpdateDataTypeMigrations | src/Our.Umbraco.Migration/IdToUdiMigration.cs:145-157 | one update of the dictionary, and the alias the factory was asked for, match the update step |
| DataTypeMigration.FindDataTypeMigrations | src/Our.Umbraco.Migration/IdToUdiMigration.cs:119-138 | the method returns the non-null migrations the loop builds over the eligible data types, and the aliases asked of the factory |
| DataTypeMigration.EquivalentReflexive | src/Our.Umbraco.Migration/IdToUdiMigration.cs:253 | a dictionary is equivalent to itself, so the same-reference shortcut gives the answer the comparison would |
| DataTypeMigration.EquivalentSymmetric | src/Our.Umbraco.Migration/IdToUdiMigration.cs:251-266 | the comparison does not depend on which side is old |
| DataTypeMigration.TextIgnored | src/Our.Umbraco.Migration/IdToUdiMigration.cs:260-262 | non-empty pre-value texts are not compared: entries with the same row id and sort order agree whatever their texts |
| DataTypeMigration.EntryChangeDiffers | src/Our.Umbraco.Migration/IdToUdiMigration.cs:259-261 | a key missing from the new dictionary, or an entry that turns empty or stops being empty, makes the dictionaries differ |
| DataTypeMigration.AreEquivalentPreValues | src/Our.Umbraco.Migration/IdToUdiMigration.cs:251-266 | the loop answers exactly the equivalence: both null or empty, or the same count and every key of the old one has an agreeing entry in the new |
| DataTypeMigration.UpdateSpec | src/Our.Umbraco.Migration/IdToUdiMigration.cs:190-249 | false when the migrator cannot give the database type, alias or pre-values; otherwise a save happens exactly when the new alias or database type differs or the pre-values are not equivalent, it saves the data type with the migrator's alias and database type and its pre-values (none counting as empty), nothing else of the data type changes, the result is false exactly when that save throws, and without a save the result is true |
| DataTypeMigration.KeepingNeedsNoSave | src/Our.Umbraco.Migration/IdToUdiMigration.cs:235-240 | a migrator that keeps alias, database type and pre-values causes no save and succeeds |
| DataTypeMigration.NewAliasIsSaved | src/Our.Umbraco.Migration/IdToUdiMigration.cs:235-240 | a new editor alias is always saved, with that alias, and the result is whether the save went through |
| DataTypeMigration.UpdateDataType | src/Our.Umbraco.Migration/IdToUdiMigration.cs:190-249 | the method's result and the save it asks for are those of the specification |
| DataTypeMigration.JobsOf | src/Our.Umbraco.Migration/IdToUdiMigration.cs:90-105 | the inner loops visit each data type of a migration, in order, with the migration's migrator |
| DataTypeMigration.StageChar | src/Our.Umbraco.Migration/IdToUdiMigration.cs:90-99 | an id is staged exactly when some visited data type with that id gives a property migration, and it holds the last one given |
| DataTypeMigration.UnstageChar | src/Our.Umbraco.Migration/IdToUdiMigration.cs:102-110 | an id survives the rewrites exactly when it was staged and every data type with that id was rewritten; its migration is kept |
| DataTypeMigration.JobsMembers | src/Our.Umbraco.Migration/IdToUdiMigration.cs:90-93 | every visited pair is a staged data type with the migrator of its migration |
| DataTypeMigration.LoadedChar | src/Our.Umbraco.Migration/IdToUdiMigration.cs:82-110 | a data type's content is migrated exactly when its migrator gave a property migration for it and rewriting the data type did not fail, and then it passed the filter and needs migrating |
| DataTypeMigration.StagePropertyMigrations | src/Our.Umbraco.Migration/IdToUdiMigration.cs:88-99 | the first pair of loops leaves the staged map the specification gives |
| DataTypeMigration.UpdateMigration | src/Our.Umbraco.Migration/IdToUdiMigration.cs:104-109 | the inner loop over one migration's data types extends the removals and saves exactly by that migration's jobs, in order |
| DataTypeMigration.UpdateDataTypes | src/Our.Umbraco.Migration/IdToUdiMigration.cs:101-110 | the second pair of loops leaves the specified map and asks for exactly the specified saves, in order |
| DataTypeMigration.LoadMappings | src/Our.Umbraco.Migration/IdToUdiMigration.cs:82-117 | the saves are those of the rewrites; every mapper rewrites exactly the fields whose data type kept its staged migration; every used document, media or member type with such a field gets a mapper of its own kind; and the mappers come documents first, then media, then members |
| TypeMappings.Parents | src/Our.Umbraco.Migration/IdToUdiMigration.cs:296 | the lookup of a type's parents holds exactly the parents some row gives it |
| TypeMappings.ClosedComplete | src/Our.Umbraco.Migration/IdToUdiMigration.cs:328-335 | a list closed under positive parents holds everything reachable from its members |
| TypeMappings.AddRelatedTypes | src/Our.Umbraco.Migration/IdToUdiMigration.cs:328-335 | the list only grows; a positive id ends up listed; a non-positive or already listed id adds nothing; no id is listed twice; the new ids are closed under positive parents and all reachable from the start |
| TypeMappings.RelatedTypesExact | src/Our.Umbraco.Migration/IdToUdiMigration.cs:299-335 | the walk from an empty list lists exactly the ids reachable from the root |
| TypeMappings.ParentRows | src/Our.Umbraco.Migration/IdToUdiMigration.cs:292 | the loop adds one parent row per type, in order |
| TypeMappings.UsedOf | src/Our.Umbraco.Migration/IdToUdiMigration.cs:293 | the directly used types are exactly the types whose id some node uses |
| TypeMappings.PropertiesOf | src/Our.Umbraco.Migration/IdToUdiMigration.cs:302 | the collected properties are exactly those of the walked types |
| TypeMappings.MappingsOf | src/Our.Umbraco.Migration/IdToUdiMigration.cs:305-310 | one field mapper per property whose data type has a staged migration, with that migration |
| TypeMappings.MappingsExact | src/Our.Umbraco.Migration/IdToUdiMigration.cs:297-310 | the mappers built from the walk are exactly the fields of the type or of a type it inherits from whose data type has a migration |
| TypeMappings.FieldMappings | src/Our.Umbraco.Migration/IdToUdiMigration.cs:299-310 | the loop body's mappings are exactly the contributing fields of the type |
| TypeMappings.FindMappings | src/Our.Umbraco.Migration/IdToUdiMigration.cs:279-326 | every mapper is for a used type of the given kind and rewrites exactly the fields of it and its ancestors whose data type has a migration; every used type with such a field gets a mapper, and one with none gets no mapper |
| ContentMapper.RetrievePreChangeState | src/Our.Umbraco.Migration/ContentTransformMapper.cs:26-31 | only a document can count as published, never one in the recycle bin or expired by now; a published, never-expiring document outside the bin does |
| ContentMapper.PreChangeStateEarlier | src/Our.Umbraco.Migration/ContentTransformMapper.cs:29 | a node that counts as published at one instant counts at every earlier instant |
| ContentMapper.SaveChanges | src/Our.Umbraco.Migration/ContentTransformMapper.cs:33-58 | a live document is published and nothing else is; every known kind gets at most two calls and one plain save when not publishing; the save fails only for an unknown kind or a failed publish |
| ContentMapper.SaveFollowsState | src/Our.Umbraco.Migration/ContentTransformMapper.cs:26-58 | after reading the state a node that is not a live document gets exactly its one plain save and succeeds; a live document is published first and fails exactly when the publish does |
| ContentMapper.FailedPublish | src/Our.Umbraco.Migration/ContentTransformMapper.cs:40-45 | a failed publish rethrows its exception with no extra call, or saves the document unpublished and then fails |
| DataTypeMigratorFactory.AliasesRoundTrip | src/Our.Umbraco.Migration/DataTypeMigratorFactory.cs:40-44 | without an attribute a type registers under exactly its name minus the "DataTypeMigrator" or "Migrator" suffix, or under nothing |
| DataTypeMigratorFactory.RegisterAliases | src/Our.Umbraco.Migration/DataTypeMigratorFactory.cs:53-56 | writing a list of aliases adds exactly their keys, all holding the constructor, and leaves every other key as it was |
| DataTypeMigratorFactory.RegisterTypeLookup | src/Our.Umbraco.Migration/DataTypeMigratorFactory.cs:36-56 | one type adds exactly the keys it registers, holding its constructor, and keeps the rest |
| DataTypeMigratorFactory.RegisterTypesKeys | src/Our.Umbraco.Migration/DataTypeMigratorFactory.cs:30-58 | after an assembly exactly the keys some type registers are added and a key no type registers keeps its constructor |
| DataTypeMigratorFactory.RegisterTypesLast | src/Our.Umbraco.Migration/DataTypeMigratorFactory.cs:34-56 | a key holds the constructor of the last type that registers it |
| DataTypeMigratorFactory.CreateMemoised | src/Our.Umbraco.Migration/DataTypeMigratorFactory.cs:65-71 | creating again under any spelling of the alias returns the same migrator and changes nothing |
| DataTypeMigratorFactory.LaterRegistrationUnseen | src/Our.Umbraco.Migration/DataTypeMigratorFactory.cs:60-71 | once an alias is created, a later registration does not change what it creates |
| DataTypeMigratorFactory.RegisteredIsCreated | src/Our.Umbraco.Migration/DataTypeMigratorFactory.cs:60-71 | a constructor registered before the first creation is the one invoked |
| DataTypeMigratorFactory.DefaultDataTypeMigratorFactory.constructor | src/Our.Umbraco.Migration/DataTypeMigratorFactory.cs:22-28 | the factory starts with the executing assembly's registrations and no created migrators |
| DataTypeMigratorFactory.DefaultDataTypeMigratorFactory.RegisterDataTypeMigrators | src/Our.Umbraco.Migration/DataTypeMigratorFactory.cs:30-58 | the loop leaves the constructors as the registration of the whole assembly and the memo unchanged |
| DataTypeMigratorFactory.DefaultDataTypeMigratorFactory.RegisterDataTypeMigrator | src/Our.Umbraco.Migration/DataTypeMigratorFactory.cs:60-63 | an explicit registration always overwrites the alias's constructor |
| DataTypeMigratorFactory.DefaultDataTypeMigratorFactory.CreateDataTypeMigrator | src/Our.Umbraco.Migration/DataTypeMigratorFactory.cs:65-71 | returns the remembered migrator, or invokes the registered constructor (none when absent) and remembers the result |
| GridAliasMigratorFactory.SuffixAsWritten | src/Our.Umbraco.Migration/GridAliasMigrators/GridAliasMigratorFactory.cs:46 | as written, "DocTypeGridAliasMigrator" registers under "DocTypeG" |
| GridAliasMigratorFactory.ControlAliasesRoundTrip | src/Our.Umbraco.Migration/GridAliasMigrators/GridAliasMigratorFactory.cs:44-48 | with the whole suffix dropped, the alias plus "GridAliasMigrator" or "Migrator" is the type name |
| GridAliasMigratorFactory.SuffixCorrected | src/Our.Umbraco.Migration/GridAliasMigrators/GridAliasMigratorFactory.cs:46 | the corrected rule registers "DocTypeGridAliasMigrator" under "DocType" |
| GridAliasMigratorFactory.RegisterConstructor | src/Our.Umbraco.Migration/GridAliasMigrators/GridAliasMigratorFactory.cs:64-67 | the constructor is written only when overwriting or the alias is new, and no other key or the memo changes |
| GridAliasMigratorFactory.RegisterInstance | src/Our.Umbraco.Migration/GridAliasMigrators/GridAliasMigratorFactory.cs:69-73 | the instance is remembered unless the alias has both a constructor and a remembered migrator and no overwrite is asked; the constructors never change |
| GridAliasMigratorFactory.InstanceIsCreated | src/Our.Umbraco.Migration/GridAliasMigrators/GridAliasMigratorFactory.cs:69-81 | an instance that was written is what creation returns |
| GridAliasMigratorFactory.CreatedIsKept | src/Our.Umbraco.Migration/GridAliasMigrators/GridAliasMigratorFactory.cs:64-81 | without overwrite, a created alias keeps its migrator against a new constructor and a new instance |
| GridAliasMigratorFactory.DefaultGridAliasMigratorFactory.constructor | src/Our.Umbraco.Migration/GridAliasMigrators/GridAliasMigratorFactory.cs:26-32 | the factory starts with the executing assembly's registrations, under the corrected aliases with the whole suffix trimmed (see Findings), and no remembered migrators |
| GridAliasMigratorFactory.DefaultGridAliasMigratorFactory.RegisterGridAliasMigrators | src/Our.Umbraco.Migration/GridAliasMigrators/GridAliasMigratorFactory.cs:34-62 | the loop leaves the constructors as the registration of the whole assembly, under the corrected aliases (see Findings), and the memo unchanged |
| GridAliasMigratorFactory.DefaultGridAliasMigratorFactory.RegisterGridAliasConstructor | src/Our.Umbraco.Migration/GridAliasMigrators/GridAliasMigratorFactory.cs:64-67 | the new state is the conditional constructor registration |
| GridAliasMigratorFactory.DefaultGridAliasMigratorFactory.RegisterGridAliasInstance | src/Our.Umbraco.Migration/GridAliasMigrators/GridAliasMigratorFactory.cs:69-73 | the new state is the conditional instance registration |
| GridAliasMigratorFactory.DefaultGridAliasMigratorFactory.CreateGridAliasMigrator | src/Our.Umbraco.Migration/GridAliasMigrators/GridAliasMigratorFactory.cs:75-81 | returns the remembered migrator, or invokes the registered constructor and remembers the result |
| ProductResolver.MonitoredTokensMembers | src/Our.Umbraco.Migration/ProductMigrationResolver.cs:92-93 | the kept names are exactly the trimmed parts that are non-empty and not "umbraco" in any case |
| ProductResolver.UnionWithFacts | src/Our.Umbraco.Migration/ProductMigrationResolver.cs:46-92 | a case-insensitive union keeps names distinct ignoring case, adds only names of either side and contains every name of both |
| ProductResolver.ProductNamesChar | src/Our.Umbraco.Migration/ProductMigrationResolver.cs:90-93 | the monitored names are, ignoring case, exactly the trimmed non-empty non-"umbraco" comma-separated entries, each once |
| ProductResolver.DetailOf | src/Our.Umbraco.Migration/ProductMigrationResolver.cs:138-145 | a detail carries the attribute's product, the type and the target version; it must run after exactly the dependent migrations tagged with the same product, and before none |
| ProductResolver.DetailsOfTypeMembers | src/Our.Umbraco.Migration/ProductMigrationResolver.cs:68-72 | a type contributes one detail per attribute naming a monitored product |
| ProductResolver.DetailsMembers | src/Our.Umbraco.Migration/ProductMigrationResolver.cs:64-74 | a detail is loaded exactly for each attribute of a migration type that names a monitored product |
| ProductResolver.ProductNamesOfDetails | src/Our.Umbraco.Migration/ProductMigrationResolver.cs:104-109 | the product names are each product that has a detail, once |
| ProductResolver.GroupMembers | src/Our.Umbraco.Migration/ProductMigrationResolver.cs:114 | a product's group holds exactly the details of that product |
| ProductResolver.ToApplyMembers | src/Our.Umbraco.Migration/ProductMigrationResolver.cs:126 | the steps to apply are exactly the migrations of the product whose target is above the current version |
| ProductResolver.ToApplyNonEmpty | src/Our.Umbraco.Migration/ProductMigrationResolver.cs:119-126 | a product whose highest target is above the current version has a step to apply |
| ProductResolver.KeysHaveGroups | src/Our.Umbraco.Migration/ProductMigrationResolver.cs:114-116 | every product listed has a non-empty group |
| ProductResolver.UpgradersForMembers | src/Our.Umbraco.Migration/ProductMigrationResolver.cs:116-133 | an upgrader is produced exactly for each product the loop creates one for |
| ProductResolver.UpgraderForFacts | src/Our.Umbraco.Migration/ProductMigrationResolver.cs:119-132 | a product is upgraded exactly when its current version (0 when the state is missing or does not parse) is below its highest target; the plan starts at the recorded state, chains the steps above the current version in version order, and ends at that target |
| ProductResolver.MaxOfApplied | src/Our.Umbraco.Migration/ProductMigrationResolver.cs:119-126 | the highest version among the steps to apply is the product's highest target |
| ProductResolver.StepBelowTarget | src/Our.Umbraco.Migration/ProductMigrationResolver.cs:119-126 | no step to apply is above the product's highest target |
| ProductResolver.ProductMigrationResolver.constructor | src/Our.Umbraco.Migration/ProductMigrationResolver.cs:52-56 | a new resolver has no names, no details and is not loaded |
| ProductResolver.ProductMigrationResolver.Initialize | src/Our.Umbraco.Migration/ProductMigrationResolver.cs:82-102 | initialising clears the details and the loaded flag and reads the names of the configured key, or none when it is missing |
| ProductResolver.ProductMigrationResolver.GetMigrationDetails | src/Our.Umbraco.Migration/ProductMigrationResolver.cs:58-80 | the details are loaded once, appended to what was there, and returned |
| ProductResolver.ProductMigrationResolver.GetProductNames | src/Our.Umbraco.Migration/ProductMigrationResolver.cs:104-109 | the names are the distinct products of the loaded details |
| ProductResolver.ProductMigrationResolver.GetUpgraders | src/Our.Umbraco.Migration/ProductMigrationResolver.cs:111-134 | the upgraders are those of the products that are behind, in order of first appearance |
| ProductResolver.UpgradersOf | src/Our.Umbraco.Migration/ProductMigrationResolver.cs:116-133 | the loop over the products yields exactly the upgraders of the products that are behind, in order |
| LegacyProductResolver.DetailsOfTypeMembers | src/Our.Umbraco.Migration/Our.Umbraco.Migration/ProductMigrationResolver.cs:39-41 | a type contributes one detail per attribute naming a monitored product |
| LegacyProductResolver.DetailsMembers | src/Our.Umbraco.Migration/Our.Umbraco.Migration/ProductMigrationResolver.cs:35-43 | a detail is loaded exactly for each attribute of a migration type that names a monitored product |
| LegacyProductResolver.TargetsOfMembers | src/Our.Umbraco.Migration/Our.Umbraco.Migration/ProductMigrationResolver.cs:75-79 | a product's targets are exactly the target versions of its details |
| LegacyProductResolver.KeysHaveTargets | src/Our.Umbraco.Migration/Our.Umbraco.Migration/ProductMigrationResolver.cs:75-79 | every product that has a detail has a target |
| LegacyProductResolver.RunnerForFacts | src/Our.Umbraco.Migration/Our.Umbraco.Migration/ProductMigrationResolver.cs:79-83 | a product gets a runner exactly when its highest applied version (0 when none is recorded) is below its highest target, and the runner carries those two versions |
| LegacyProductResolver.CurrentFacts | src/Our.Umbraco.Migration/Our.Umbraco.Migration/ProductMigrationResolver.cs:81 | the current version is 0 when nothing is recorded for the product, and otherwise the highest of its recorded versions |
| LegacyProductResolver.RunnersForMembers | src/Our.Umbraco.Migration/Our.Umbraco.Migration/ProductMigrationResolver.cs:77-84 | a runner is produced exactly for each listed product that is behind |
| LegacyProductResolver.ProductMigrationResolver.constructor | src/Our.Umbraco.Migration/Our.Umbraco.Migration/ProductMigrationResolver.cs:23-25 | a new resolver has no names, no details and is not loaded |
| LegacyProductResolver.ProductMigrationResolver.Initialize | src/Our.Umbraco.Migration/Our.Umbraco.Migration/ProductMigrationResolver.cs:51-63 | initialising clears the details and the loaded flag and reads the names of the configured key, or none |
| LegacyProductResolver.ProductMigrationResolver.GetMigrationDetails | src/Our.Umbraco.Migration/Our.Umbraco.Migration/ProductMigrationResolver.cs:27-49 | the details are loaded once, appended to what was there, and returned |
| LegacyProductResolver.ProductMigrationResolver.GetProductNames | src/Our.Umbraco.Migration/Our.Umbraco.Migration/ProductMigrationResolver.cs:65-70 | the names are the distinct products of the loaded details |
| LegacyProductResolver.ProductMigrationResolver.GetMigrationRunners | src/Our.Umbraco.Migration/Our.Umbraco.Migration/ProductMigrationResolver.cs:72-85 | the runners are those of the products that are behind, in order of first appearance |
| LegacyProductResolver.RunnersOf | src/Our.Umbraco.Migration/Our.Umbraco.Migration/ProductMigrationResolver.cs:77-84 | the loop over the products yields exactly the runners of the products that are behind, in order |
| Versions.LessTotal | src/Our.Umbraco.Migration/ProductMigrationResolver.cs:123 | the version ordering the resolver compares with is strict and total |
| Versions.LessTransitive | src/Our.Umbraco.Migration/ProductMigrationResolver.cs:119-126 | the version ordering is transitive, strictly when either step is strict |
| Versions.Max | src/Our.Umbraco.Migration/ProductMigrationResolver.cs:119 | the highest target is one of the versions and no version is above it |
| VersionedUpgrader.WithVersionAppend | src/Our.Umbraco.Migration/VersionedUpgrader.cs:20 | the steps of one version in a concatenation are those of each part in turn |
| VersionedUpgrader.InsertPermutes | src/Our.Umbraco.Migration/VersionedUpgrader.cs:20 | inserting a step adds exactly that step |
| VersionedUpgrader.ConsSorted | src/Our.Umbraco.Migration/VersionedUpgrader.cs:20 | a step no later than every step of a sorted list can go in front |
| VersionedUpgrader.InsertSorted | src/Our.Umbraco.Migration/VersionedUpgrader.cs:20 | inserting into a sorted list keeps it sorted |
| VersionedUpgrader.InsertStable | src/Our.Umbraco.Migration/VersionedUpgrader.cs:20 | inserting a step appends it to the steps of its version and keeps their order |
| VersionedUpgrader.SortedTail | src/Our.Umbraco.Migration/VersionedUpgrader.cs:20 | the tail of a sorted list is sorted |
| VersionedUpgrader.NoneWithVersion | src/Our.Umbraco.Migration/VersionedUpgrader.cs:20 | a sorted list starting above a version has no step of it |
| VersionedUpgrader.OrderByVersionFacts | src/Our.Umbraco.Migration/VersionedUpgrader.cs:20 | the ordering is sorted by version, a permutation of the migrations, and stable |
| VersionedUpgrader.AggregateChains | src/Our.Umbraco.Migration/VersionedUpgrader.cs:22 | the plan keeps the product name and initial state and runs the steps in order, each from where the previous ended |
| VersionedUpgrader.CreateUpgrader | src/Our.Umbraco.Migration/VersionedUpgrader.cs:18-25 | building fails exactly when there are no migrations (Last throws); otherwise the upgrader is for the product |
| VersionedUpgrader.OrderByVersionEmpty | src/Our.Umbraco.Migration/VersionedUpgrader.cs:20 | the ordering is empty exactly when the migrations are |
| VersionedUpgrader.CreateUpgraderFacts | src/Our.Umbraco.Migration/VersionedUpgrader.cs:18-25 | an upgrader built from some migrations runs all of them in version order from the initial state and ends at the highest version |
| VersionedUpgrader.SortedLastIsMax | src/Our.Umbraco.Migration/VersionedUpgrader.cs:20-21 | the last of the sorted migrations has the highest version |
| VersionedUpgrader.MigrationTable.constructor | src/Our.Umbraco.Migration/VersionedUpgrader.cs:29 | the table starts with the given rows |
| VersionedUpgrader.MigrationTable.AfterMigrations | src/Our.Umbraco.Migration/VersionedUpgrader.cs:39-44 | after the migrations one row recording the product's final state is appended |
| JsonContent.WithMigration | src/Our.Umbraco.Migration/DataTypeMigrators/JsonContentMigrator.cs:301-310 | every found value is paired with the transform's migration and keeps its own setter, one per value |
| JsonContent.VirtualContent.constructor | src/Our.Umbraco.Migration/DataTypeMigrators/JsonContentMigrator.cs:136-139 | a virtual node holds the value and is not dirty |
| JsonContent.VirtualContent.SetValue | src/Our.Umbraco.Migration/DataTypeMigrators/JsonContentMigrator.cs:200-210 | writing fails exactly for a property other than "Value"; a write stores the text of the value, and the node becomes dirty exactly when that text differs from the current one |
| JsonContent.SetValueText | src/Our.Umbraco.Migration/DataTypeMigrators/JsonContentMigrator.cs:185-210 | after a write the node's value reads back as the text written |
| JsonContent.SiteOutcomeWrites | src/Our.Umbraco.Migration/DataTypeMigrators/JsonContentMigrator.cs:102-117 | a nested value is written exactly when it is not null, the inner transform reads it and maps it without throwing to a different value; the setter receives the mapped value's text |
| JsonContent.RunSitesErrSticky | src/Our.Umbraco.Migration/DataTypeMigrators/JsonContentMigrator.cs:102-118 | once a nested value throws, the whole loop throws the same |
| JsonContent.RunTransformsErrSticky | src/Our.Umbraco.Migration/DataTypeMigrators/JsonContentMigrator.cs:97-119 | once a transform throws, the whole run throws the same |
| JsonContent.RunSitesFacts | src/Our.Umbraco.Migration/DataTypeMigrators/JsonContentMigrator.cs:102-118 | the inner loop throws when some nested value does; otherwise the flag is set exactly when it was or some value was written, and a loop that writes nothing leaves the tree alone |
| JsonContent.MapBlank | src/Our.Umbraco.Migration/DataTypeMigrators/JsonContentMigrator.cs:91-92 | a blank value is returned as it is |
| JsonContent.RunTransformsInert | src/Our.Umbraco.Migration/DataTypeMigrators/JsonContentMigrator.cs:97-119 | transforms that write nothing leave the tree and the flag alone |
| JsonContent.MapInert | src/Our.Umbraco.Migration/DataTypeMigrators/JsonContentMigrator.cs:89-122 | when no transform writes, the mapped value is the input whenever the map does not throw, in particular whenever the text parses |
| JsonContent.ApplySites | src/Our.Umbraco.Migration/DataTypeMigrators/JsonContentMigrator.cs:102-118 | the inner loop computes the specified tree and flag, or throws what it specifies |
| JsonContent.Map | src/Our.Umbraco.Migration/DataTypeMigrators/JsonContentMigrator.cs:89-122 | the loop computes the specified result: the input when blank or unchanged, else the serialised tree |
| JsonContent.JsonMigration | src/Our.Umbraco.Migration/DataTypeMigrators/JsonContentMigrator.cs:59-72 | both directions read text and map with the same transforms, upgrading and downgrading |
| JsonContent.GetPropertyMigration | src/Our.Umbraco.Migration/DataTypeMigrators/JsonContentMigrator.cs:31-35 | a migration is built exactly when some transform is found |
| JsonContent.NeedsMigrationIffMigration | src/Our.Umbraco.Migration/DataTypeMigrators/JsonContentMigrator.cs:21-35 | a data type needs migrating exactly when the migration built with invalid data dropped exists |
| JsonContent.ValidMemoised | src/Our.Umbraco.Migration/DataTypeMigrators/JsonContentMigrator.cs:39-56 | a data type key is resolved once: the memo gains only that key, stays sound, and asking again under any spelling or retain flag returns the remembered answer unchanged |
| JsonContent.ResolveGuid | src/Our.Umbraco.Migration/DataTypeMigrators/JsonContentMigrator.cs:44-55 | the lookups give no migration for a text that is not a guid, an unknown data type or a migrator that needs none, else the migrator's migration; the configuration cast is folded into the migrator (see Left out) |
| JsonContent.KnownValidMigrators.constructor | src/Our.Umbraco.Migration/DataTypeMigrators/JsonContentMigrator.cs:19 | the memo starts empty |
| JsonContent.KnownValidMigrators.GetValidPropertyMigration | src/Our.Umbraco.Migration/DataTypeMigrators/JsonContentMigrator.cs:39-56 | the answer and the new memo are the specified ones; the configuration cast is folded into the migrator (see Left out) |
| LegacyJsonContent.RunTransformsAgree | src/Our.Umbraco.Migration/Our.Umbraco.Migration/DataTypeMigrators/JsonContentMigrator.cs:72-91 | when every extractor yields values, the legacy loop over the transforms computes what the current one does |
| LegacyJsonContent.MapAgrees | src/Our.Umbraco.Migration/Our.Umbraco.Migration/DataTypeMigrators/JsonContentMigrator.cs:64-94 | when every extractor yields values, the legacy map is the current one |
| LegacyJsonContent.MapThrowsWithoutValues | src/Our.Umbraco.Migration/Our.Umbraco.Migration/DataTypeMigrators/JsonContentMigrator.cs:74 | a first transform whose extractor yields null makes the map throw |
| LegacyJsonContent.RunTransformsErrSticky | src/Our.Umbraco.Migration/Our.Umbraco.Migration/DataTypeMigrators/JsonContentMigrator.cs:72-91 | once a transform throws, the whole run throws the same |
| LegacyJsonContent.Map | src/Our.Umbraco.Migration/Our.Umbraco.Migration/DataTypeMigrators/JsonContentMigrator.cs:64-94 | the loop computes the specified result |
| LegacyJsonContent.JsonMigration | src/Our.Umbraco.Migration/Our.Umbraco.Migration/DataTypeMigrators/JsonContentMigrator.cs:34-47 | both directions map with the same transforms, upgrading and downgrading |
| LegacyJsonContent.AsMigrator | src/Our.Umbraco.Migration/Our.Umbraco.Migration/DataTypeMigrators/JsonContentMigrator.cs:13-32 | a migration is needed exactly when one is built; the database type, pre-values and editor alias are kept |
| Archetype.PropertySetter | src/Our.Umbraco.Migration/DataTypeMigrators/ArchetypeMigrator.cs:73-80 | the intended setter never throws |
| Archetype.SetterNoPath | src/Our.Umbraco.Migration/DataTypeMigrators/ArchetypeMigrator.cs:75-77 | where the path does not exist the setter leaves the tree alone |
| Archetype.SetterWrites | src/Our.Umbraco.Migration/DataTypeMigrators/ArchetypeMigrator.cs:73-80 | the setter writes only the "value" of the property at its path; every other property and every other key of the tree is kept |
| Archetype.SetterRoundTrip | src/Our.Umbraco.Migration/DataTypeMigrators/ArchetypeMigrator.cs:79 | reading back the written property's "value" gives the text written |
| Archetype.AsWrittenAgrees | src/Our.Umbraco.Migration/DataTypeMigrators/ArchetypeMigrator.cs:76-79 | where the path exists, the setter as written does what the intended one does |
| Archetype.AsWrittenThrowsOrAgrees | src/Our.Umbraco.Migration/DataTypeMigrators/ArchetypeMigrator.cs:76-77 | the setter as written either throws or does what the intended one does |
| Archetype.AsWrittenThrowsAtCount | src/Our.Umbraco.Migration/DataTypeMigrators/ArchetypeMigrator.cs:76 | on an empty fieldsets array with indices 0 and 0 the setter as written throws where the intended one returns |
| Archetype.PropertyMatchesFacts | src/Our.Umbraco.Migration/DataTypeMigrators/ArchetypeMigrator.cs:52-69 | the walk over one fieldset's properties finds, in order, exactly the properties with the alias |
| Archetype.FieldSetMatchesFacts | src/Our.Umbraco.Migration/DataTypeMigrators/ArchetypeMigrator.cs:44-70 | the walk over the fieldsets finds, fieldset by fieldset, exactly the properties with the alias |
| Archetype.OrderedConcat | src/Our.Umbraco.Migration/DataTypeMigrators/ArchetypeMigrator.cs:48-70 | the matches of a later fieldset follow those of the earlier ones in order |
| Archetype.LastFieldSet | src/Our.Umbraco.Migration/DataTypeMigrators/ArchetypeMigrator.cs:52-53 | the matches of the last fieldset are those of its "properties" children |
| Archetype.MatchesVisits | src/Our.Umbraco.Migration/DataTypeMigrators/ArchetypeMigrator.cs:42-71 | the extractor visits, in fieldset and property order, exactly the properties whose alias equals the one asked for, and reads each one's "value" |
| Archetype.VisitedSettersInRange | src/Our.Umbraco.Migration/DataTypeMigrators/ArchetypeMigrator.cs:63-77 | every visited property's setter targets an existing path, so the as-written guard does not throw there |
| Archetype.ForAliasesAppend | src/Our.Umbraco.Migration/DataTypeMigrators/ArchetypeMigrator.cs:19-39 | transforms for non-blank aliases stay so when joined |
| Archetype.PropertyTransformsStep | src/Our.Umbraco.Migration/DataTypeMigrators/ArchetypeMigrator.cs:29-30 | one step of the configuration walk leaves the memo alone or asks it about that property's data type |
| Archetype.ValidSound | src/Our.Umbraco.Migration/DataTypeMigrators/ArchetypeMigrator.cs:30 | asking the memo keeps it sound |
| Archetype.PropertyTransformsMemo | src/Our.Umbraco.Migration/DataTypeMigrators/ArchetypeMigrator.cs:24-38 | the walk over one fieldset keeps the memo sound |
| Archetype.PropertyTransformsAliases | src/Our.Umbraco.Migration/DataTypeMigrators/ArchetypeMigrator.cs:26-37 | every transform found is for a non-blank alias |
| Archetype.FieldSetTransformsMemo | src/Our.Umbraco.Migration/DataTypeMigrators/ArchetypeMigrator.cs:19-39 | the walk over the fieldsets keeps the memo of nested migrations sound |
| Archetype.FieldSetTransformsAliases | src/Our.Umbraco.Migration/DataTypeMigrators/ArchetypeMigrator.cs:19-39 | every transform the walk over the fieldsets finds is for a property with a non-blank alias |
| Archetype.TransformsFacts | src/Our.Umbraco.Migration/DataTypeMigrators/ArchetypeMigrator.cs:12-40 | no transform comes from a configuration that is not an object or has no fieldsets; every transform is for a non-blank alias; the memo only grows and stays sound |
| Archetype.TransformsList | src/Our.Umbraco.Migration/DataTypeMigrators/ArchetypeMigrator.cs:12-40 | the search throws exactly when a fieldset, or a property of a fieldset with "properties", is not an object; otherwise its transforms are, in fieldset and property order, those of the properties with a non-blank alias whose data type guid, asked of the memo the properties before left, has a valid migration, and it leaves the memo those lookups leave |
| Archetype.FieldSetTransformsList | src/Our.Umbraco.Migration/DataTypeMigrators/ArchetypeMigrator.cs:19-39 | the walk over the fieldsets throws exactly when one is not readable and otherwise equals the in-order lookup of their listed properties, memo included |
| Archetype.PropertyTransformsList | src/Our.Umbraco.Migration/DataTypeMigrators/ArchetypeMigrator.cs:24-38 | the walk over one fieldset's properties throws exactly when one is not an object and otherwise equals the in-order lookup of its listed properties, memo included |
| Archetype.FieldSetStepLookups | src/Our.Umbraco.Migration/DataTypeMigrators/ArchetypeMigrator.cs:21-38 | one fieldset's turn throws exactly when the fieldset is not readable and otherwise adds the lookups of its listed properties |
| Archetype.PropertyStepLookups | src/Our.Umbraco.Migration/DataTypeMigrators/ArchetypeMigrator.cs:26-37 | one property's turn, on an object, adds the lookup of the property if its alias is not blank, and nothing otherwise |
| Archetype.LookupsMember | src/Our.Umbraco.Migration/DataTypeMigrators/ArchetypeMigrator.cs:29-37 | a transform is found exactly when some listed property's data type, asked with the memo so far, has a valid migration whose transform, for that property's alias, it is |
| Archetype.ConfigListMember | src/Our.Umbraco.Migration/DataTypeMigrators/ArchetypeMigrator.cs:14-27 | the properties a configuration lists are exactly those with a non-blank alias of its fieldsets, and none without fieldsets |
| Archetype.FieldSetListMember | src/Our.Umbraco.Migration/DataTypeMigrators/ArchetypeMigrator.cs:19-22 | a property is listed for the fieldsets exactly when some fieldset lists it |
| Archetype.FieldSetPropertiesMember | src/Our.Umbraco.Migration/DataTypeMigrators/ArchetypeMigrator.cs:21-29 | a fieldset lists exactly its properties with a non-blank alias, with their data type guid text; none without "properties" |
| Archetype.PropertyListMember | src/Our.Umbraco.Migration/DataTypeMigrators/ArchetypeMigrator.cs:24-29 | a property is listed exactly when its alias is not blank, with its data type guid text |
| Archetype.PropertyTransformsAgain | src/Our.Umbraco.Migration/DataTypeMigrators/ArchetypeMigrator.cs:24-38 | searching the same properties again against a memo that remembers the first search finds the same transforms and adds nothing |
| Archetype.PropertyTransformsExtends | src/Our.Umbraco.Migration/DataTypeMigrators/ArchetypeMigrator.cs:24-38 | the memo after a longer walk remembers everything the shorter one did |
| Archetype.FieldSetTransformsAgain | src/Our.Umbraco.Migration/DataTypeMigrators/ArchetypeMigrator.cs:19-39 | searching the same fieldsets again finds the same transforms and adds nothing |
| Archetype.PropertyTransformsGrow | src/Our.Umbraco.Migration/DataTypeMigrators/ArchetypeMigrator.cs:24-38 | a walk over properties only adds to the memo |
| Archetype.FieldSetTransformsGrow | src/Our.Umbraco.Migration/DataTypeMigrators/ArchetypeMigrator.cs:19-39 | a walk over fieldsets only adds to the memo |
| Archetype.TransformsAgain | src/Our.Umbraco.Migration/DataTypeMigrators/ArchetypeMigrator.cs:12-40 | asking again for the same configuration's transforms, with either retain flag, finds the same ones and consults nothing new |
| Archetype.PropertyTransformsErrSticky | src/Our.Umbraco.Migration/DataTypeMigrators/ArchetypeMigrator.cs:24-38 | once a property throws, the walk throws the same |
| Archetype.FieldSetTransformsErrSticky | src/Our.Umbraco.Migration/DataTypeMigrators/ArchetypeMigrator.cs:19-39 | once a fieldset throws, the walk throws the same |
| Archetype.PropertyTransformsOf | src/Our.Umbraco.Migration/DataTypeMigrators/ArchetypeMigrator.cs:24-38 | the loop computes the specified transforms and memo |
| Archetype.AddProperty | src/Our.Umbraco.Migration/DataTypeMigrators/ArchetypeMigrator.cs:26-36 | one property: an indexing error throws, a blank alias adds nothing, otherwise the memoised migration (if any) adds one transform and the memo is updated as specified |
| Archetype.GetJsonPropertyTransforms | src/Our.Umbraco.Migration/DataTypeMigrators/ArchetypeMigrator.cs:12-40 | the loops compute the specified transforms and fill the memo as specified |
| Archetype.FieldSetsOf | src/Our.Umbraco.Migration/DataTypeMigrators/ArchetypeMigrator.cs:19-38 | the loop over the fieldsets computes the specified transforms and memo, stopping at the first exception |
| Archetype.AddFieldSet | src/Our.Umbraco.Migration/DataTypeMigrators/ArchetypeMigrator.cs:21-37 | one fieldset: an indexing error throws, no "properties" adds nothing, otherwise its properties' transforms are appended |
| Grid.GridSetter | src/Our.Umbraco.Migration/DataTypeMigrators/GridMigrator.cs:196-202 | a null tree, or a null on the value path, leaves the tree alone; an indexer that throws makes the setter throw; otherwise the inner setter's result is written at the control's value and nothing off that path changes |
| Grid.Visit | src/Our.Umbraco.Migration/DataTypeMigrators/GridMigrator.cs:166-168 | a control is visited exactly when it has a value, a non-blank editor alias and a migrator for that alias, and then with that value and alias; reading throws exactly when indexing the control or its editor does |
| Grid.ReachFront | src/Our.Umbraco.Migration/DataTypeMigrators/GridMigrator.cs:138-164 | the controls under the first children are the same in any longer list |
| Grid.UnderFront | src/Our.Umbraco.Migration/DataTypeMigrators/GridMigrator.cs:138-164 | hits found under a prefix of the children are hits under the whole list |
| Grid.UnderSub | src/Our.Umbraco.Migration/DataTypeMigrators/GridMigrator.cs:142-164 | hits found under a child's subtree are hits under its parent list |
| Grid.UnderAppend | src/Our.Umbraco.Migration/DataTypeMigrators/GridMigrator.cs:138-164 | hits of two walks of the same list joined are still hits of it |
| Grid.WalkSound | src/Our.Umbraco.Migration/DataTypeMigrators/GridMigrator.cs:134-194 | every hit of the walk is a visited control |
| Grid.WalkComplete | src/Our.Umbraco.Migration/DataTypeMigrators/GridMigrator.cs:134-194 | every visited control is a hit of the walk |
| Grid.ReachNavigates | src/Our.Umbraco.Migration/DataTypeMigrators/GridMigrator.cs:198 | the control the walk reaches is what following its path finds |
| Grid.NavigateReaches | src/Our.Umbraco.Migration/DataTypeMigrators/GridMigrator.cs:198 | an object found by following a path is the control the walk reaches |
| Grid.ControlsVisited | src/Our.Umbraco.Migration/DataTypeMigrators/GridMigrator.cs:134-168 | the controls found are exactly those at sections[s].rows[r].areas[a].controls[c] that have a value, a non-blank editor alias and a migrator for it |
| Grid.Retarget | src/Our.Umbraco.Migration/DataTypeMigrators/GridMigrator.cs:180-187 | every inner value keeps its value and migration, its setter re-aimed at the control |
| Grid.NothingWithoutControls | src/Our.Umbraco.Migration/DataTypeMigrators/GridMigrator.cs:134-168 | without sections or with no control visited the transform finds nothing |
| Grid.StringItems | src/Our.Umbraco.Migration/DataTypeMigrators/GridMigrator.cs:61 | the text items kept are exactly the string items of "allowed" |
| Grid.AllowedOf | src/Our.Umbraco.Migration/DataTypeMigrators/GridMigrator.cs:51-62 | an area that is not an object throws; "allowAll" true allows every alias; otherwise the area allows exactly the string items of "allowed", and is skipped without it |
| Grid.GrowsTrans | src/Our.Umbraco.Migration/DataTypeMigrators/GridMigrator.cs:64-67 | two steps of filling the dictionary compose |
| Grid.CreateGrows | src/Our.Umbraco.Migration/DataTypeMigrators/GridMigrator.cs:66 | an alias not in the dictionary yet is created through the registry; one already there changes nothing |
| Grid.AddAllGrows | src/Our.Umbraco.Migration/DataTypeMigrators/GridMigrator.cs:64-67 | each allowed alias ends up in the dictionary, an entry already there stays, and the dictionary agrees with the registry's memo |
| Grid.AreasGrows | src/Our.Umbraco.Migration/DataTypeMigrators/GridMigrator.cs:48-68 | the loop over one layout's areas adds exactly the aliases they allow |
| Grid.LayoutsGrows | src/Our.Umbraco.Migration/DataTypeMigrators/GridMigrator.cs:43-69 | the loop over the layouts adds exactly the aliases their areas allow |
| Grid.MigratorMapFacts | src/Our.Umbraco.Migration/DataTypeMigrators/GridMigrator.cs:39-72 | the migrator map has exactly the aliases the layouts allow, each with the migrator the registry remembers, and the registry only learns |
| Grid.AreasErrSticky | src/Our.Umbraco.Migration/DataTypeMigrators/GridMigrator.cs:48-68 | once an area throws, the loop throws the same |
| Grid.LayoutsErrSticky | src/Our.Umbraco.Migration/DataTypeMigrators/GridMigrator.cs:43-69 | once a layout throws, the loop throws the same |
| Grid.AddAllowed | src/Our.Umbraco.Migration/DataTypeMigrators/GridMigrator.cs:64-67 | the innermost loop computes the specified dictionary and registry |
| Grid.AddAreas | src/Our.Umbraco.Migration/DataTypeMigrators/GridMigrator.cs:48-68 | the loop over the areas computes the specified dictionary and registry |
| Grid.AddArea | src/Our.Umbraco.Migration/DataTypeMigrators/GridMigrator.cs:50-67 | one area: the aliases it allows (all of them when allowAll is true) are created as specified; no "allowed" leaves the dictionary as it is |
| Grid.GetMigratorMap | src/Our.Umbraco.Migration/DataTypeMigrators/GridMigrator.cs:39-72 | the loop over the layouts computes the specified dictionary and registry |
| Grid.AddLayout | src/Our.Umbraco.Migration/DataTypeMigrators/GridMigrator.cs:45-68 | one layout: no "areas" leaves the dictionary as it is, otherwise its areas are walked as specified |
| Grid.Live | src/Our.Umbraco.Migration/DataTypeMigrators/GridMigrator.cs:32 | dropping null migrators keeps exactly the entries with a migrator, unchanged |
| Grid.TransformsWithoutLayouts | src/Our.Umbraco.Migration/DataTypeMigrators/GridMigrator.cs:22-26 | without layouts nothing is produced, and neither the cached aliases nor the registry change |
| Grid.TransformsFacts | src/Our.Umbraco.Migration/DataTypeMigrators/GridMigrator.cs:20-37 | with layouts the alias list is cached; at most one transform is produced; its migrators are non-null, for aliases the layouts allow, and the ones the registry remembers; the registry only learns |
| Grid.AddAllLearns | src/Our.Umbraco.Migration/DataTypeMigrators/GridMigrator.cs:64-67 | the innermost loop only teaches the registry |
| Grid.AreasLearn | src/Our.Umbraco.Migration/DataTypeMigrators/GridMigrator.cs:48-68 | the loop over the areas only teaches the registry, even when it throws |
| Grid.LayoutsLearn | src/Our.Umbraco.Migration/DataTypeMigrators/GridMigrator.cs:43-69 | the loop over the layouts only teaches the registry, even when it throws |
| Grid.CachedAliasesWin | src/Our.Umbraco.Migration/DataTypeMigrators/GridMigrator.cs:28-29 | once the alias list is cached, the configured aliases no longer matter |
| Grid.GridMigrator.constructor | src/Our.Umbraco.Migration/DataTypeMigrators/GridMigrator.cs:18 | no alias list is cached at first |
| Grid.GridMigrator.GetJsonPropertyTransforms | src/Our.Umbraco.Migration/DataTypeMigrators/GridMigrator.cs:20-37 | the transforms, the cached alias list and the registry are the specified ones |
| MultiUrlPicker.UdiOfFacts | src/Our.Umbraco.Migration/DataTypeMigrators/RJPMultiUrlPickerMigrator.cs:65-73 | a link without a positive id gets the empty reference; a positive id maps to the reference of the media node when "isMedia" reads true, else of the document node |
| MultiUrlPicker.Linked | src/Our.Umbraco.Migration/DataTypeMigrators/RJPMultiUrlPickerMigrator.cs:75-79 | a non-blank reference is stored in "udi" and "url" is removed; a blank one changes nothing; no other key changes |
| MultiUrlPicker.Named | src/Our.Umbraco.Migration/DataTypeMigrators/RJPMultiUrlPickerMigrator.cs:81-85 | a non-blank caption is stored in "name"; no other key changes |
| MultiUrlPicker.Stripped | src/Our.Umbraco.Migration/DataTypeMigrators/RJPMultiUrlPickerMigrator.cs:87-90 | "caption", "id", "isMedia" and "icon" are removed and every other key is kept |
| MultiUrlPicker.RecodeLinks | src/Our.Umbraco.Migration/DataTypeMigrators/RJPMultiUrlPickerMigrator.cs:75-79 | after all the edits "udi" holds a non-blank reference and "url" is gone, or both are as they were |
| MultiUrlPicker.RecodeNames | src/Our.Umbraco.Migration/DataTypeMigrators/RJPMultiUrlPickerMigrator.cs:81-85 | after all the edits "name" holds a non-blank caption, or is as it was |
| MultiUrlPicker.RecodeKeeps | src/Our.Umbraco.Migration/DataTypeMigrators/RJPMultiUrlPickerMigrator.cs:75-90 | a key the edits do not touch keeps its value |
| MultiUrlPicker.RecodeFacts | src/Our.Umbraco.Migration/DataTypeMigrators/RJPMultiUrlPickerMigrator.cs:65-93 | the legacy keys go, the reference and caption are stored as above, and nothing else changes |
| MultiUrlPicker.RecodeAgain | src/Our.Umbraco.Migration/DataTypeMigrators/RJPMultiUrlPickerMigrator.cs:65-90 | a recoded link has no id, caption or legacy key left, so recoding it again changes nothing |
| MultiUrlPicker.MapIdempotent | src/Our.Umbraco.Migration/DataTypeMigrators/RJPMultiUrlPickerMigrator.cs:52-94 | when the parser reads back what the map wrote, mapping the result again gives the same text |
| MultiUrlPicker.StepTransparent | src/Our.Umbraco.Migration/DataTypeMigrators/RJPMultiUrlPickerMigrator.cs:72 | an answer of a sound reference cache is the cache-free answer |
| MultiUrlPicker.Map | src/Our.Umbraco.Migration/DataTypeMigrators/RJPMultiUrlPickerMigrator.cs:52-94 | with a reference cache that agrees with the services, the link is recoded as specified; a value that is not text, or parses to null, is returned as it is; a link without a positive id leaves the shared cache as it was; one with a positive id changes only its kind's cache, by one cache step for the id; a sound shared cache stays sound |
| MultiUrlPicker.LinkUdi | src/Our.Umbraco.Migration/DataTypeMigrators/RJPMultiUrlPickerMigrator.cs:65-73 | the reference is "" without a positive id, else the shared cache's answer for the id, of media when "isMedia" reads true and of a document otherwise; only that kind's cache changes, by one cache step; a sound shared cache stays sound |
| MultiUrlPicker.Rewrite | src/Our.Umbraco.Migration/DataTypeMigrators/RJPMultiUrlPickerMigrator.cs:75-90 | the edits in the order the source makes them give the specified recoding: a non-blank reference in "udi" without "url", a non-blank caption in "name", the legacy keys gone |
| MultiUrlPicker.PropertySetter | src/Our.Umbraco.Migration/DataTypeMigrators/RJPMultiUrlPickerMigrator.cs:32-41 | a null array or an index past the end is left alone; a token that is not an array throws; otherwise the text is parsed first, and a text that is null, malformed or not an object throws, as does a negative index after a successful parse; a parsed object or null replaces the item at the index, keeping the length and every other item |
| MultiUrlPicker.ValuesAndSetters | src/Our.Umbraco.Migration/DataTypeMigrators/RJPMultiUrlPickerMigrator.cs:23-30 | a null tree throws; every item's text is yielded in order with the setter of its index |
| MultiUrlPicker.Migration | src/Our.Umbraco.Migration/DataTypeMigrators/RJPMultiUrlPickerMigrator.cs:43-48 | the upgrader reads text and recodes the link; there is no downgrader |
| MultiUrlPicker.DowngradeThrows | src/Our.Umbraco.Migration/DataTypeMigrators/RJPMultiUrlPickerMigrator.cs:47 | downgrading a link throws |
| MultiUrlPicker.TransformExtracts | src/Our.Umbraco.Migration/DataTypeMigrators/RJPMultiUrlPickerMigrator.cs:14-21 | the extractor never yields null |
| MultiUrlPicker.AsMigrator | src/Our.Umbraco.Migration/DataTypeMigrators/RJPMultiUrlPickerMigrator.cs:10-21 | every data type needs migrating with the one transform; the editor becomes "Umbraco.MultiUrlPicker"; the database type and pre-values stay |
| NuPicker.Keys | src/Our.Umbraco.Migration/DataTypeMigrators/NuPickerMigrator.cs:111-140 | the keys are read from the list one per entry, in order, and reading fails exactly when some entry cannot be read |
| NuPicker.Texts | src/Our.Umbraco.Migration/DataTypeMigrators/NuPickerMigrator.cs:116 | a null key is written as the empty text |
| NuPicker.MapBlank | src/Our.Umbraco.Migration/DataTypeMigrators/NuPickerMigrator.cs:109-126 | a null or blank value is returned unchanged |
| NuPicker.MapList | src/Our.Umbraco.Migration/DataTypeMigrators/NuPickerMigrator.cs:111-126 | an empty list returns the input; exactly one entry maps to its key; two or more give the keys joined by "," inside brackets, without quotes |
| NuPicker.MapThrows | src/Our.Umbraco.Migration/DataTypeMigrators/NuPickerMigrator.cs:111-140 | an entry that cannot be read makes the map throw |
| NuPicker.ManyKeysRoundTrip | src/Our.Umbraco.Migration/DataTypeMigrators/NuPickerMigrator.cs:114-117 | with two or more comma-free keys, splitting the text between the brackets gives the keys back |
| NuPicker.Migration | src/Our.Umbraco.Migration/DataTypeMigrators/NuPickerMigrator.cs:82-100 | the upgrader reads the raw value and maps it; there is no downgrader |
| NuPicker.AsMigrator | src/Our.Umbraco.Migration/DataTypeMigrators/NuPickerMigrator.cs:18-76 | every data type needs migrating with the picker migration; the editor alias is the one given; the database type and pre-values stay |
| Maps.DtoFacts | src/Our.Umbraco.Migration/DataTypeMigrators/MapsMigrator.cs:77-97 | the address holds lat and lng, the centre of the map holds the same coordinates, the map type is "roadmap" and the zoom 17 |
| Maps.ThreeParts | src/Our.Umbraco.Migration/DataTypeMigrators/MapsMigrator.cs:71-99 | three comma-separated parts give the map object with the first as latitude and the second as longitude; the third is dropped |
| Maps.OtherShapes | src/Our.Umbraco.Migration/DataTypeMigrators/MapsMigrator.cs:71-103 | any other number of non-empty parts returns the input unchanged |
| Maps.Migration | src/Our.Umbraco.Migration/DataTypeMigrators/MapsMigrator.cs:47-60 | the upgrader reads the raw value and maps it; there is no downgrader |
| Maps.AsMigrator | src/Our.Umbraco.Migration/DataTypeMigrators/MapsMigrator.cs:19-41 | every data type needs migrating; the editor becomes "Our.Umbraco.GMaps"; the database type and pre-values stay |
| MediaPicker.NewPreValuesFacts | src/Our.Umbraco.Migration/Our.Umbraco.Migration/DataTypeMigrators/MediaPickerMigrator.cs:12-22 | the new pre-values are exactly the three switches, all "0", plus "startNodeId" copied as it is when the old ones have it |
| MediaPicker.GetNewPreValues | src/Our.Umbraco.Migration/Our.Umbraco.Migration/DataTypeMigrators/MediaPickerMigrator.cs:12-22 | the dictionary written entry by entry is the specified one, with four entries when the start node is copied and three otherwise |
| MediaPicker.Migration | src/Our.Umbraco.Migration/Our.Umbraco.Migration/DataTypeMigrators/IdToUdiMigrator.cs:14-15 | upgrading maps media ids to references, downgrading maps references back to ids |
| MediaPicker.AsMigrator | src/Our.Umbraco.Migration/Our.Umbraco.Migration/DataTypeMigrators/MediaPickerMigrator.cs:6-10 | every data type needs migrating; the editor becomes "Umbraco.MediaPicker2", the database type Ntext, and the pre-values are the new ones |
| Composition.Without | src/Our.Umbraco.Migration/PropertiesToCompositionMigration/Models/Composition.cs:15-16 | the filtered text is no longer than the input and holds only kept characters |
| Composition.WithoutKept | src/Our.Umbraco.Migration/PropertiesToCompositionMigration/Models/Composition.cs:15-16 | a text of kept characters is left as it is |
| Composition.WithoutCounts | src/Our.Umbraco.Migration/PropertiesToCompositionMigration/Models/Composition.cs:15-16 | a kept character occurs as often as in the input, a dropped one not at all |
| Composition.LowerFirst | src/Our.Umbraco.Migration/PropertiesToCompositionMigration/Models/Composition.cs:17 | only the first character is lower-cased |
| Composition.CompositionAlias | src/Our.Umbraco.Migration/PropertiesToCompositionMigration/Models/Composition.cs:15-17 | the alias fails, with the index error, exactly when the name has no ASCII letter or digit |
| Composition.LowerCharKeeps | src/Our.Umbraco.Migration/PropertiesToCompositionMigration/Models/Composition.cs:17 | lower-casing keeps a letter or digit one and is idempotent |
| Composition.AliasShape | src/Our.Umbraco.Migration/PropertiesToCompositionMigration/Models/Composition.cs:15-17 | the alias is the name's letters and digits, in order, with the first lower-cased; nothing else |
| Composition.AliasIdempotent | src/Our.Umbraco.Migration/PropertiesToCompositionMigration/Models/Composition.cs:15-17 | an alias is its own alias |
| Composition.AliasIgnoresPunctuation | src/Our.Umbraco.Migration/PropertiesToCompositionMigration/Models/Composition.cs:15-16 | punctuation and spaces in a name make no difference to its alias |
| Composition.LegacyCompositionAlias | src/Our.Umbraco.Migration/Our.Umbraco.Migration/PropertiesToCompositionMigration/Models/Composition.cs:9 | the legacy alias fails exactly on an empty name and has no spaces |
| Composition.LegacyAliasCounts | src/Our.Umbraco.Migration/Our.Umbraco.Migration/PropertiesToCompositionMigration/Models/Composition.cs:9 | the legacy alias is shorter than the name by its number of spaces, and every other non-letter character is kept as often |
| Composition.NoSpacesLength | src/Our.Umbraco.Migration/Our.Umbraco.Migration/PropertiesToCompositionMigration/Models/Composition.cs:9 | removing spaces shortens a text by its number of spaces |
| Composition.LegacyWithoutSpaces | src/Our.Umbraco.Migration/Our.Umbraco.Migration/PropertiesToCompositionMigration/Models/Composition.cs:9 | a name without spaces keeps its length, only its first character lower-cased |
| Composition.RulesAgree | src/Our.Umbraco.Migration/PropertiesToCompositionMigration/Models/Composition.cs:15-17 | on names made only of letters and digits the two rules agree |

## Where the description and the code differ

The model follows the code in each case:

- **Descendant closure.** `GetIdAndDescendentIds` (src/Our.Umbraco.Migration/ContentsByTypeSource.cs:119-132) does not remember which ids it has visited.
  - A type reached along two composition paths is listed twice.
  - A cycle in the composition graph makes the walk run forever.
  - The model therefore takes a rank function as a witness that the graph is acyclic, and it keeps the duplicates.
- **Migration target version.** `MigrationAttribute` declares no target version, yet `GetUpgraders` reads one from `MigrationDetail`. The model gives each discovered migration an explicit target version.

## Left out

- Logging, SQL, database connections, transactions and the HTTP trigger are left out; they are host I/O. This covers `MigrationApplier`, the startup handlers, `PropertiesToCompositionMigration` and the content-version cleanup table.
- The host's services are parameters, not modelled behaviour:
  - content, media, member and type service calls;
  - `Udi.TryParse`;
  - JSON deserialisation;
  - `SemVersion.TryParse`;
  - the clock.
- Service writes are returned as lists of calls, in order, rather than performed.
- Reflection scanning of assemblies is replaced by an explicit registration list. Which migrator wins when two classes register the same alias depends on assembly order, which is not modelled.
- The `[DataTypeMigrator]` alias of `MapsMigrator` is "nuPickers.EnumDropDownPicker", the same as `EnumNuPickerMigration`'s. The model keeps that alias as written, and the resulting registry collision is not modelled.
- Locks around the static registries and caches are left out. Concurrency is not modelled; a static field is modelled as a field of an explicit shared object.
- Lazy enumeration is not modelled. Content and JSON trees are values, so an enumerator interleaved with setter mutation is modelled as "extract all, then set".
- In the Grid extractor the two phases run in that order. When several steps would throw, the model may report a different exception than the source does.
- `GridMigrator.GetAllAliasesAndRegisterGenericMigrators` and `RegisterPropertyMigrations` (src/Our.Umbraco.Migration/DataTypeMigrators/GridMigrator.cs:74-126) read host configuration. The configured alias list is a parameter, and the registration of generic migrators in the factory that these methods make is not modelled.
- Two migrators are left out; they follow the same extractor pattern as Archetype and Grid:
  - `GenericEditorMigrator`;
  - `DocTypeMigrator`.
- `IGridAliasMigrator.GetJsonPropertyTransforms` is a parameter.
- These are left out because they are constants or forwarding with no logic:
  - the constant-only picker migrators (ContentPicker, MemberPicker, MultipleMediaPicker, both `IdToUdiMigrator` classes);
  - `DefaultIdToUdiMigration` and `MigrationRunnerDetail`.
- Interfaces and plain records have no behaviour and are left out.
- `NestedContentMigrator` and `RelatedLinksMigrator` are left out; they depend on fresh guids, node names and icon lookups.
- Both `MultiNodeTreePickerMigrator` classes are left out; the newer one does not compile as written.
- The legacy `ArchetypeMigrator` is left out; it duplicates the current extractor with live service lookups.
- The current `MediaPickerMigrator` (typed configuration) is not modelled. Only the legacy pre-value rewrite is.
- JsonContent.ResolveGuid: the `ConfigurationAs<MultiNodePickerConfiguration>()` cast of src/Our.Umbraco.Migration/DataTypeMigrators/JsonContentMigrator.cs:50 is folded into the migrator parameter. The migrator's `needsMigration` and `propertyMigration` receive the data type and derive its configuration themselves. An exception from that cast, which the host throws for a configuration of another type, is not modelled. The lookup then has no error path there.
- JsonContent.Resolve, JsonContent.ValidSpec and JsonContent.KnownValidMigrators.GetValidPropertyMigration inherit that omission: the configuration cast and its failure are folded into the migrator parameter.
- MediaPicker.GetNewPreValues: `new PreValue("0")` is modelled with id 0 and sort order 0.
- MultiUrlPicker.Map: that the result is `MapSpec` is promised only under a cache that agrees with the repository, and soundness is kept only while no two kinds share a cache object (the source creates one per kind).
- ContentsByType.GetContentsSpec, ContentsByType.GetContents, GridAliasMigratorFactory.DefaultGridAliasMigratorFactory.constructor and GridAliasMigratorFactory.DefaultGridAliasMigratorFactory.RegisterGridAliasMigrators model the corrected behaviour of the two "## Findings" rows: media aliases looked up among the media types, and the whole 17-character suffix trimmed. The source as written is `ContentsByType.GetContentsAsWritten` (operation level), `ContentsByType.MediaLookupAsWritten` and `GridAliasMigratorFactory.SuffixAsWritten`.
- Json.JNum: numbers are integers only; fractions and exponents, as Newtonsoft reads them, are not modelled.
- Guids.ParseGuid: only the "N" and "D" layouts are read; `Guid.TryParse` (src/Our.Umbraco.Migration/UdiToIdTransform.cs:42) also accepts the "B", "P" and "X" layouts.
- Udis.ParseAbsoluteUri: a small subset of `Uri.TryCreate`; escaping, ports and user information are not handled.
- MultiUrlPicker: the serialiser is the compact `Json` writer rather than Newtonsoft's indented `ToString`. The downgrader is modelled as missing, because its getter throws `NotImplementedException`.
- MultiUrlPicker.AsMigrator: `RJPMultiUrlPickerMigrator` derives from the generic `JsonContentMigrator<JArray>` while using the legacy runner's signatures, so the model runs it on `LegacyJsonContent`. `TransformExtracts` shows its extractor never yields null, and by `LegacyJsonContent.MapAgrees` the legacy run then equals the current one.
- Versions.Less and Versions.VersionString: a `SemVersion` is modelled as its major, minor and patch numbers only. The prerelease and build parts are left out, together with their precedence in the comparison (`1.0.0-beta` before `1.0.0`) and the "-prerelease+build" suffix `ToString` writes into the recorded plan state. The resolvers' comparisons at src/Our.Umbraco.Migration/ProductMigrationResolver.cs:119-126 and src/Our.Umbraco.Migration/Our.Umbraco.Migration/ProductMigrationResolver.cs:79-83 are therefore modelled only for release versions.
- NuPicker: Newtonsoft's case-insensitive property-name matching and its exact conversions are simplified. A list element that is not an object gives an error.
- Composition.CompositionAlias: `ToLowerInvariant` is modelled on ASCII only, and a null composition name is not modelled.
- Unicode case mapping, Newtonsoft's formatting details and 64-bit paging totals are not modelled. Ids are Int32 where the source parses them, and paging counts are unbounded integers.

## Findings

| source | as written | input that shows it | evidently intended | confidence | as-written member | corrected member |
|---|---|---|---|---|---|---|
| src/Our.Umbraco.Migration/GridAliasMigrators/GridAliasMigratorFactory.cs:46 | trims 16 characters for the 17-character suffix "GridAliasMigrator" | class name "DocTypeGridAliasMigrator" registers under "DocTypeG" | the class name without its suffix, "DocType" | not executed | GridAliasMigratorFactory.SuffixAsWritten | GridAliasMigratorFactory.SuffixCorrected |
| src/Our.Umbraco.Migration/ContentsByTypeSource.cs:42 | the media branch looks its alias up with the content type service | a media source for "Image" on a site whose only "Image" type is a media type yields nothing | look the alias up among the media types, as the legacy source does | not executed | ContentsByType.MediaLookupAsWritten | ContentsByType.MediaLookupCorrected |
| src/Our.Umbraco.Migration/DataTypeMigrators/ArchetypeMigrator.cs:76-77 | the fieldset guard is `Count < idx`, so an index equal to the count passes and indexing throws | value {"fieldsets":[]} with fieldset index 0 and property index 0 | the guard `Count <= idx`, so the setter returns without writing | not executed | Archetype.AsWrittenThrowsAtCount | Archetype.PropertySetter |
