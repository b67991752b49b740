# The hard core of the ION platform, modelled and proved

Three parts of the platform carry the difficult invariants, and a few small algorithms have
arguments that are not obvious from their code. This project models them in Dafny and proves what
they are for.

**Schema migration (`ModelDeployer`).** The planner compares a class model with an existing
database schema, files change sets in about twenty buckets and emits the buckets in a fixed order.
`PropertyTypes`, `DeployPlan`, `InheritanceLevels` and `DeployLog` say what it decides,
`ModelDeployer.dfy` is the planner itself as a class with mutable buckets, and `Database` and
`Batches` give every change its precondition and its effect on tables, columns and cells. From
these `PlanShape` to `PlanExecutes` prove when the emitted plan runs through, `PlanFaults` and
`ReferenceFaults` show schemas on which it does not, `PlanData` proves that nothing is lost and
`PlanRefusals` that this holds whatever fails, `PlanSchema` says which tables and columns are there
afterwards, `PlanKeys`, `PlanLinks` and `PlanTargets` which foreign keys and what they refer to, and
`PlanIndices` which indices and primary keys are touched, `PlanReferences` and `ReferenceOrders` say when
migrated references still refer to their rows, `PlanFixpoint` and `PlanRelations` when the planner accepts
its own output, `DiscriminatorBackfill` that the generated script is exact, and `PlanBackfill` what it
comes to within a whole plan.

**Offline synchronisation.** `ZipVolumes` (archives cut into volumes and joined), `ChangeFiles`
(numbered change files), `UploadServer` and `UploadClient` (the two sides of an upload, with the
state they keep on disk), `UploadRuns` (all interleavings of the two, with loss, repetition,
corruption and resumption), `UploadFaults` (exactly where that ends), `UploadArrives` (what is answered,
and what goes on in a later session), `OutgoingChanges` (what becomes of the changes over many sessions), `PackageQueue` (packages queued, packed, applied and committed)
and `VolumeDownload` (manifest, download loop and resumed download).

**Class metadata.** `MetaRepository` (loading and linking classes), `ClassMetas` (the resolver for
property names), `ItemProperties` (the flattened index of an item) and `PathEnumeration` (the
paths the modeler offers) walk the same graph of classes, structs and references, and are proved to
agree.

**Small algorithms.** `OrderNumbers`, `WorkflowRoles`, `FileStorage` and `ConditionalSelection`.

`Text`, `Listing` and `Wrappers` hold what the others share: numerals and their lexicographic
order, sorting and permutations, `Option`.

To check the whole project, run `dafny verify dfyconfig.toml`.

## What the code does where one might expect otherwise

- `getColumnSize` (`ModelDeployer.java`, line 500) asks whether the property's own type code is
  one of the sized `java.sql.Types` codes. The model takes it literally; only TEXT, HTML, URL and
  GUID can have a column size, and that is what makes in-place changes widenings only.
- A migrated discriminator column gets its new name with the column prefix, while the statement that
  copies its data uses the name without; hence the first part of the condition in
  `PlanExecutes.Executable`. A side of a relation table is made anew only if it was there, while the
  new primary key names both; hence the second part. The statement that fills a migrated reference
  looks for the saved key of the row referred to, whether that key is migrated or not; hence the third.
  The new foreign key has the name of the old one, which is dropped only where the key referred to
  is migrated or widened; hence the fourth.
- For the same reason the declared length of STRING, FILE and IMAGE properties is ignored for their columns,
  while the sides of relation tables are compared with it, so that some are planned again every time; see
  `PropertyTypes.TypesExactly` and `PlanRelations.RelationSettledExactly`. A column added to an existing table
  gets no index; see `PlanIndices.IndicesExactly`.
- Every change set is created with `failOnError` off (line 345), so a failing one is passed over and the
  run goes on. That a plan runs through means here that none fails; `PlanRefusals.NothingLostAnyway`
  says what holds when some do.
- The order of the classes is that of a hash map; the sort by references is commented out (lines
  318-330) with the remark that foreign keys are made after all tables. The copies of migrated
  references depend on it all the same; see `PlanReferences.ReferencesFollowExactly`.
- The foreign keys that refer to a migrated key are dropped, and only those of columns made anew are
  made again; see `PlanLinks.ExportedKeysLost`.
- `Transport.java` (lines 146-185) looks only at the answer to the last volume before the package is
  deleted. `UploadFaults.SentIsDeliveredExactly` says when that is enough.
- Every package in one session goes out under the same token, and `packageReady` counts files without
  looking at their names; `UploadFaults.ShareTokenExactly` says which packages may share a token.
- `CommitDequeue` does not say which package it commits; see
  `PackageQueueing.RepeatedCommitLoses` and `PackageQueueing.RepeatedCommitExactly`. A client stopped
  after the commit drops the package; see `PackageQueueing.StoppedExactly`.
- A session that ends cleaned before its package is delivered loses the changes in it; see
  `OutgoingChanges.ArrivesExactly`. A split that fails leaves volumes that are sent as a package of
  their own; see `UploadFaults.StoppedPackageIsJoined`.
- The download loop tries again after timeouts only, and commits when nothing is left to try; see
  `VolumeDownload.DownloadState.DownloadVolumes`.
- The script of a new discriminator runs before the copy that fills a migrated key; see
  `PlanBackfill.PlanBackfillExactly`.
- `SelectList` looks conditions up through references, while `Dependencies` lists the conditions
  alone; see `ConditionalSelection.CompleteExactly`.
- The index of an item keeps the topmost of several declarations of one name, the resolver finds the
  nearest; see `ItemProperties.AgreeExactly`.
- `excludeDuplicatedOrderNumbers` compares boxed numbers by identity; see
  `OrderNumbers.DistinctExactly`.
- A dragged column is found again by its caption and property joined with a bar; see
  `OrderNumbers.DragIsFound`.
- A session does not begin while the server has volumes of an unfinished upload; see
  `UploadArrives.SessionBeginsExactly`.
- A workflow state whose roles nobody holds allows everything; see
  `WorkflowRoles.UnassignedAllowsEverything`.

## Assumptions

- A valid model (`PlanShape.ValidModel`): the ancestor graph has no cycles, every class has its key
  property, which is no collection and not called like the discriminator, and references resolve where
  foreign keys are made. The sanitised names of the classes and properties of the model do not collide,
  nor do those of the foreign keys of one class or of one relation; none collides with the
  discriminator column, the one name that goes without a prefix, or with the table of a class outside
  the model. No subclass declares the root key or the discriminator again (a root may declare a
  property called like the discriminator, which the latter replaces). The foreign keys of the schema
  refer to columns that are there, and the suffix `_changeLogId` of renamed columns is new to it.
- The name functions stand for `dbName` and the sanitising of names; the order in which Java maps and
  directories are listed is arbitrary but each entry is listed once, and JDBC lists the foreign keys
  in the order of the schema.
- A volume is accepted on the comparison of its hash, which the client makes unless `checkConsistency`
  is switched off (`Transport.java`, line 205).
- The query for changes gives those logged after its date, and none is logged between the query and
  the reading of the clock.
- A key column holds each key once, so that a reference finds at most one row.
- Zip is a pair of inverse functions; hashes do not collide; JSON and the URL encoding of ids read
  back what was written; request headers arrive intact; reads fill the buffer except at the end.
- Volumes that the comparator puts in a total order are sorted by it; on others the sort may throw or
  not. An item that a reference refers to is of the referenced class or of one below it.
- Class graphs have no cycles of ancestors, no shadowed names along a chain, and no dots or dollars in
  plain property names, where a statement requires it.

## Model

| member | source | states |
|---|---|---|
| PlanExecutes.Executable | ion-sync/src/ion/util/sync/ModelDeployer.java:1073-1523 | for every valid model and every existing schema, every emission order the maps allow: no change set of the plan fails, each finding what it needs and nothing of what it creates, foreign keys included, if and only if no existing discriminator column has to be migrated, every existing relation table whose primary key is made anew has both its columns, the key that a migrated reference is followed by is migrated too, and no foreign key the plan makes has a namesake on its table that the plan does not drop |
| PlanExecutes.ExecutableByNames | ion-sync/src/ion/util/sync/ModelDeployer.java:575-602 | the same told from model and schema alone, where the existing foreign keys have different names |
| PlanFaults.BlockedPlansStop | ion-sync/src/ion/util/sync/ModelDeployer.java:1148-1189 | the first two parts of the condition are needed: two concrete schemas, one with a discriminator column of unbounded text and one with a relation table that lacks its detail column, on which every plan of a valid model meets a failing change set |
| ReferenceFaults.ReferencePlansStop | ion-sync/src/ion/util/sync/ModelDeployer.java:1209-1241 | so are the other two: a schema on which the foreign key of a migrated reference is there already, and one on which the key it refers to stays as it is; every plan meets a failing change set |
| ReferenceFaults.OldLinkBlocks | ion-sync/src/ion/util/sync/ModelDeployer.java:668-676 | the first of these schemas: all but the names of foreign keys is fine |
| ReferenceFaults.KeptKeyBlocks | ion-sync/src/ion/util/sync/ModelDeployer.java:1213-1241 | the second: all but the followed key is fine |
| PlanFaults.OldDiscriminatorBlocks | ion-sync/src/ion/util/sync/ModelDeployer.java:1148-1189 | the first schema: the model is valid, relation tables and references are fine, the discriminator is not |
| PlanFaults.HalfRelationBlocks | ion-sync/src/ion/util/sync/ModelDeployer.java:758-1025 | the second: the model is valid, discriminator and references are fine, a relation table is not |
| PlanFaults.EmptyDatabaseDeploys | ion-sync/src/ion/util/sync/ModelDeployer.java:1437-1498 | into an empty database no change set of a valid model fails |
| ModelDeploying.ModelDeployer.GenerateChangeSets | ion-sync/src/ion/util/sync/ModelDeployer.java:1027-1528 | the planner with its buckets, counter and drop map: the change sets come out bucket after bucket in the fixed order, each bucket holding exactly what its classes and properties contribute, every foreign key that has to go is dropped once, and all change set ids differ |
| ModelDeploying.ModelDeployer.PlanClasses | ion-sync/src/ion/util/sync/ModelDeployer.java:1073-1498 | the loop over the classes: buckets and drops are those of all classes so far, and no relation table is planned twice |
| ModelDeploying.ModelDeployer.PlanMigration | ion-sync/src/ion/util/sync/ModelDeployer.java:1148-1257 | a column that no longer fits: renamed with its key and collection parts, and what is pending for the table grows by exactly its column, the assignment that fills it, keys and drops |
| ModelDeploying.ModelDeployer.FollowKey | ion-sync/src/ion/util/sync/ModelDeployer.java:1213-1241 | the loop over the imported keys: the first foreign key over the column decides whether a reference is followed |
| ModelDeploying.ModelDeployer.PlanAddition | ion-sync/src/ion/util/sync/ModelDeployer.java:1295-1365 | a property without a column in an existing table: column or relation table, a new discriminator with its script |
| ModelDeploying.ModelDeployer.PlanNewColumn | ion-sync/src/ion/util/sync/ModelDeployer.java:1451-1480 | a property of a new table; a subclass does not repeat the key |
| ModelDeploying.ModelDeployer.PlanWidening | ion-sync/src/ion/util/sync/ModelDeployer.java:1258-1294 | a column that only has to grow is changed in place, and the keys referring to it are dropped |
| ModelDeploying.ModelDeployer.EstablishRelationship | ion-sync/src/ion/util/sync/ModelDeployer.java:758-1025 | a relation table is created, or its two sides are renamed, enlarged and added, its primary key and foreign keys replaced exactly when a side is migrated |
| ModelDeploying.ModelDeployer.FillLevels | ion-sync/src/ion/util/sync/ModelDeployer.java:1530-1554 | the map filled depth first ends up, level by level, with what the direct description of the levels gives, appended to what was there |
| ModelDeploying.ModelDeployer.BackfillScript | ion-sync/src/ion/util/sync/ModelDeployer.java:1318-1348 | the generated statements are those of the levels, deepest first, then the root |
| ModelDeploying.IdsDiffer | ion-sync/src/ion/util/sync/ModelDeployer.java:333-347 | two change sets with different numbers have different ids |
| ModelDeploying.DropsCollected | ion-sync/src/ion/util/sync/ModelDeployer.java:1500-1500 | the drop map holds existing keys, each name once, and exactly the names that have to go |
| DeployLog.SelectTotal | ion-sync/src/ion/util/sync/ModelDeployer.java:1073-1498 | selecting one bucket from the stream of all change sets gives the changes the classes contribute to that bucket, in order |
| PlanRuns.StageStep | ion-sync/src/ion/util/sync/ModelDeployer.java:1500-1523 | whatever part of the plan runs through leads from the tables and columns predicted before it to those predicted after it |
| PlanExecutes.PartsRun | ion-sync/src/ion/util/sync/ModelDeployer.java:1500-1523 | under the condition every prefix of the emitted parts runs through and reaches the predicted tables, columns and foreign keys |
| PlanExecutes.MustBeDeployable | ion-sync/src/ion/util/sync/ModelDeployer.java:1148-1256 | a plan that runs through shows that the condition held: otherwise a copy or a primary key names a column that is gone, or a foreign key is there |
| PlanExecutes.ReferencesMustBeReady | ion-sync/src/ion/util/sync/ModelDeployer.java:1213-1241 | where the followed key stays, the statement that fills a reference looks for a saved column that is not there |
| PlanExecutes.BucketFits | ion-sync/src/ion/util/sync/ModelDeployer.java:1073-1498 | each change of each bucket finds what it needs at its place in the order, and nothing of what it creates, nor the foreign key it adds |
| PlanExecutes.PartIndependent | ion-sync/src/ion/util/sync/ModelDeployer.java:1073-1498 | the changes of one part can be run in any order the maps choose: none takes what another needs or makes what another makes, and no foreign key is made twice |
| PlanKeys.ClassKeysExact | ion-sync/src/ion/util/sync/ModelDeployer.java:575-602 | exactly the linked columns that the plan makes in class tables get a foreign key |
| PlanKeys.RelationKeysExact | ion-sync/src/ion/util/sync/ModelDeployer.java:937-1004 | exactly the relation tables that are made or reset get their two foreign keys |
| PlanKeys.KeyStep | ion-sync/src/ion/util/sync/ModelDeployer.java:1500-1523 | whatever part runs through leads from the foreign keys predicted before it to those predicted after it |
| PlanKeys.KeysReadyByName | ion-sync/src/ion/util/sync/ModelDeployer.java:1258-1294 | told by names, the keys the plan makes are free if and only if those of class tables are: a reset relation table loses all of its own |
| PlanLinks.KeysAfter | ion-sync/src/ion/util/sync/ModelDeployer.java:1285-1293 | after a plan exactly these foreign keys are there: the old ones not dropped, those of linked columns made in class tables, and those of relation tables made or reset |
| PlanLinks.LinkAfter | ion-sync/src/ion/util/sync/ModelDeployer.java:575-602 | the foreign key of a property is there afterwards if and only if the plan gives the property a column and links it, or the key was there and its name does not have to go |
| PlanLinks.ExportedKeysLost | ion-sync/src/ion/util/sync/ModelDeployer.java:1285-1293 | a foreign key that refers to a table whose key is migrated or widened is there afterwards if and only if its own column is made anew: references and subclass keys whose columns stay lose theirs |
| PlanTargets.KeysRefer | ion-sync/src/ion/util/sync/ModelDeployer.java:575-690 | after every plan that runs through, key by key with the column it is over and the table and column it refers to: exactly the old foreign keys that were not dropped; for each reference that gets a column, under referential integrity, one from its column to the key column of the class it refers to; for each new key column of a subclass one to the table of the class above; and for each relation table made or reset one from master to the class with the collection and one from detail to that of the items |
| PlanTargets.ClassTargets | ion-sync/src/ion/util/sync/ModelDeployer.java:591-592 | the part for class tables makes exactly the first two kinds: a reference of a note to a person is over the column of the reference in the table of notes, and refers to the key column of the table of persons |
| PlanTargets.RelationTargets | ion-sync/src/ion/util/sync/ModelDeployer.java:937-1004 | the part for relation tables makes exactly the third kind |
| PlanSchema.TablesAfter | ion-sync/src/ion/util/sync/ModelDeployer.java:1437-1498 | after a plan that runs through exactly these tables are there: the old ones, one for each class, and one for each collection without a back reference or back collection whose class is in the model |
| PlanSchema.PropertyColumnAfter | ion-sync/src/ion/util/sync/ModelDeployer.java:560-569 | every property that is no collection has its column: with the type it had where the comparison keeps that, and otherwise with the type made for the property, or, for a reference, for the key of the class it refers to |
| PlanSchema.SideAfter | ion-sync/src/ion/util/sync/ModelDeployer.java:758-1025 | the sides of a relation table, new or there before, have the type they had where the comparison keeps it, and otherwise that of the key they hold: master that of the class with the collection, detail that of the items |
| PlanSchema.RelatesExactly | ion-sync/src/ion/util/sync/ModelDeployer.java:1190-1210 | which collections have a relation table, and what it is called |
| PlanSchema.PropertiesExactly | ion-sync/src/ion/util/sync/ModelDeployer.java:1078-1089 | the properties of a class are taken in the order of their numbers, each once, the discriminator joining those of a superclass in place of a property of that name |
| PlanSchema.ColumnsInOrder | ion-sync/src/ion/util/sync/ModelDeployer.java:1451-1480 | the columns they get are in that order |
| PlanSchema.KeyColumnOnce | ion-sync/src/ion/util/sync/ModelDeployer.java:1451-1480 | a new subclass table has one key column, also where the subclass declares the key again |
| PlanIndices.IndicesExactly | ion-sync/src/ion/util/sync/ModelDeployer.java:692-710 | exactly the indexed properties that are not unique get an index, in new tables and where the column is made anew; a column added to an existing table gets none |
| PlanIndices.PrimaryKeysExactly | ion-sync/src/ion/util/sync/ModelDeployer.java:1162-1188 | the type of a key is restated, its primary key dropped and the new one made over the key column exactly where the key column of a superclass is made anew |
| PlanIndices.RelationPrimaryKeysExactly | ion-sync/src/ion/util/sync/ModelDeployer.java:758-1025 | the primary key over both sides is made with the relation table, and dropped and made again exactly where a side is made anew |
| PlanIndices.DropsExactly | ion-sync/src/ion/util/sync/ModelDeployer.java:1285-1293 | exactly the foreign keys are dropped that refer to the table of a superclass whose key column is made anew or enlarged, or that belong to a relation table of which a side is made anew; every drop names a key that is there |
| PlanReferences.ReferencesFollow | ion-sync/src/ion/util/sync/ModelDeployer.java:1213-1241 | a reference migrated together with the scalar key of the class it refers to: after every plan that runs through it holds the new key of the row it referred to, if the class referred to comes before the referring class in the order of planning; if not, or if it is the same class, every such reference is null |
| PlanReferences.ReferencesFollowExactly | ion-sync/src/ion/util/sync/ModelDeployer.java:316-330 | row by row, as an if and only if: a reference whose row has a key afterwards still refers to it exactly if the class referred to is planned before; the sort that would see to it is commented out as unnecessary |
| PlanReferences.CopyOrder | ion-sync/src/ion/util/sync/ModelDeployer.java:1427-1433 | the copies of two classes are in the data part in the order of the classes |
| PlanReferences.KeyBeforeCopy | ion-sync/src/ion/util/sync/ModelDeployer.java:1427-1433 | a migrated key column holds nothing before the copy of its class |
| ReferenceOrders.OrderDecides | ion-sync/src/ion/util/sync/ModelDeployer.java:316-330 | one schema with a note and its boss, two orders of the two classes: every plan runs through, and the note has the new key of its boss in the one order and none in the other |
| PlanRefusals.NothingLostAnyway | ion-sync/src/ion/util/sync/ModelDeployer.java:333-347 | the change sets may fail without stopping the run: whatever part of a plan is attempted, in whatever order, the statements that copy relation data included, and whatever of it is refused, every old column is there with all its cells, under its own name or under name_changeLogId |
| PlanRefusals.PlannedIsHarmless | ion-sync/src/ion/util/sync/ModelDeployer.java:1073-1498 | every single change can only rename an old column to its saved name, or assign to it once that name is there |
| PlanRefusals.RelationCopyIsHarmless | ion-sync/src/ion/util/sync/ModelDeployer.java:848-871 | so do the statements that copy the migrated sides of relation tables, which address the table under another prefix |
| PlanExecutes.RelatesOnce | ion-sync/src/ion/util/sync/ModelDeployer.java:1190-1210 | a relation table belongs to one property of one class |
| PlanColumns.RenamesExact | ion-sync/src/ion/util/sync/ModelDeployer.java:1148-1189 | exactly the migrated columns are renamed, and to their saved names |
| PlanColumns.NewColumnsExact | ion-sync/src/ion/util/sync/ModelDeployer.java:604-690 | exactly the planned columns are created, in new tables and in existing ones |
| PlanColumns.SidesExact | ion-sync/src/ion/util/sync/ModelDeployer.java:797-895 | exactly the migrated sides of relation tables are renamed, and exactly those are added again |
| PlanColumns.RelColumnsExact | ion-sync/src/ion/util/sync/ModelDeployer.java:978-1022 | new relation tables get exactly their two sides |
| PlanStages.ChangesOnce | ion-sync/src/ion/util/sync/ModelDeployer.java:1073-1498 | no rename, creation or addition occurs twice in its bucket, over all classes |
| Batches.BatchRuns | ion-sync/src/ion/util/sync/ModelDeployer.java:1500-1523 | changes that can each be applied and do not interfere run through together |
| Batches.RunKeys | ion-sync/src/ion/util/sync/ModelDeployer.java:1500-1523 | tables and columns after such a run are those kept and those created |
| Batches.RunRenames | ion-sync/src/ion/util/sync/ModelDeployer.java:1148-1160 | a renamed column is found whole, type and cells, under its new name |
| PlanData.NothingLost | ion-sync/src/ion/util/sync/ModelDeployer.java:1148-1189 | after the plan every old column is there with all its cells, under its own name or under name_changeLogId |
| PlanData.InPlaceOnlyWidens | ion-sync/src/ion/util/sync/ModelDeployer.java:1258-1266 | an in-place type change of a class-table column restates its type, turns DATE into datetime or enlarges a character column |
| PlanData.ReferencesNeverWiden | ion-sync/src/ion/util/sync/ModelDeployer.java:1269-1282 | only DATETIME, URL and GUID properties are changed in place, so the branch that links references again is never taken |
| PlanData.ScalarsCopied | ion-sync/src/ion/util/sync/ModelDeployer.java:1211-1256 | the new column of a migrated scalar property holds the old cells, cast exactly when the old type does not suit the property |
| PropertyTypes.OnlyFourTypesAreSized | ion-sync/src/ion/util/sync/ModelDeployer.java:499-518 | since the guard takes the property code for a java.sql.Types code, a column size exists only for URL, GUID and sized TEXT and HTML |
| PropertyTypes.InPlaceChangesWiden | ion-sync/src/ion/util/sync/ModelDeployer.java:1110-1147 | whatever the branch order decides to change in place only widens the column |
| PropertyTypes.DeployedColumnIsKept | ion-sync/src/ion/util/sync/ModelDeployer.java:434-568 | a column created for a property, as the database reports it, is left alone by the comparison, for every type with a case of its own |
| PropertyTypes.KeptExactly | ion-sync/src/ion/util/sync/ModelDeployer.java:1107-1147 | a column is left alone if and only if its code suits the property, no DATETIME sits in a DATE, and URL and GUID have their wanted size |
| PropertyTypes.TypesExactly | ion-sync/src/ion/util/sync/ModelDeployer.java:499-558 | which type each property gets: the declared length of STRING, PASSWORD, FILE and IMAGE and the precision of DECIMAL are ignored, only URL keeps its length |
| PropertyTypes.TypeChange | ion-sync/src/ion/util/sync/ModelDeployer.java:1107-1147 | what becomes of the column made for one property once it is declared as another, for all pairs of types: between groups of types it is migrated, within a group only URL and GUID compare lengths, a longer column migrates and a shorter one grows in place |
| PropertyTypes.ReferenceDecision | ion-sync/src/ion/util/sync/ModelDeployer.java:1107-1147 | the column of a reference is kept if its type suits the key of the class referred to, and migrated otherwise, never changed in place |
| PropertyTypes.SideSettlesExactly | ion-sync/src/ion/util/sync/ModelDeployer.java:797-895 | the side of a relation table as the planner makes it is kept by the next comparison if and only if the declared size of the key is the one its columns get |
| PropertyTypes.SideMigratesExactly | ion-sync/src/ion/util/sync/ModelDeployer.java:797-836 | a side is made anew if and only if its type does not suit the key or it is larger than declared |
| PropertyTypes.CastsExactly | ion-sync/src/ion/util/sync/ModelDeployer.java:438-466 | the cast goes by the group of the type that is stored, and is left out where the old type suits |
| PropertyTypes.RestatedType | ion-sync/src/ion/util/sync/ModelDeployer.java:744-749 | how the type of an existing column is restated |
| PlanFixpoint.Fixpoint | ion-sync/src/ion/util/sync/ModelDeployer.java:1107-1147 | planning again against the schema the first plan produced adds nothing for a class table whose property types have a case of their own |
| PlanFixpoint.PropertySettled | ion-sync/src/ion/util/sync/ModelDeployer.java:1107-1147 | the same for each such property of any class, collections included |
| PlanFixpoint.ColumnSettled | ion-sync/src/ion/util/sync/ModelDeployer.java:434-568 | the column the plan leaves behind for a property, kept, enlarged, replaced or new, is one the comparison keeps |
| PlanFixpoint.KeySettled | ion-sync/src/ion/util/sync/ModelDeployer.java:1366-1382 | the second plan finds every class table with its key column |
| PlanRelations.RelationSettledExactly | ion-sync/src/ion/util/sync/ModelDeployer.java:758-1025 | the second plan leaves a relation table alone if and only if both sides settle: each was there with a type the comparison keeps, or its key has no declared size or the one its columns are made with; otherwise it is planned again |
| InheritanceLevels.LevelExact | ion-sync/src/ion/util/sync/ModelDeployer.java:1530-1554 | level l lists every class exactly l + 1 ancestor steps below the root class, once, and no other |
| InheritanceLevels.LevelsContiguous | ion-sync/src/ion/util/sync/ModelDeployer.java:1530-1554 | the level numbers are contiguous: none is empty before the last |
| InheritanceLevels.OneWayUp | ion-sync/src/ion/util/sync/ModelDeployer.java:1530-1554 | two children of one class share no descendant |
| DiscriminatorBackfill.ScriptIsExact | ion-sync/src/ion/util/sync/ModelDeployer.java:1318-1348 | the updates, deepest level first, give a null row the name of its one most derived class, if child keys are contained in ancestor tables and siblings are disjoint |
| DiscriminatorBackfill.BackfillIsExact | ion-sync/src/ion/util/sync/ModelDeployer.java:1318-1348 | the same for the change as applied to a database: non-null cells stay, null cells get the name of the most derived class |
| PlanBackfill.PlanBackfillExactly | ion-sync/src/ion/util/sync/ModelDeployer.java:1318-1348 | after a whole plan that gives a root its discriminator, row by row: the row has the name of its most derived class, told by the key columns as they were, if and only if the key column of the root is not made anew in the same plan, or the row belongs to the root alone; else it has the name of the root |
| PlanBackfill.ScriptPlace | ion-sync/src/ion/util/sync/ModelDeployer.java:1427-1433 | the script occurs once in the data part, and before the copy that fills a migrated key |
| PlanBackfill.FreshIsNull | ion-sync/src/ion/util/sync/ModelDeployer.java:1411-1433 | every column the plan has made is still empty when the data part begins |
| PlanBackfill.ChildKeyBefore | ion-sync/src/ion/util/sync/ModelDeployer.java:1366-1382 | the key columns of the subclasses show the script the rows they showed before the plan; one added by the plan shows none |
| PlanFaults.MigratedKeyHidesSubclasses | ion-sync/src/ion/util/sync/ModelDeployer.java:1318-1348 | a schema with numeric keys that are to become strings: every plan runs through and gives a row of the subclass the name of the root |
| DiscriminatorBackfill.OneMostDerived | ion-sync/src/ion/util/sync/ModelDeployer.java:1318-1348 | a row has one most derived class |
| DiscriminatorBackfill.LevelsUpdates | ion-sync/src/ion/util/sync/ModelDeployer.java:1326-1340 | after the levels from l - 1 down a row holds the name of a deepest class that has it, or is null if none has |
| ZipVolumes.ZipVolumeProcessor.Split | ion-offline-utils/src/ion/offline/data/ZipVolumeProcessor.java:48-112 | the archive of exactly the files found is written whole or cut into the pieces, and then deleted; a file name without a dot is an error |
| ZipVolumes.ZipVolumeProcessor.Cut | ion-offline-utils/src/ion/offline/data/ZipVolumeProcessor.java:81-111 | the loop that cuts: the volumes are consecutive pieces of the archive |
| ZipVolumes.ZipVolumeProcessor.Join | ion-offline-utils/src/ion/offline/data/ZipVolumeProcessor.java:114-165 | the volumes are sorted, concatenated and unpacked over the folder; where the comparator throws nothing is written |
| ZipVolumes.GetFiles | ion-offline-utils/src/ion/offline/data/ZipVolumeProcessor.java:37-46 | the recursive walk collects the list the lemmas speak about |
| ZipVolumes.JoinInvertsSplit | ion-offline-utils/src/ion/offline/data/ZipVolumeProcessor.java:48-165 | joining the volumes of a split, listed in any order, succeeds and gives back exactly the files of the tree, for every limit |
| ZipVolumes.PiecesExact | ion-offline-utils/src/ion/offline/data/ZipVolumeProcessor.java:81-111 | the number of volumes is the ceiling of length over limit, each is non-empty and within the limit, together they are the archive |
| ZipVolumes.VolumesExactly | ion-offline-utils/src/ion/offline/data/ZipVolumeProcessor.java:62-111 | an archive within the limit, or without one, is one volume under the name of the archive; any other is at least two, numbered from 0, none empty or beyond the limit, together the archive |
| ZipVolumes.NameExactly | ion-offline-utils/src/ion/offline/data/ZipVolumeProcessor.java:48-61 | volumes are called after the directory, or after the file up to its last dot |
| ZipVolumes.SortRestoresPieces | ion-offline-utils/src/ion/offline/data/ZipVolumeProcessor.java:116-133 | sorting by the numeric suffix restores the order of the pieces, past .vol9 too, and never fails on them |
| ZipVolumes.PieceIndex | ion-offline-utils/src/ion/offline/data/ZipVolumeProcessor.java:116-133 | the digits after the last dot of a piece name are its index |
| ZipVolumes.StoppedSplit | ion-offline-utils/src/ion/offline/data/ZipVolumeProcessor.java:81-111 | a split that fails while cutting leaves volumes that are put in order and joined to a prefix of the archive, the whole of it if and only if no volume is missing or cut short |
| ZipVolumes.FilesExact | ion-offline-utils/src/ion/offline/data/ZipVolumeProcessor.java:37-46 | exactly the files of the tree are found, each once |
| ZipVolumes.PathNameInjective | ion-offline-utils/src/ion/offline/data/ZipVolumeProcessor.java:64-70 | different files have different entry names |
| ChangeFiles.InOrderExactly | ion-offline-client/src/ion/offline/sync/SimpleSyncManager.java:113-121 | the file names are in lexicographic order of creation if and only if there are at most 1,000,000 of them, whatever their suffixes |
| ChangeFiles.ReplayedInOrder | ion-offline-utils/src/ion/offline/server/SimpleSyncSession.java:163-196 | sorting any listing of the saved files and reading them yields the changes in the order they were saved |
| ChangeFiles.PastTheLimit | ion-offline-client/src/ion/offline/sync/SimpleSyncManager.java:113-121 | the file after the 1,000,000th sorts before its predecessor |
| ChangeFiles.FileNameInjective | ion-offline-client/src/ion/offline/sync/SimpleSyncManager.java:113-121 | no two changes share a file |
| ChangeFiles.FromFileRestores | ion-offline-utils/src/ion/offline/server/SimpleSyncSession.java:174-189 | the kind of a unit and its fields come back from file name and content |
| ChangeFiles.Outbox.CreateOutgoingPackage | ion-offline-client/src/ion/offline/sync/SimpleSyncManager.java:80-104 | changes, then auxiliary data, are saved under consecutive numbers, none overwriting another |
| UploadRuns.UploadIsSafe | ion-offline-utils/src/ion/offline/server/SimpleSyncSession.java:89-117 | in every run with lost, repeated, reordered and corrupted deliveries and resumed uploads, in which packages under one token are kin: the server directory is part of one package of its token, unPack is started on whole packages of the token only, each of them is pushed, and nothing else is |
| UploadRuns.RunIsSafe | ion-offline-utils/src/ion/offline/server/SimpleSyncSession.java:89-117 | the invariant behind it holds after every such run |
| UploadRuns.StepHolds | ion-offline-core/src/ion/offline/util/server/SyncSession.java:77-126 | every single event keeps the invariant: session opened, package made, upload started, volume sent, delivery with or without answer, interruption, upload given up, package deleted, session ended with or without cleaning |
| UploadRuns.ReadyIsWhole | ion-offline-utils/src/ion/offline/server/SimpleSyncSession.java:106-110 | when the number of files matches, the directory is a whole package of the token, and unpacking it succeeds and yields its changes |
| UploadRuns.UnpackRestores | ion-offline-utils/src/ion/offline/server/SimpleSyncSession.java:163-196 | unpacking all volumes of a package yields its changes, each once, in creation order |
| UploadRuns.OutgoingIsWhole | ion-offline-client/src/ion/offline/sync/SimpleSyncManager.java:141-174 | an upload, resumed from .rest or not, covers all volumes, so the total sent along is their number |
| UploadRuns.AllAnsweredIsDelivered | ion-offline-core/src/ion/offline/util/client/Transport.java:146-185 | if every volume was answered with success, and the token served no other volumes, the package was pushed |
| UploadFaults.SentIsDeliveredExactly | ion-offline-core/src/ion/offline/util/client/Transport.java:146-185 | the client deletes a package after the answer to the last volume alone: in every run with kin packages under a token it was delivered by then if and only if it has a single volume |
| UploadFaults.OnlyTheLastArrives | ion-offline-core/src/ion/offline/util/client/Transport.java:153-182 | for every package a run in which all volumes are sent in turn, all but the last arrive corrupted, are answered 406 and passed over, and the package is deleted while the server has one of several volumes and pushed nothing |
| UploadFaults.ShareTokenExactly | ion-offline-utils/src/ion/offline/server/SimpleSyncSession.java:89-117 | two packages can be sent under one token, in every run that makes no others, without unPack ever starting on anything but a whole one, if and only if they have the same number of volumes of which at most one differs; two packages of a single volume always can |
| UploadFaults.TokenReuseIsUnsafe | ion-offline-client/src/ion/offline/sync/SimpleSyncManager.java:57-62 | for any two other packages, made one after the other under one token, a run in which packageReady holds and unPack starts on a directory that is neither, lacking a volume of the second package, or of the first where the second is a single volume |
| UploadFaults.StoppedPackageIsJoined | ion-offline-client/src/ion/offline/sync/SimpleSyncManager.java:102-107 | after such a failure the client counts what is left and sends that number as the total; the server joins it, and has the whole archive if and only if nothing is missing |
| OutgoingChanges.ArrivesExactly | ion-offline-client/src/ion/offline/sync/SimpleSyncManager.java:57-111 | in every run of sessions: a change of the package at the end of a session is delivered, then or later, if and only if it was delivered before or the directories are not cleaned, because the date of the last package has moved on |
| OutgoingChanges.GoneForGood | ion-offline-client/src/ion/offline/sync/SimpleSyncManager.java:64-82 | a change that was packed and whose package is gone is never packed or delivered again |
| UploadFaults.PackedNames | ion-offline-utils/src/ion/offline/data/ZipVolumeProcessor.java:81-111 | the number of volumes of a package tells their names |
| UploadServer.SimpleSyncSession.AcceptVolume | ion-offline-core/src/ion/offline/util/server/SyncSession.java:77-126 | one request: token and hash are checked, the volume stored, a complete package unpacked and pushed, and its volumes deleted even if unpacking throws; a refused request changes nothing |
| UploadServer.SimpleSyncSession.Accept | ion-offline-utils/src/ion/offline/server/SimpleSyncSession.java:89-104 | a volume is stored if its own hash matches, acknowledged if the one there matches, refused otherwise |
| UploadServer.SimpleSyncSession.UnPack | ion-offline-utils/src/ion/offline/server/SimpleSyncSession.java:163-196 | volumes joined, files sorted and read by a loop index; an error where the volumes cannot be sorted |
| UploadRuns.InitHolds | ion-offline-core/src/ion/offline/util/server/SyncSession.java:37-47 | a new token, issued only over an empty directory, keeps the invariant, also when the package of an earlier session is sent again under it |
| UploadServer.SimpleSyncSession.PushAll | ion-offline-core/src/ion/offline/util/server/SyncSession.java:90-118 | the loop that pushes: in order, each unit once, plain units under the empty token, changes under the token of their author, those of unknown authors skipped |
| UploadServer.PushesExactly | ion-offline-core/src/ion/offline/util/server/SyncSession.java:90-118 | of the units of a package, in order and each once, those that have a receiver are pushed and no others: every plain unit under the empty token, every change of a known author under the token of that author |
| UploadArrives.RefusedExactly | ion-offline-core/src/ion/offline/util/server/SyncSession.java:77-88 | a request is refused if and only if its token is not the current one or neither the body nor the volume that is there has the announced hash; then nothing changes |
| UploadArrives.RedeliveryIsHarmless | ion-offline-utils/src/ion/offline/server/SimpleSyncSession.java:89-104 | a volume that was accepted without completing the package is accepted again, whatever body comes with it, and changes nothing |
| UploadArrives.CompletesExactly | ion-offline-core/src/ion/offline/util/server/SyncSession.java:87-121 | a request that completes the directory empties it, and is answered with success if and only if the directory can be unpacked; only then its units are pushed |
| UploadArrives.ArrivesInAnyOrder | ion-offline-core/src/ion/offline/util/server/SyncSession.java:77-126 | the volumes of a package, arriving in whatever order over an empty directory, are all answered with success; the last one has every unit pushed to its receiver and leaves the directory empty |
| UploadArrives.SessionBeginsExactly | ion-offline-core/src/ion/offline/util/server/SyncSession.java:37-47 | a session begins if and only if the directory of the server is empty and the answer arrives |
| UploadArrives.GoesOnLater | ion-offline-client/src/ion/offline/sync/SimpleSyncManager.java:141-174 | an interrupted upload goes on in the next session, if nothing is cleaned and the server has none of it: the same volumes in the same order, from the first, under a new token |
| UploadClient.SimpleSyncManager.CreateOutgoingPackage | ion-offline-client/src/ion/offline/sync/SimpleSyncManager.java:57-111 | nothing while a package is there; else the new volumes are the cut archive of exactly the changes and auxiliary data, in order, for any number of them |
| UploadClient.SimpleSyncManager.OutgoingVolumes | ion-offline-client/src/ion/offline/sync/SimpleSyncManager.java:141-174 | the volumes named in .rest that exist, or all if there are none |
| UploadRuns.SendsExactly | ion-offline-client/src/ion/offline/sync/SimpleSyncManager.java:141-174 | a volume is sent if and only if it is there and, where the list has any that is there, listed; a list of which all are there is sent in its order |
| PackageQueueing.CoalescingRefinesTheLog | ion-offline-utils/src/ion/offline/server/PackageQueue.java:125-213 | after every run of queueing, packing, applying and committing, at most the newest package is open, the packages still to come laid over the client store equal all queued units applied one by one, and with nothing to come the store is exactly that |
| PackageQueueing.StepKeeps | ion-offline-utils/src/ion/offline/server/PackageQueue.java:125-213 | every event keeps the invariant |
| PackageQueueing.QueuedMeans | ion-offline-utils/src/ion/offline/server/PackageQueue.java:173-213 | files that overwrite each other hold what the units applied one by one leave |
| PackageQueueing.AppliedInAnyOrder | ion-offline-client/src/ion/offline/sync/SimpleSyncManager.java:233-250 | the files of a package can be applied in any order and repeatedly |
| PackageQueueing.FileNameInjective | ion-offline-utils/src/ion/offline/server/PackageQueue.java:203-213 | different units have different files, whatever characters the class name has |
| PackageQueueing.RepeatedCommitLoses | ion-offline-utils/src/ion/offline/server/PackageQueue.java:400-408 | a commit repeated because its answer was lost drops a package the client never saw: a run and a unit that is lost |
| PackageQueueing.RepeatedCommitExactly | ion-offline-utils/src/ion/offline/server/PackageQueue.java:400-408 | exactly when it is harmless: for every client store, if and only if each unit of the dropped package is brought again by a later one |
| PackageQueueing.StoppedExactly | ion-offline-client/src/ion/offline/sync/SimpleSyncManager.java:423-459 | a client stopped between the commit and the end of the application finds nothing left to download and cleans up: harmless for every store if and only if each unit of its package is brought again by a later one |
| PackageQueueing.StoppedLoses | ion-offline-core/src/ion/offline/util/client/Transport.java:232-253 | a run that ends there, and a unit that is lost |
| PackageQueueing.PackageQueue.Queue | ion-offline-utils/src/ion/offline/server/PackageQueue.java:173-213 | units go into the open newest package or a new one; other clients are not touched |
| PackageQueueing.PackageQueue.Pack | ion-offline-utils/src/ion/offline/server/PackageQueue.java:125-148 | the newest package is closed |
| PackageQueueing.PackageQueue.CommitDequeue | ion-offline-utils/src/ion/offline/server/PackageQueue.java:400-408 | the oldest package is removed |
| VolumeDownload.ManifestRoundTrip | ion-offline-utils/src/ion/offline/server/PackageQueue.java:85-142 | the manifest reads back as the same volumes, in order, with their hashes, for either line separator |
| VolumeDownload.PendingPackage | ion-offline-utils/src/ion/offline/server/PackageQueue.java:85-93 | one link per line, and an error exactly when some line has no hash |
| VolumeDownload.ReadableExactly | ion-offline-utils/src/ion/offline/server/PackageQueue.java:85-93 | a line has a hash if and only if something other than a colon follows its first colon, for colons at the end are dropped; path and hash are what precedes the first colon and what follows it up to the next |
| VolumeDownload.ManifestFile.Write | ion-offline-utils/src/ion/offline/server/PackageQueue.java:133-142 | one line per volume |
| VolumeDownload.ResumeConserves | ion-offline-client/src/ion/offline/sync/SimpleSyncManager.java:423-459 | after any number of accepted volumes and interruptions the restored list and the accepted files partition the manifest: each link is in one of them, none is listed twice, and their numbers add up |
| VolumeDownload.DownloadIsComplete | ion-offline-client/src/ion/offline/sync/SimpleSyncManager.java:423-459 | with nothing left in the restored list the accepted files are the volumes of the server, byte for byte |
| VolumeDownload.DownloadState.DownloadVolumes | ion-offline-core/src/ion/offline/util/client/Transport.java:198-236 | the download loop, over any outcomes of the network: what is left to try are the links that timed out every time; when none is left and DownloadComplete is sent, all volumes are there if and only if no link was dropped by another exception |
| VolumeDownload.ThrownIsDropped | ion-offline-core/src/ion/offline/util/client/Transport.java:204-218 | a link whose first download throws is dropped: after one round nothing is left to try and no volume has come |
| VolumeDownload.CompleteWithoutVolume | ion-offline-core/src/ion/offline/util/client/Transport.java:198-236 | a run of the loop that ends so, and reports the download complete without the volume |
| VolumeDownload.DownloadState.RestoreInitInfo | ion-offline-client/src/ion/offline/sync/SimpleSyncManager.java:423-459 | exactly the listed volumes that are not there; without a stored list the directories are cleaned |
| MetaRepository.ListIsExact | ion-meta/src/ion/framework/meta/IonMetaRepository.java:419-432 | the descendants collected downwards are exactly the other classes whose walk upwards meets the class, each once |
| MetaRepository.IonMetaRepository.List | ion-meta/src/ion/framework/meta/IonMetaRepository.java:419-432 | direct or all descendants, each once, described by the links upwards; a class that is not there is an error |
| MetaRepository.IonMetaRepository.SetMetaDirectory | ion-meta/src/ion/framework/meta/IonMetaRepository.java:350-401 | in whatever order files and map are listed: exactly the valid classes are there, each linked to the class its file declares as ancestor if that has a valid file, and listed exactly once among the descendants of that class and no other |
| MetaRepository.WalkIsDeclared | ion-core/src/ion/core/meta/StructMeta.java:78-85 | after loading, the walk over the links upwards meets a class if and only if the files declare it above, step by step through valid files |
| MetaRepository.IonMetaRepository.Obtain | ion-meta/src/ion/framework/meta/IonMetaRepository.java:315-339 | a class loaded later is linked with the declared ancestor if that is there and joins its descendants, all others stay as they are, and the links stay mutual inverses |
| MetaRepository.AssignStep | ion-meta/src/ion/framework/meta/IonMetaRepository.java:178-184 | assigning one more ancestor keeps the ancestor and descendant links of those assigned before mutual inverses |
| MetaRepository.BelowThroughChild | ion-core/src/ion/core/meta/StructMeta.java:78-85 | a class is below another if and only if its walk upwards meets a child of it |
| MetaRepository.SiblingsApart | ion-core/src/ion/core/meta/StructMeta.java:78-85 | siblings have no descendant in common |
| ClassMetas.ResolveDottedExactly | ion-core/src/ion/core/meta/StructMeta.java:110-141 | a.rest resolves as rest in the class of the nearest reference a, shadowed or not, although the code goes on with the dollar and the ancestors; without one it resolves to nothing |
| ClassMetas.ResolveWithin | ion-core/src/ion/core/meta/StructMeta.java:110-141 | where x is a struct, x$y resolves as y in it, however many steps x and y take |
| ClassMetas.ResolveDotted | ion-core/src/ion/core/meta/StructMeta.java:110-141 | where nothing is shadowed, a.rest resolves as rest in the referenced class if a is a reference with a class, and to nothing otherwise |
| ClassMetas.ResolveStructExactly | ion-core/src/ion/core/meta/StructMeta.java:110-141 | a$b resolves as b in the class of the nearest struct a or above, and to nothing without one |
| ClassMetas.ResolveStruct | ion-core/src/ion/core/meta/StructMeta.java:110-141 | where nothing is shadowed, a$b resolves as b in the struct or above if a is a struct with a class, and to nothing otherwise |
| ClassMetas.ResolvePlain | ion-core/src/ion/core/meta/StructMeta.java:137-140 | a plain name resolves to the nearest property of that name upwards |
| ItemProperties.AgreeExactly | ion-core/src/ion/core/data/Item.java:83-108 | for every well-named model and class: the index and the resolver agree on all dot-free names if and only if, for every flat name declared on the way up, the nearest and the topmost declaration coincide |
| ItemProperties.IndexIsTopmost | ion-core/src/ion/core/data/Item.java:97-108 | later writes win: the index holds the topmost declaration of every flat name, attributes of structs included |
| ItemProperties.ResolverIsNearest | ion-core/src/ion/core/meta/StructMeta.java:110-141 | the resolver finds the nearest declaration: a class in which a is no struct leaves a$b to its ancestor |
| ItemProperties.IndexAgreesWithResolver | ion-core/src/ion/core/data/Item.java:83-108 | without shadowing: a dot-free name is a key of the index if and only if it has at most one dollar, resolves and is no struct by itself, and then the index holds what it resolves to |
| ItemProperties.KeysAreDotFree | ion-core/src/ion/core/data/Item.java:83-108 | no key has a dot, so the agreement covers all keys |
| ItemProperties.IndexIsDeployed | ion-sync/src/ion/util/sync/ModelDeployer.java:267-314 | the keys are exactly the flattened property names that the deployer has for the class and its ancestors together |
| ItemProperties.ShadowedNamesDisagree | ion-core/src/ion/core/data/Item.java:97-103 | an instance: for any two different metas of one name a model where the index keeps the one of the ancestor and the resolver finds the other |
| ItemProperties.Item.GetProperties | ion-core/src/ion/core/data/Item.java:105-115 | the index is built once and kept |
| ItemProperties.Item.InitClassProps | ion-core/src/ion/core/data/Item.java:97-103 | the loop over a class and the recursion into its ancestor |
| ItemProperties.Item.InitProperty | ion-core/src/ion/core/data/Item.java:83-95 | a struct property is replaced by the attributes of the struct and its ancestors |
| ItemProperties.FlattenClass | ion-sync/src/ion/util/sync/ModelDeployer.java:269-314 | the planner flattens a class into the names the agreement speaks about |
| PathEnumeration.OfferedPathsResolve | ion-modeler/src/ion/modeler/editors/IonEditor.java:542-606 | where nothing is shadowed, every offered path resolves if and only if it does not step through a collection, on cyclic reference graphs too |
| PathEnumeration.OfferedPathsResolveExactly | ion-modeler/src/ion/modeler/editors/IonEditor.java:542-606 | whatever is shadowed, an offered path resolves if and only if every step leads on, through the nearest reference of its name, to a property |
| PathEnumeration.ShadowedPathFails | ion-modeler/src/ion/modeler/editors/IonEditor.java:542-606 | four classes and an offered path that steps through no collection and does not resolve, because it was found by way of a shadowed reference |
| PathEnumeration.PathsAreSound | ion-modeler/src/ion/modeler/editors/IonEditor.java:542-606 | the same on the way, for a class reached upwards and over what was offered before |
| PathEnumeration.GetClassProperties | ion-modeler/src/ion/modeler/editors/IonEditor.java:542-606 | the walk over the ancestors ends for every graph and depth, and its result has exactly the paths of the class, told by their steps, each with the caption of one |
| PathEnumeration.OfferedExactly | ion-modeler/src/ion/modeler/editors/IonEditor.java:542-606 | a name is offered if and only if it is a path of the class: a property declared by the class or above it and of the type asked for, an attribute of such a struct or above it, or, within the depth, a path behind such a reference or collection; and its caption is that of such a path |
| PathEnumeration.CaptionsJoined | ion-modeler/src/ion/modeler/editors/IonEditor.java:584-587 | where no name is shadowed, the caption of every path joins the captions of its steps with dots |
| PathEnumeration.AddBehind | ion-modeler/src/ion/modeler/editors/IonEditor.java:583-588 | the entries found behind a reference are all added under the dotted name, in any order |
| OrderNumbers.ExcludeDuplicatedOrderNumbers | ion-modeler/src/ion/modeler/editors/ListViewEditor.java:242-253 | ends for every list, keeps the number of u, only raises numbers at or above it, and is the repair below when the others are distinct |
| OrderNumbers.DistinctExactly | ion-modeler/src/ion/modeler/editors/ListViewEditor.java:242-253 | with the others distinct, all numbers are distinct afterwards if and only if a free number can be reached from that of u through boxed numbers within -128..127 |
| OrderNumbers.OutsideTheCache | ion-modeler/src/ion/modeler/editors/ListViewEditor.java:242-253 | two columns numbered 128 stay as they are |
| OrderNumbers.OrderKept | ion-modeler/src/ion/modeler/editors/ListViewEditor.java:242-253 | the other columns keep their order |
| OrderNumbers.RaisedByOne | ion-modeler/src/ion/modeler/editors/ListViewEditor.java:242-253 | no number is raised by more than one |
| OrderNumbers.PushOn | ion-modeler/src/ion/modeler/editors/ListViewEditor.java:242-253 | pushing one column on and repairing from there is the repair: what makes the recursion inside the loop right |
| OrderNumbers.OnDrop | ion-modeler/src/ion/modeler/editors/ListViewEditor.java:206-240 | the dragged column gets the number before or after the target, or the end, and the list is repaired around it |
| OrderNumbers.OnDrag | ion-modeler/src/ion/modeler/editors/ListViewEditor.java:255-263 | the text of the dragged column |
| OrderNumbers.DragIsFound | ion-modeler/src/ion/modeler/editors/ListViewEditor.java:228-233 | the column that is dragged is the one that is dropped if and only if no column behind it has the same text |
| OrderNumbers.DragIsFoundAgain | ion-modeler/src/ion/modeler/editors/ListViewEditor.java:206-263 | in a list without separators in its captions every column is found again |
| OrderNumbers.DragMovesAnother | ion-modeler/src/ion/modeler/editors/ListViewEditor.java:206-263 | two columns of which the first is dragged and the second moved |
| WorkflowRoles.ItemMaskIsOr | ion-core/src/ion/core/workflow/WorkflowState.java:80-89 | the item mask has a bit if and only if some role assigned to the user has it |
| WorkflowRoles.PropertyMaskIsAnd | ion-core/src/ion/core/workflow/WorkflowState.java:91-107 | the property mask has a bit if and only if every role assigned to the user has it |
| WorkflowRoles.MasksForAnyOrder | ion-core/src/ion/core/workflow/WorkflowState.java:80-107 | the masks do not depend on the order in which the maps are walked |
| WorkflowRoles.TransitionsForAnyOrder | ion-core/src/ion/core/workflow/WorkflowState.java:64-78 | the offered transitions are, as a multiset, those of EVERYBODY and of the roles of the user, whatever the order |
| WorkflowRoles.UnassignedAllowsEverything | ion-core/src/ion/core/workflow/WorkflowState.java:124-136 | the folded item permissions are empty, which the check takes for full permission, if and only if no role with permissions is assigned |
| WorkflowRoles.WorkflowState.FoldTransitions | ion-core/src/ion/core/workflow/WorkflowState.java:64-78 | the loop over the transitions of the roles |
| WorkflowRoles.WorkflowState.FoldItemMasks | ion-core/src/ion/core/workflow/WorkflowState.java:80-89 | the loop over the item permissions |
| WorkflowRoles.WorkflowState.FoldPropertyMasks | ion-core/src/ion/core/workflow/WorkflowState.java:91-107 | the nested loops over the property permissions |
| WorkflowRoles.WorkflowState.GetNextTransitions | ion-core/src/ion/core/workflow/WorkflowState.java:40-50 | the transitions of EVERYBODY, then those of the user: as a multiset those of the roles of each, however they are listed |
| WorkflowRoles.WorkflowState.constructor | ion-core/src/ion/core/workflow/WorkflowState.java:33-107 | for every item, configuration and order of the maps: a user has a bit of the item permissions if and only if some role that is called like a USER property with the user as its value has it; of the permissions of a property if and only if every such role does; and the transitions kept for a user are, as a multiset, those of these roles |
| WorkflowRoles.WorkflowState.AssignRoles | ion-core/src/ion/core/workflow/WorkflowState.java:57-62 | the loop over the properties: a user holds a role if and only if the property called like it is of type USER and has the user as its value |
| WorkflowRoles.WorkflowState.CheckItemPermission | ion-core/src/ion/core/workflow/WorkflowState.java:124-136 | told by the item and the configuration: allowed if and only if nobody performs a role with permissions, or some role of the user has one of the bits asked for |
| WorkflowRoles.WorkflowState.CheckPropertyPermission | ion-core/src/ion/core/workflow/WorkflowState.java:138-150 | allowed if and only if no role configured for the property is performed by the user, or all that are have a bit asked for in common |
| FileStorage.CandidatesDistinct | ion-core/src/ion/core/storage/SimpleFileStorage.java:59-70 | no name is tried twice, with or without a dot in the file name |
| FileStorage.SimpleFileStorage.GetDest | ion-core/src/ion/core/storage/SimpleFileStorage.java:55-71 | the search ends in every finite directory and returns the first unused candidate |
| FileStorage.SimpleFileStorage.AcceptAll | ion-core/src/ion/core/storage/SimpleFileStorage.java:79-109 | after any sequence of uploads every earlier file has its contents, and each upload is found under an id of its own |
| FileStorage.FreeWithinCount | ion-core/src/ion/core/storage/SimpleFileStorage.java:55-71 | the search takes at most as many steps as there are files |
| ConditionalSelection.CompleteExactly | ion-meta/src/ion/framework/meta/IonMetaConditionalSelectionProvider.java:61-104 | for every class: whatever matrix lists these dependencies, any two items that agree on them get the same selection, or the same exception, if and only if each reference that a dotted condition starts with, and that can lead to the property, is itself a condition |
| ConditionalSelection.DependenciesAreComplete | ion-meta/src/ion/framework/meta/IonMetaConditionalSelectionProvider.java:61-104 | the same for one matrix and one pair of items, in the direction that is used; it covers every matrix without dotted conditions |
| ConditionalSelection.StartMissing | ion-meta/src/ion/framework/meta/IonMetaConditionalSelectionProvider.java:61-104 | for any other list of dependencies a matrix and two items that agree on all of them, of which one makes the selection throw and the other does not, over a runtime that takes strings as they are |
| ConditionalSelection.DottedConditionFails | ion-meta/src/ion/framework/meta/IonMetaConditionalSelectionProvider.java:61-104 | the shortest case: the condition a.b is empty, an item without a, and one whose a has no b |
| ConditionalSelection.PropertyDepends | ion-core/src/ion/core/data/Item.java:117-126 | where the reference a name starts with is the same, the dotted lookup comes to the same property |
| ConditionalSelection.LastMatchingRowWins | ion-meta/src/ion/framework/meta/IonMetaConditionalSelectionProvider.java:61-94 | a key is offered if and only if a row whose conditions are all met has it, with the value of the last such row |
| ConditionalSelection.TestMeans | ion-meta/src/ion/framework/meta/IonMetaConditionalSelectionProvider.java:36-92 | a condition throws, holds or fails as its operation says, told by the codes 0 to 10: equality, its negation, the empty text and its negation, patterns, strictly below and above in the order that compareTo gives, at most and at least, membership, and CONTAINS that never holds; null counts as the empty text |
| ConditionalSelection.RowMeans | ion-meta/src/ion/framework/meta/IonMetaConditionalSelectionProvider.java:64-87 | a row matches if and only if all its conditions are met, and throws if and only if the first that is not met throws |
| ConditionalSelection.StopsExactly | ion-meta/src/ion/framework/meta/IonMetaConditionalSelectionProvider.java:61-94 | the selection throws if and only if some row does |
| ConditionalSelection.LookUpAlong | ion-core/src/ion/core/data/Item.java:117-126 | a dotted name is looked up in the item at the end of its references; where one of them is no reference, not set or cannot be loaded, the value is null and there is no property |
| ConditionalSelection.SelectList | ion-meta/src/ion/framework/meta/IonMetaConditionalSelectionProvider.java:61-94 | the loop over the rows, for every runtime that compares values by an order: an exception if and only if the first condition of some row that is not met throws, otherwise exactly the keys of the rows whose conditions are all met |
| ConditionalSelection.ListDependencies | ion-meta/src/ion/framework/meta/IonMetaConditionalSelectionProvider.java:96-104 | the loop over the conditions |
| ConditionalSelection.DependencyAt | ion-meta/src/ion/framework/meta/IonMetaConditionalSelectionProvider.java:96-104 | the dependencies are the properties of all conditions, row by row, each as often as it occurs |

## Left out

- PlanExecutes.Executable: existing indices, primary keys, default values and not-null constraints are not part of the schema; nor are the statements that copy relation data part of what must fit, which address a table with another prefix and are dealt with in PlanRefusals.NothingLostAnyway.
- PlanTargets.KeysRefer: what a foreign key does on deletion, cascade, set null or restrict, is not part of it.
- PlanRelations.RelationSettledExactly: not for DECIMAL keys, whose reported size is up to the database, and not for a relation table that is there without one of its sides.
- PlanFixpoint.Fixpoint: speaks about class tables, PlanRelations.RelationSettledExactly about relation tables; not covered are types without a case of their own (USER, PERIOD and others) or references to keys of such types, because the planner plans these again.
- PlanData.ScalarsCopied: references are dealt with in PlanReferences; not stated for relation tables.
- PlanReferences.ReferencesFollow: for references followed by the key column of the class they refer to, where that key is a scalar; a foreign key over several columns, or one that refers to another column, is not covered.
- PlanData.InPlaceOnlyWidens: speaks about class tables; sides of relation tables are compared by declared sizes, see PropertyTypes.SideMigratesExactly.
- DiscriminatorBackfill.BackfillIsExact: speaks of the keys that are there when the change is applied; PlanBackfill.PlanBackfillExactly of the keys before the plan. The statements are modelled as guarded assignments to the cells of a column; quoting of class names is not.
- ModelDeploying.ModelDeployer.GenerateChangeSets: requires that references and keys resolve; where they do not the code fails on a missing object, which is not modelled.
- ModelDeploying.ModelDeployer.EstablishRelationship: the statements copying relation data are no part of the bucket; PlanRefusals.RelationCopy gives them.
- ZipVolumes.ZipVolumeProcessor.Join: an archive that is broken, because it was joined from volumes of two packages, unpacks to some entries; the exceptions of the zip reader are not modelled, nor the files an interrupted unpacking leaves behind.
- ZipVolumes.PiecesExact: the quotient is exact, where the code rounds it to a double beyond 2^53 bytes; file lengths, counters and order numbers are unbounded integers.
- ZipVolumes.JoinInvertsSplit: empty directories are not archived and do not come back.
- UploadClient.SimpleSyncManager.CreateOutgoingPackage: a split that throws is not part of the method; ZipVolumes.StoppedSplit says what it leaves. One that fails while the archive is written leaves a broken archive.
- UploadServer.SimpleSyncSession.AcceptVolume: failures of the target system while pushing are not modelled.
- UploadRuns.UploadIsSafe: a delivered package can be pushed again by repeated requests; packages of more than a million changes, whose order is lost (ChangeFiles.InOrderExactly), are not made in the runs.
- PackageQueueing.CoalescingRefinesTheLog: data units only; deletion lists, models, views and profiles of a package are rewritten by each call and not accumulated. Units without an id are never queued.
- PackageQueueing.PackageQueue.Queue: the same; client numbers are numbers, parsing them is left out.
- VolumeDownload.ManifestRoundTrip: for names and hashes without colons and line breaks, names without slashes.
- MetaRepository.IonMetaRepository.SetMetaDirectory: an ancestor of the other sort, struct for class, makes the cast fail; not modelled, nor are user types.
- MetaRepository.IonMetaRepository.Obtain: a class loaded before its ancestor is not linked to it later; the lemmas speak about the links that are there.
- ItemProperties.IndexIsDeployed: a reference whose class is a struct has no separate treatment; struct properties refer to structs and structs descend from structs.
- PathEnumeration.OfferedExactly: the order of the offered paths is not part of it, nor, where a name is shadowed, which of its captions is kept.
- OrderNumbers.ExcludeDuplicatedOrderNumbers: with duplicates among the other columns only termination, u's number and the raising are stated; which numbers result depends on the order of the list.
- WorkflowRoles.WorkflowState.constructor: masks are sets of bits, so OR and AND are union and intersection of unbounded masks; selection providers, where the first role wins, are left out.
- FileStorage.SimpleFileStorage.GetDest: the directory of the current minute is a parameter, and two uploads at the same time are not modelled.
- ConditionalSelection.SelectList: what is selected is stated for runtimes that compare values by an order, which compareTo promises; comparing values, converting them to text and loading the item a reference refers to are functions of the values; the item once loaded is not cached.
- JDBC, Liquibase, Hibernate, Gson, Spring, HTTP, signatures and the zip format are replaced by the operations above; the editors are left out except for the two functions named.
- The regular expressions that sanitise names, and the LIKE patterns of the JDBC metadata calls: names are looked up exactly.
