# 3D City Database importer/exporter: a verified model of its core

This project models, in Dafny, the parts of the 3D City Database
importer/exporter that carry their own logic: the CityGML/CityJSON export
controller, the batched writer of deferred group memberships, the plugin
registry, two command-line option validators and a handful of configuration
beans. Everything the core hands to a collaborator (the database, worker
pools, the splitter, the event dispatcher, the file system, the date-time
formatter) comes into the model as a parameter. The model then states and
proves what the core does with those answers.

Modules, one per source concern:

- Wrappers: `Option`, `Result` and `Outcome`, standing for Java's nullable references and for code that returns or throws.
- Beans: opaque configuration objects. `Default` is what a no-argument constructor builds; `Supplied` is anything a caller hands in.
- ApplicationExceptions: the application's checked exception, its eight constructors and its error code.
- `Strings`, `JavaInts`: the Java meanings of `indexOf`, `String.valueOf(int)`, `String.split` and `int` division.
- FeatureVersions: the `--feature-version` option. Its `preprocess` decides over the version, the number of timestamps and their order; `toFeatureVersionFilter` and `toCalendar` follow it.
- QueryOptions: the export command's query options. The XML query excludes every individual option; predicates are collected in a fixed order into an AND filter.
- `ImportLogConfig`, `SimpleKmlQueries`, `KmlExport`: configuration beans, with their defaults, guarded setters and derived predicates.
- Plugins: the plugin and command registry. It keeps one instance per class, and the first registration wins.
- XlinkGroupImporter: the batch of group-membership rows, flushed when the counter reaches the maximum batch size.
- TileNaming: how a tiled export names each tile's folder and file.
- ExportCounters: the per-key counters that workers report as increment maps.
- ExportRules: the checks and settings the export session computes before its tile loop.
- ExportSession: the session's rules as functions of the collaborators' answers. They cover the events, each pass's resources and failure, the ordered teardown, the row-major tile order and the outcome.
- ExportController: the `Exporter` class. Its methods run the tile loop and handle events step by step. Each method is proved against the `ExportSession` functions.

## Model

| member | source | states |
|---|---|---|
| ApplicationExceptions.ApplicationException.GetErrorCode | impexp-config/src/main/java/org/citydb/config/exception/ApplicationException.java:70-72 | the error code read back is the one the exception was built with |
| ApplicationExceptions.MessageOfCause | impexp-config/src/main/java/org/citydb/config/exception/ApplicationException.java:49-52 | a cause-only exception has a message exactly when it has a cause, and then the cause's description |
| ApplicationExceptions.WithCode | impexp-config/src/main/java/org/citydb/config/exception/ApplicationException.java:34-37 | the code is kept; no message and no cause |
| ApplicationExceptions.WithCodeAndMessage | impexp-config/src/main/java/org/citydb/config/exception/ApplicationException.java:39-42 | code and message kept; no cause |
| ApplicationExceptions.WithCodeMessageAndCause | impexp-config/src/main/java/org/citydb/config/exception/ApplicationException.java:44-47 | code, message and cause all kept |
| ApplicationExceptions.WithCodeAndCause | impexp-config/src/main/java/org/citydb/config/exception/ApplicationException.java:49-52 | code and cause kept; the message is the one derived from the cause |
| ApplicationExceptions.NoArguments | impexp-config/src/main/java/org/citydb/config/exception/ApplicationException.java:54-56 | delegates with UNKNOWN: no message, no cause |
| ApplicationExceptions.WithMessage | impexp-config/src/main/java/org/citydb/config/exception/ApplicationException.java:58-60 | UNKNOWN with the message and no cause |
| ApplicationExceptions.WithMessageAndCause | impexp-config/src/main/java/org/citydb/config/exception/ApplicationException.java:62-64 | UNKNOWN with the message and the cause |
| ApplicationExceptions.WithCause | impexp-config/src/main/java/org/citydb/config/exception/ApplicationException.java:66-68 | UNKNOWN with the cause and the message derived from it |
| ApplicationExceptions.ErrorCodeClassification | impexp-config/src/main/java/org/citydb/config/exception/ApplicationException.java:34-72 | every constructor without a code yields UNKNOWN; every constructor given a code keeps exactly that code |
| FeatureVersions.ModeOf | impexp-plugin-api/src/main/java/org/citydb/plugin/cli/FeatureVersionOption.java:49-60 | latest, at and between map to their own filter mode, and only `all` has none |
| FeatureVersions.Resolve | impexp-plugin-api/src/main/java/org/citydb/plugin/cli/FeatureVersionOption.java:124-142 | the date is kept; a missing time of day becomes 23:59:59, a missing second 59, a missing offset the local default offset |
| FeatureVersions.IsAfterIsStrict | impexp-plugin-api/src/main/java/org/citydb/plugin/cli/FeatureVersionOption.java:100 | `isAfter` is irreflexive and asymmetric |
| FeatureVersions.ParseFrom | impexp-plugin-api/src/main/java/org/citydb/plugin/cli/FeatureVersionOption.java:94-112 | on success every part from the current one on was readable, the first part becomes the start, each later part is strictly after that start, and the last part of two or more becomes the end; an unreadable part fails with the format message that names that part |
| FeatureVersions.ParseOnePart | impexp-plugin-api/src/main/java/org/citydb/plugin/cli/FeatureVersionOption.java:94-112 | a single part fails with the format message naming it when it is unreadable, and otherwise becomes the start with no end |
| FeatureVersions.ParseTwoParts | impexp-plugin-api/src/main/java/org/citydb/plugin/cli/FeatureVersionOption.java:94-112 | of two parts, an unreadable first fails naming the first, then an unreadable second naming the second; otherwise they are start and end when the end is strictly after the start, and the ordering message is returned when it is not |
| FeatureVersions.Check | impexp-plugin-api/src/main/java/org/citydb/plugin/cli/FeatureVersionOption.java:63-122 | the whole decision table: `all` and `latest` succeed with no times exactly without a timestamp and otherwise fail with the takes-no-timestamp message naming the version; `at` and `between` fail without one with their own messages; `at` fails with the one-timestamp message unless the text splits into exactly one part, then with the format message if that part is unreadable, and otherwise has that part as start and no end; `between` fails with the two-timestamps message unless there are exactly two parts, then with the format message naming the first or else the second unreadable part, and otherwise has both as start and end when the end is strictly after the start, the ordering message when not |
| FeatureVersions.BetweenRejectsEqualTimestamps | impexp-plugin-api/src/main/java/org/citydb/plugin/cli/FeatureVersionOption.java:88-106 | a range whose two timestamps are the same text is always rejected |
| FeatureVersions.ToCalendar | impexp-plugin-api/src/main/java/org/citydb/plugin/cli/FeatureVersionOption.java:144-156 | date and time fields are copied, milliseconds are undefined, and the zone is the offset in minutes, truncated toward zero, or undefined for UTC |
| FeatureVersions.CalendarTimezone | impexp-plugin-api/src/main/java/org/citydb/plugin/cli/FeatureVersionOption.java:153-155 | for a valid offset the zone is undefined exactly at UTC; otherwise it lies within 1080 minutes of zero, loses under a minute toward zero, and is exact for whole minutes |
| FeatureVersions.FeatureVersionOption.Preprocess | impexp-plugin-api/src/main/java/org/citydb/plugin/cli/FeatureVersionOption.java:63-122 | the verdict is `Check`'s, with the same error; on success the times `Check` finds are assigned; for every version but `all` the filter is created with that version's mode, even when a later check fails |
| FeatureVersions.FeatureVersionOption.ToFeatureVersionFilter | impexp-plugin-api/src/main/java/org/citydb/plugin/cli/FeatureVersionOption.java:35-47 | no filter for `all`; otherwise the filter gets calendars of the start and end times that were set, and the rest is kept |
| FeatureVersions.FeatureVersionOption.constructor | impexp-plugin-api/src/main/java/org/citydb/plugin/cli/FeatureVersionOption.java:29-33 | the option holds the version and the timestamp; no times and no filter yet |
| Strings.JavaSplit | impexp-plugin-api/src/main/java/org/citydb/plugin/cli/FeatureVersionOption.java:83 | `split(",")`: the whole text when there is no comma; otherwise the pieces, none holding a comma, with trailing empty pieces dropped |
| Strings.SplitAll | impexp-plugin-api/src/main/java/org/citydb/plugin/cli/FeatureVersionOption.java:83 | the pieces between separators: at least one, none holding the separator |
| Strings.JoinSplitAll | impexp-plugin-api/src/main/java/org/citydb/plugin/cli/FeatureVersionOption.java:83 | joining the pieces with the separator gives the text back |
| Strings.DropTrailingEmpty | impexp-plugin-api/src/main/java/org/citydb/plugin/cli/FeatureVersionOption.java:83 | a prefix of the pieces that does not end with an empty one, and only empty pieces were dropped |
| JavaInts.TruncDiv | impexp-plugin-api/src/main/java/org/citydb/plugin/cli/FeatureVersionOption.java:154 | Java's `/` by a positive divisor: Dafny's quotient for a non-negative dividend, the negated quotient of the negation otherwise |
| JavaInts.TruncDivRoundsTowardZero | impexp-plugin-api/src/main/java/org/citydb/plugin/cli/FeatureVersionOption.java:154 | the truncated quotient never overshoots the exact one and falls short by less than one, on either sign |
| ImportLogConfig.ImportLog.constructor | impexp-config/src/main/java/org/citydb/config/project/importer/ImportLog.java:39-42 | logging of imported features starts switched off; no mode (so UNIQUE is read) and no log file |
| ImportLogConfig.ImportLog.IsSetLogImportedFeatures | impexp-config/src/main/java/org/citydb/config/project/importer/ImportLog.java:44-46 | true exactly when the stored flag is present and true |
| ImportLogConfig.ImportLog.SetLogImportedFeatures | impexp-config/src/main/java/org/citydb/config/project/importer/ImportLog.java:52-54 | the flag is stored as given, null included, and then reads true exactly for true |
| ImportLogConfig.ImportLog.GetLogMode | impexp-config/src/main/java/org/citydb/config/project/importer/ImportLog.java:56-58 | the stored mode, or UNIQUE when none is stored |
| ImportLogConfig.ImportLog.SetLogMode | impexp-config/src/main/java/org/citydb/config/project/importer/ImportLog.java:60-62 | the mode is stored as given, and the getter then answers it or UNIQUE for null |
| ImportLogConfig.ImportLog.IsSetLogFile | impexp-config/src/main/java/org/citydb/config/project/importer/ImportLog.java:64-66 | true exactly for a present, non-empty file name |
| ImportLogConfig.ImportLog.SetLogFile | impexp-config/src/main/java/org/citydb/config/project/importer/ImportLog.java:72-75 | a non-empty name replaces the file; null or empty leaves it; a set log file is never cleared |
| Plugins.Registered | impexp-core/src/main/java/org/citydb/core/plugin/PluginManager.java:74-81 | registering leaves the list unchanged when the class is present and appends the instance otherwise |
| Plugins.RegisteredKeepsClassesUnique | impexp-core/src/main/java/org/citydb/core/plugin/PluginManager.java:65-81 | registration keeps the list free of duplicate classes, keeps earlier entries in place, and leaves an entry of the new instance's class |
| Plugins.RegisteredAll | impexp-core/src/main/java/org/citydb/core/plugin/PluginManager.java:59-63 | registering the loader's instances in turn only appends, at most one entry per instance |
| Plugins.FirstInstanceWins | impexp-core/src/main/java/org/citydb/core/plugin/PluginManager.java:59-63 | an entry never changes under later registrations: the first instance of a class wins |
| Plugins.RegisteredAllCoversClasses | impexp-core/src/main/java/org/citydb/core/plugin/PluginManager.java:116-120 | after loading, every loaded class and every earlier class has an entry, and no class has two |
| Plugins.Assignable | impexp-core/src/main/java/org/citydb/core/plugin/PluginManager.java:99-107 | exactly the entries assignable to the type |
| Plugins.PluginManager.constructor | impexp-core/src/main/java/org/citydb/core/plugin/PluginManager.java:46-50 | all three lists start empty |
| Plugins.PluginManager.ContainsClass | impexp-core/src/main/java/org/citydb/core/plugin/PluginManager.java:66-69 | the scan finds an entry exactly when one has the class |
| Plugins.PluginManager.RegisterInternalPlugin | impexp-core/src/main/java/org/citydb/core/plugin/PluginManager.java:65-72 | the internal list becomes `Registered` of the old one and stays free of duplicate classes |
| Plugins.PluginManager.RegisterExternalPlugin | impexp-core/src/main/java/org/citydb/core/plugin/PluginManager.java:74-81 | the external list becomes `Registered` of the old one and stays free of duplicate classes |
| Plugins.PluginManager.RegisterCliCommand | impexp-core/src/main/java/org/citydb/core/plugin/PluginManager.java:122-129 | the command list becomes `Registered` of the old one and stays free of duplicate classes |
| Plugins.PluginManager.GetInternalPlugin | impexp-core/src/main/java/org/citydb/core/plugin/PluginManager.java:91-97 | null exactly when no internal plugin is an instance of the type; otherwise the first one that is |
| Plugins.PluginManager.GetExternalPlugins | impexp-core/src/main/java/org/citydb/core/plugin/PluginManager.java:99-107 | the external plugins assignable to the type, in registration order, and no others |
| Plugins.PluginManager.GetPlugins | impexp-core/src/main/java/org/citydb/core/plugin/PluginManager.java:109-114 | the external plugins followed by the internal ones, both complete and in order |
| QueryOptions.AnyIndividualOptionIsSomeKind | impexp-client/src/main/java/org/citydb/cli/options/exporter/QueryOption.java:76-82 | the individual-options condition holds exactly when one of the seven kinds is given |
| QueryOptions.FirstFailure | impexp-client/src/main/java/org/citydb/cli/options/exporter/QueryOption.java:180-197 | a sequence of nested calls passes exactly when every call passes |
| QueryOptions.FirstFailureIsEarliest | impexp-client/src/main/java/org/citydb/cli/options/exporter/QueryOption.java:180-197 | a reported failure is the outcome of the earliest failing call, all calls before it having passed |
| QueryOptions.FirstFailureAppend | impexp-client/src/main/java/org/citydb/cli/options/exporter/QueryOption.java:180-197 | calls in sequence fail at the first part's failure if any, otherwise at the second part's |
| QueryOptions.PreprocessOutcome | impexp-client/src/main/java/org/citydb/cli/options/exporter/QueryOption.java:143-198 | an XML query with an individual option fails with an exclusion naming an option that is given; a nested failure comes from a delegated call; the options pass exactly when there is no conflict and every delegated call passes |
| QueryOptions.Preprocess | impexp-client/src/main/java/org/citydb/cli/options/exporter/QueryOption.java:143-198 | a passing preprocess never has an XML query together with an individual option; an exclusion failure happens only with an XML query and names an individual option that is given |
| QueryOptions.PreprocessReportsFirstConflict | impexp-client/src/main/java/org/citydb/cli/options/exporter/QueryOption.java:144-178 | with an XML query, the first individual option in checking order is the one reported |
| QueryOptions.PreprocessReportsFirstNestedFailure | impexp-client/src/main/java/org/citydb/cli/options/exporter/QueryOption.java:180-197 | without a conflict, the result is the earliest failure among the XML-query, type-name, bounding-box, counter and LoD calls |
| QueryOptions.PreprocessIgnoresUndelegated | impexp-client/src/main/java/org/citydb/cli/options/exporter/QueryOption.java:183-197 | the id, appearance and SQL-select options are never asked to preprocess, so their outcomes do not matter |
| QueryOptions.PreprocessedSourcesExclusive | impexp-client/src/main/java/org/citydb/cli/options/exporter/QueryOption.java:143-181 | after a successful preprocess, an XML query and individual options are never both given |
| QueryOptions.CollectedPredicatesAre | impexp-client/src/main/java/org/citydb/cli/options/exporter/QueryOption.java:84-126 | at most three predicates, one per given option with a non-null operator and no others, in the order ids, bounding box, SQL select |
| QueryOptions.IndividualConfigFilters | impexp-client/src/main/java/org/citydb/cli/options/exporter/QueryOption.java:83-136 | each filter is set exactly when its option is given and holds that option's value; the appearance filter only when appearances are exported; the AND selection filter exactly when a predicate was collected, holding them |
| QueryOptions.ToQueryConfig | impexp-client/src/main/java/org/citydb/cli/options/exporter/QueryOption.java:75-140 | with an individual option the configuration is built from the individual options; otherwise it is the XML query's, or none; the global export-appearances flag is switched off exactly for an appearance option without export |
| SimpleKmlQueries.SimpleKmlQuery.constructor | impexp-config/src/main/java/org/citydb/config/project/kmlExporter/SimpleKmlQuery.java:57-61 | all three use-flags start off and all three filters start as fresh default objects, so each reads as set |
| SimpleKmlQueries.SimpleKmlQuery.IsSetFeatureTypeFilter | impexp-config/src/main/java/org/citydb/config/project/kmlExporter/SimpleKmlQuery.java:75-77 | true exactly when the type-name filter is not null |
| SimpleKmlQueries.SimpleKmlQuery.IsSetGmlIdFilter | impexp-config/src/main/java/org/citydb/config/project/kmlExporter/SimpleKmlQuery.java:95-97 | true exactly when the id filter is not null |
| SimpleKmlQueries.SimpleKmlQuery.IsSetBboxFilter | impexp-config/src/main/java/org/citydb/config/project/kmlExporter/SimpleKmlQuery.java:115-117 | true exactly when the bounding-box filter is not null |
| SimpleKmlQueries.SimpleKmlQuery.SetUseTypeNames | impexp-config/src/main/java/org/citydb/config/project/kmlExporter/SimpleKmlQuery.java:67-69 | stores the flag and changes nothing else |
| SimpleKmlQueries.SimpleKmlQuery.SetUseGmlIdFilter | impexp-config/src/main/java/org/citydb/config/project/kmlExporter/SimpleKmlQuery.java:87-89 | stores the flag and changes nothing else |
| SimpleKmlQueries.SimpleKmlQuery.SetUseBboxFilter | impexp-config/src/main/java/org/citydb/config/project/kmlExporter/SimpleKmlQuery.java:107-109 | stores the flag and changes nothing else |
| SimpleKmlQueries.SimpleKmlQuery.SetFeatureTypeFilter | impexp-config/src/main/java/org/citydb/config/project/kmlExporter/SimpleKmlQuery.java:79-81 | stores the filter, null included; it reads as set exactly for a non-null one |
| SimpleKmlQueries.SimpleKmlQuery.SetGmlIdFilter | impexp-config/src/main/java/org/citydb/config/project/kmlExporter/SimpleKmlQuery.java:99-101 | stores the filter, null included; it reads as set exactly for a non-null one |
| SimpleKmlQueries.SimpleKmlQuery.SetBboxFilter | impexp-config/src/main/java/org/citydb/config/project/kmlExporter/SimpleKmlQuery.java:119-121 | stores the filter, null included; it reads as set exactly for a non-null one |
| XlinkGroupImporter.RowOf | impexp-core/src/main/java/org/citydb/operation/importer/database/xlink/importer/DBXlinkImporterGroupToCityObject.java:50-53 | the row keeps the group id, gml:id and role as given and stores IS_PARENT as 1 exactly for a parent and 0 otherwise |
| XlinkGroupImporter.Flush | impexp-core/src/main/java/org/citydb/operation/importer/database/xlink/importer/DBXlinkImporterGroupToCityObject.java:63-66 | every pending row is sent, in order, and the counter is reset |
| XlinkGroupImporter.InsertStep | impexp-core/src/main/java/org/citydb/operation/importer/database/xlink/importer/DBXlinkImporterGroupToCityObject.java:55-57 | the row joins the batch; the batch is flushed exactly when the incremented counter equals the maximum; no row is lost or reordered |
| XlinkGroupImporter.ModOfDecomposition | impexp-core/src/main/java/org/citydb/operation/importer/database/xlink/importer/DBXlinkImporterGroupToCityObject.java:56 | any decomposition of a number into a multiple of the maximum plus a smaller rest fixes the remainder |
| XlinkGroupImporter.ModSuccessor | impexp-core/src/main/java/org/citydb/operation/importer/database/xlink/importer/DBXlinkImporterGroupToCityObject.java:56 | one more row wraps the remainder to zero exactly when it reaches the maximum |
| XlinkGroupImporter.InsertStepHoldsTail | impexp-core/src/main/java/org/citydb/operation/importer/database/xlink/importer/DBXlinkImporterGroupToCityObject.java:49-60 | one more insert keeps the pending rows the most recent ones and the flushed rows all earlier ones |
| XlinkGroupImporter.InsertAllFromEmpty | impexp-core/src/main/java/org/citydb/operation/importer/database/xlink/importer/DBXlinkImporterGroupToCityObject.java:49-60 | from a fresh writer with a positive maximum, the counter stays below the maximum, the pending rows are the last ones inserted, and every earlier row has been sent in insertion order |
| XlinkGroupImporter.InsertAllCounter | impexp-core/src/main/java/org/citydb/operation/importer/database/xlink/importer/DBXlinkImporterGroupToCityObject.java:56 | from a fresh writer, the counter is the number of rows inserted modulo the maximum batch size |
| XlinkGroupImporter.GroupToCityObjectImporter.constructor | impexp-core/src/main/java/org/citydb/operation/importer/database/xlink/importer/DBXlinkImporterGroupToCityObject.java:41-47 | a fresh writer: counter zero, nothing pending, nothing sent |
| XlinkGroupImporter.GroupToCityObjectImporter.Insert | impexp-core/src/main/java/org/citydb/operation/importer/database/xlink/importer/DBXlinkImporterGroupToCityObject.java:49-60 | returns true; the new state is `InsertStep` of the old one with the record's row; the invariant (counter equals pending rows, nothing lost, counter below a positive maximum) is kept |
| XlinkGroupImporter.GroupToCityObjectImporter.ExecuteBatch | impexp-core/src/main/java/org/citydb/operation/importer/database/xlink/importer/DBXlinkImporterGroupToCityObject.java:62-66 | the new state is `Flush` of the old one; an empty batch sends nothing |
| TileNaming.TileSuffix | impexp-core/src/main/java/org/citydb/operation/exporter/controller/Exporter.java:343-369 | each corner mode joins the named corner coordinates with '_'; the row/column mode joins the decimal row and column |
| TileNaming.FullExtentSuffix | impexp-core/src/main/java/org/citydb/operation/exporter/controller/Exporter.java:364-366 | the full-extent suffix is the lower-corner suffix and the upper-corner suffix joined by '_' |
| TileNaming.RowColumnSuffixInjective | impexp-core/src/main/java/org/citydb/operation/exporter/controller/Exporter.java:367-368 | under the row/column mode two tiles with the same suffix are the same tile, so tile folders never collide |
| TileNaming.UnderscoreAfterDigits | impexp-core/src/main/java/org/citydb/operation/exporter/controller/Exporter.java:368 | in a row/column suffix the first '_' ends the row's digits |
| TileNaming.TileFolderName | impexp-core/src/main/java/org/citydb/operation/exporter/controller/Exporter.java:371 | the tile folder is the tile path, '_', then the suffix |
| TileNaming.SplicePoint | impexp-core/src/main/java/org/citydb/operation/exporter/controller/Exporter.java:373-376 | the suffix goes before the first '.' when that dot is not the first character, otherwise at the end |
| TileNaming.TileFileName | impexp-core/src/main/java/org/citydb/operation/exporter/controller/Exporter.java:372-377 | unchanged without a name suffix; otherwise the file name with "_" and the suffix spliced in at the splice point, both sides kept |
| TileNaming.TileFileNameStrip | impexp-core/src/main/java/org/citydb/operation/exporter/controller/Exporter.java:372-377 | cutting the spliced part out again gives the original file name back, extension included |
| TileNaming.OutputName | impexp-core/src/main/java/org/citydb/operation/exporter/controller/Exporter.java:324-378 | without tiling a pass writes to the output file's own name and folder; with tiling to a tile folder |
| Strings.IndexOf | impexp-core/src/main/java/org/citydb/operation/exporter/controller/Exporter.java:373 | `indexOf`: -1 exactly when the character is absent; otherwise a position holding it with no earlier occurrence |
| Strings.NatToString | impexp-core/src/main/java/org/citydb/operation/exporter/controller/Exporter.java:368 | the decimal text of a row or column is non-empty and all digits, and begins with `0` exactly when the number is zero (no leading zeros) |
| Strings.ParseNatToString | impexp-core/src/main/java/org/citydb/operation/exporter/controller/Exporter.java:368 | the decimal text reads back as the number |
| Strings.NatToStringInjective | impexp-core/src/main/java/org/citydb/operation/exporter/controller/Exporter.java:368 | distinct numbers have distinct decimal texts |
| ExportCounters.Merge | impexp-core/src/main/java/org/citydb/operation/exporter/controller/Exporter.java:645-652 | the keys are those of the counter and the report together, and each key's count is its old count plus its increment, a missing key counting as none |
| ExportCounters.MergeIdentity | impexp-core/src/main/java/org/citydb/operation/exporter/controller/Exporter.java:645-652 | an empty report changes nothing, and the first report into an empty counter is taken as it is |
| ExportCounters.MergeAssociative | impexp-core/src/main/java/org/citydb/operation/exporter/controller/Exporter.java:641-662 | two reports can be combined before they are applied |
| ExportCounters.MergeCommutative | impexp-core/src/main/java/org/citydb/operation/exporter/controller/Exporter.java:641-662 | the order in which two workers' reports arrive does not change the counter |
| ExportCounters.MergeAllSnoc | impexp-core/src/main/java/org/citydb/operation/exporter/controller/Exporter.java:641-662 | one more report is merged into the counter the earlier reports made |
| ExportCounters.MergeAllCount | impexp-core/src/main/java/org/citydb/operation/exporter/controller/Exporter.java:641-662 | after any reports a key's count is its old count plus the sum of its increments |
| ExportCounters.MergeAllAppend | impexp-core/src/main/java/org/citydb/operation/exporter/controller/Exporter.java:641-662 | applying two runs of reports one after the other is applying their concatenation |
| ExportCounters.SumAppend | impexp-core/src/main/java/org/citydb/operation/exporter/controller/Exporter.java:641-662 | the total of a key over two runs of reports is the sum of the two totals |
| ExportCounters.TotalsAreSumOfTiles | impexp-core/src/main/java/org/citydb/operation/exporter/controller/Exporter.java:595-611 | the session totals count each key as the sum of the per-tile counts that are cleared after every tile |
| ExportSession.FirstInterrupt | impexp-core/src/main/java/org/citydb/operation/exporter/controller/Exporter.java:663-665 | none exactly when no event is an interrupt; otherwise the cause carried by the earliest interrupt among the events |
| ExportSession.FirstInterruptSnoc | impexp-core/src/main/java/org/citydb/operation/exporter/controller/Exporter.java:663-665 | one more event changes the first interrupt only when there was none and the event is one |
| ExportSession.FirstInterruptAppend | impexp-core/src/main/java/org/citydb/operation/exporter/controller/Exporter.java:663-665 | the first interrupt of two runs of events is the first run's, or the second's when the first has none |
| ExportSession.AbortError | impexp-core/src/main/java/org/citydb/operation/exporter/controller/Exporter.java:669-671 | the abort exception is UNKNOWN and carries the interrupt's cause |
| ExportSession.InterruptRecord | impexp-core/src/main/java/org/citydb/operation/exporter/controller/Exporter.java:663-671 | the recorded exception changes only when the session was not interrupted before, nothing is recorded yet, and its first interrupt carries a cause |
| ExportSession.InterruptRecordAppend | impexp-core/src/main/java/org/citydb/operation/exporter/controller/Exporter.java:663-671 | handling two runs of events one after the other records what handling their concatenation records |
| ExportSession.InterruptRecordSnoc | impexp-core/src/main/java/org/citydb/operation/exporter/controller/Exporter.java:663-671 | one more event records the abort exception only when it is the session's first interrupt and carries a cause |
| ExportSession.ObjectReports | impexp-core/src/main/java/org/citydb/operation/exporter/controller/Exporter.java:643-644 | exactly the object-count reports among the events, at most one per event |
| ExportSession.GeometryReports | impexp-core/src/main/java/org/citydb/operation/exporter/controller/Exporter.java:653-654 | exactly the geometry-count reports among the events, at most one per event |
| ExportSession.ReportsSnoc | impexp-core/src/main/java/org/citydb/operation/exporter/controller/Exporter.java:641-662 | one more event adds its own report, and only when it is a report of that kind |
| ExportSession.CountersSnoc | impexp-core/src/main/java/org/citydb/operation/exporter/controller/Exporter.java:641-662 | a counter that has taken some events' reports takes one more event's report exactly when the event is a report of its kind |
| ExportSession.ReportsAppend | impexp-core/src/main/java/org/citydb/operation/exporter/controller/Exporter.java:641-662 | the reports of two runs of events are those of the first run followed by those of the second |
| ExportSession.InterruptEffects | impexp-core/src/main/java/org/citydb/operation/exporter/controller/Exporter.java:673-683 | the splitter shutdown and each pool drain are among the calls exactly when the splitter or that pool exists |
| ExportSession.InterruptEffectsOrdered | impexp-core/src/main/java/org/citydb/operation/exporter/controller/Exporter.java:673-683 | the interrupt makes each of its calls once, in the order splitter, database pool, xlink pool, and no other call |
| ExportSession.CountEventsSnoc | impexp-core/src/main/java/org/citydb/operation/exporter/controller/Exporter.java:641-662 | counting a prefix one event longer counts that event after the prefix |
| ExportSession.CountEventsObjects | impexp-core/src/main/java/org/citydb/operation/exporter/controller/Exporter.java:643-652 | the tile's object counter has taken every object-count report in order; the total has too when tiling and is untouched otherwise |
| ExportSession.CountEventsGeometries | impexp-core/src/main/java/org/citydb/operation/exporter/controller/Exporter.java:653-662 | the tile's geometry counter has taken every geometry-count report in order; the total has too when tiling and is untouched otherwise |
| ExportSession.CountEventsAppend | impexp-core/src/main/java/org/citydb/operation/exporter/controller/Exporter.java:641-662 | counting two runs of events one after the other is counting their concatenation |
| ExportSession.CountInterruptsKeeps | impexp-core/src/main/java/org/citydb/operation/exporter/controller/Exporter.java:641-685 | handling only interrupts leaves every counter as it was |
| ExportSession.FirstOfInterrupts | impexp-core/src/main/java/org/citydb/operation/exporter/controller/Exporter.java:663-671 | of interrupts reported in a row, the first is the session's first interrupt, and on a session with nothing recorded it records the abort exception with its cause exactly when it carries one |
| ExportSession.ControlEventsSnoc | impexp-core/src/main/java/org/citydb/operation/exporter/controller/Exporter.java:663-684 | reacting to a prefix one event longer reacts to that event after the prefix |
| ExportSession.ControlEventsInterrupts | impexp-core/src/main/java/org/citydb/operation/exporter/controller/Exporter.java:663-684 | after a run of events the session is interrupted, and stopped, exactly when it was before or the run holds an interrupt; only the session's first interrupt records an exception and stops the splitter and the existing pools |
| ExportSession.PassEffectsStartQuery | impexp-core/src/main/java/org/citydb/operation/exporter/controller/Exporter.java:480-508 | a pass starts the query exactly when its pools have a worker and no interrupt came first; a pass that does not reach its pools makes no call on the splitter or the pools |
| ExportSession.ControlEventsShouldRun | impexp-core/src/main/java/org/citydb/operation/exporter/controller/Exporter.java:663-665 | after a run of events the session goes on exactly when it did before and no event was an interrupt |
| ExportSession.PassControlStops | impexp-core/src/main/java/org/citydb/operation/exporter/controller/Exporter.java:480-508 | after a pass the session goes on exactly when no event the pass handled was an interrupt; the interrupt flag and the recorded exception follow the first interrupt |
| ExportSession.PassControlEffects | impexp-core/src/main/java/org/citydb/operation/exporter/controller/Exporter.java:480-508 | the calls a pass makes on the splitter and the pools are the query start and the stops of the session's first interrupt, in order |
| ExportSession.QueryEventsEffects | impexp-core/src/main/java/org/citydb/operation/exporter/controller/Exporter.java:491-508 | the calls made while the query runs are the query start followed by the interrupt's calls when an interrupt comes |
| ExportSession.AcquiredBy | impexp-core/src/main/java/org/citydb/operation/exporter/controller/Exporter.java:380-447 | the file exists exactly when it was created; the writer only with the file; the cache-table and id-cache managers together and only with the writer; a pass that reaches its pools holds all four |
| ExportSession.PassFailure | impexp-core/src/main/java/org/citydb/operation/exporter/controller/Exporter.java:385-527 | a pass throws nothing exactly when it reaches the graceful shutdown and both pools shut down; every exception is UNKNOWN; a file that cannot be created, and a pool without a worker, throw their own messages |
| ExportSession.AscendingInOrder | impexp-core/src/main/java/org/citydb/operation/exporter/controller/Exporter.java:528-581 | ranks rising from each call to the next rise over the whole teardown |
| ExportSession.StepKeepsAscending | impexp-core/src/main/java/org/citydb/operation/exporter/controller/Exporter.java:528-581 | appending a later teardown step keeps the calls in order |
| ExportSession.TeardownHeadOrder | impexp-core/src/main/java/org/citydb/operation/exporter/controller/Exporter.java:528-555 | writer close, file close and the two pool stops come in that order |
| ExportSession.TeardownOrder | impexp-core/src/main/java/org/citydb/operation/exporter/controller/Exporter.java:528-581 | the teardown calls come in a fixed order (writer before file, pools before the event flush, caches last), each at most once, and the events are always flushed |
| ExportSession.TeardownAscending | impexp-core/src/main/java/org/citydb/operation/exporter/controller/Exporter.java:528-581 | each teardown call ranks above the one before it |
| ExportSession.TeardownCalls | impexp-core/src/main/java/org/citydb/operation/exporter/controller/Exporter.java:528-581 | teardown closes exactly what exists, stops exactly the pools still running, always flushes, and makes no other call |
| ExportSession.TeardownFailures | impexp-core/src/main/java/org/citydb/operation/exporter/controller/Exporter.java:528-581 | teardown records no failure exactly when every step that is made succeeds |
| ExportSession.CloseStepFacts | impexp-core/src/main/java/org/citydb/operation/exporter/controller/Exporter.java:530-546 | a teardown step appends its call when made, records its failure only if nothing was recorded, and stops the session exactly when it fails |
| ExportSession.TeardownControlFacts | impexp-core/src/main/java/org/citydb/operation/exporter/controller/Exporter.java:528-581 | the teardown makes the calls of `TeardownEffects`, records its first failure unless something was recorded before, stops the session exactly when a step fails, and leaves the interrupt flag alone |
| ExportSession.TeardownEffectsSteps | impexp-core/src/main/java/org/citydb/operation/exporter/controller/Exporter.java:528-581 | the teardown calls are the steps appended one at a time |
| ExportSession.TeardownFailuresSteps | impexp-core/src/main/java/org/citydb/operation/exporter/controller/Exporter.java:528-581 | recording the teardown's failures step by step records the same as recording them at once, and no step fails exactly when none of the four does |
| ExportSession.CleanPassStopsPools | impexp-core/src/main/java/org/citydb/operation/exporter/controller/Exporter.java:515-520 | a pass that throws nothing shut both pools down gracefully, so teardown stops no pool |
| ExportSession.PassStateFacts | impexp-core/src/main/java/org/citydb/operation/exporter/controller/Exporter.java:385-523 | before its teardown, a pass has stopped the session exactly when an event it handled was an interrupt; the first interrupt records its cause; the splitter and pool calls are `PassEffects` |
| ExportSession.TileControlFacts | impexp-core/src/main/java/org/citydb/operation/exporter/controller/Exporter.java:385-581 | after a whole pass the session was interrupted exactly when a handled event was an interrupt; it goes on exactly when not interrupted and no teardown step failed; the interrupt's cause is recorded before the teardown's failures; the calls are the file creation, the pass's calls and the teardown's |
| ExportSession.FirstRecorded | impexp-core/src/main/java/org/citydb/operation/exporter/controller/Exporter.java:635-639 | an exception already recorded is kept; otherwise the first new failure, or none when there is none |
| ExportSession.FirstRecordedAppend | impexp-core/src/main/java/org/citydb/operation/exporter/controller/Exporter.java:635-639 | recording two runs of failures one after the other records what recording their concatenation records |
| ExportSession.Finish | impexp-core/src/main/java/org/citydb/operation/exporter/controller/Exporter.java:613-619 | the session returns true exactly when it was not stopped; otherwise it throws the recorded exception, or returns false when none was recorded |
| ExportSession.Countdown | impexp-core/src/main/java/org/citydb/operation/exporter/controller/Exporter.java:319 | one remaining-tiles report per tile started |
| ExportSession.CountdownAt | impexp-core/src/main/java/org/citydb/operation/exporter/controller/Exporter.java:388 | the i-th tile started reports total minus i+1 tiles remaining |
| ExportSession.CountdownStep | impexp-core/src/main/java/org/citydb/operation/exporter/controller/Exporter.java:388 | reporting one more tile extends the countdown by the next count |
| ExportSession.Row | impexp-core/src/main/java/org/citydb/operation/exporter/controller/Exporter.java:323 | a row's tiles are its columns from zero on, one per column, none for a non-positive column count |
| ExportSession.RowMajorCovers | impexp-core/src/main/java/org/citydb/operation/exporter/controller/Exporter.java:322-323 | the visiting order holds exactly the tiles of the grid |
| ExportSession.RowMajorDistinct | impexp-core/src/main/java/org/citydb/operation/exporter/controller/Exporter.java:322-323 | no tile is visited twice |
| ExportSession.RowMajorPrefix | impexp-core/src/main/java/org/citydb/operation/exporter/controller/Exporter.java:322-323 | the tiles of earlier rows are visited before those of later rows |
| ExportSession.VisitedEvents | impexp-core/src/main/java/org/citydb/operation/exporter/controller/Exporter.java:322-323 | one entry per visited tile, holding that tile's events |
| ExportSession.ConcatAppend | impexp-core/src/main/java/org/citydb/operation/exporter/controller/Exporter.java:322-323 | the events of tiles before and after a split, one after the other |
| ExportSession.RowEventsInOrder | impexp-core/src/main/java/org/citydb/operation/exporter/controller/Exporter.java:323 | the events of a row are those of its tiles in column order |
| ExportSession.GridEventsInOrder | impexp-core/src/main/java/org/citydb/operation/exporter/controller/Exporter.java:322-323 | the events of the grid, row after row, are those of its tiles in row-major order |
| ExportSession.RowObjectTotalsInOrder | impexp-core/src/main/java/org/citydb/operation/exporter/controller/Exporter.java:648-651 | a row's session object totals take the object-count reports among the row's events, in order |
| ExportSession.RowGeometryTotalsInOrder | impexp-core/src/main/java/org/citydb/operation/exporter/controller/Exporter.java:658-661 | a row's session geometry totals take the geometry-count reports among the row's events, in order |
| ExportSession.GridObjectTotalsInOrder | impexp-core/src/main/java/org/citydb/operation/exporter/controller/Exporter.java:648-651 | the grid's session object totals take the object-count reports among all the grid's events, in order |
| ExportSession.GridGeometryTotalsInOrder | impexp-core/src/main/java/org/citydb/operation/exporter/controller/Exporter.java:658-661 | the grid's session geometry totals take the geometry-count reports among all the grid's events, in order |
| ExportSession.ReportsConcat | impexp-core/src/main/java/org/citydb/operation/exporter/controller/Exporter.java:641-662 | the reports among all tiles' events are each tile's reports, tile after tile |
| ExportSession.TileObjectReports | impexp-core/src/main/java/org/citydb/operation/exporter/controller/Exporter.java:643-652 | one entry per tile, holding that tile's object-count reports |
| ExportSession.TileGeometryReports | impexp-core/src/main/java/org/citydb/operation/exporter/controller/Exporter.java:653-662 | one entry per tile, holding that tile's geometry-count reports |
| ExportRules.ExportError | impexp-core/src/main/java/org/citydb/operation/exporter/controller/Exporter.java:185 | the export exception is UNKNOWN and carries the message and the cause |
| ExportRules.CheckOutputFile | impexp-core/src/main/java/org/citydb/operation/exporter/controller/Exporter.java:146-149 | the output file passes exactly when it is given and has a file name; a refusal is UNKNOWN, has no cause, and prints a missing file as "null" |
| ExportRules.XlinkSettings | impexp-core/src/main/java/org/citydb/operation/exporter/controller/Exporter.java:622-633 | CityJSON never exports feature references and always geometry references; CityGML follows the configured XLink modes |
| ExportRules.CheckDimensionality | impexp-core/src/main/java/org/citydb/operation/exporter/controller/Exporter.java:212-224 | a coordinate transformation fails exactly when the two reference systems differ in dimension, with the dimensionality message |
| ExportRules.CheckSpatialIndex | impexp-core/src/main/java/org/citydb/operation/exporter/controller/Exporter.java:226-238 | tiling or a spatial selection without an enabled envelope index fails with SPATIAL_INDEXES_NOT_ACTIVATED, and only that case carries this code; without either, only the index-status report can fail |
| ExportRules.ReplaceChar | impexp-core/src/main/java/org/citydb/operation/exporter/controller/Exporter.java:293 | `replace` keeps the length and swaps exactly the matching characters |
| ExportRules.ReplaceCharRemoves | impexp-core/src/main/java/org/citydb/operation/exporter/controller/Exporter.java:293 | after the replacement no backslash is left, and replacing again changes nothing |
| ExportRules.TextureFolder | impexp-core/src/main/java/org/citydb/operation/exporter/controller/Exporter.java:285-300 | an unset or empty texture folder becomes "appearance"; a relative one has forward slashes only; an absolute one is normalised |
| ExportRules.XlinkPoolMaxSize | impexp-core/src/main/java/org/citydb/operation/exporter/controller/Exporter.java:452-459 | the xlink pool's maximum is half the maximum thread count, rounded down, and at least one |
| ExportRules.PreparationFailure | impexp-core/src/main/java/org/citydb/operation/exporter/controller/Exporter.java:177-307 | nothing is thrown exactly when the query and the writer factory build, a configured metadata provider is found, the dimensions match, the index checks pass, the global appearances are read when needed, the tiling extent transforms when tiling, and an absolute texture folder can be created; SPATIAL_INDEXES_NOT_ACTIVATED only for tiling or a spatial selection without the envelope index; a query that does not build throws first |
| ExportController.AddReport | impexp-core/src/main/java/org/citydb/operation/exporter/controller/Exporter.java:645-651 | applying a counter report entry by entry yields the merge of the counter with the report: each reported key's count grows by its increment, a new key starts at it |
| ExportController.TileStep | impexp-core/src/main/java/org/citydb/operation/exporter/controller/Exporter.java:327-581 | after the pass of a tile that throws nothing, the session goes on exactly when the pass met no interrupt and no teardown failure, otherwise it holds what the pass recorded, and an interrupted session is stopped |
| ExportController.CountersTableStep | impexp-core/src/main/java/org/citydb/operation/exporter/controller/Exporter.java:583-662 | a tile whose pass throws nothing, its tile counters cleared afterwards, moves the loop's counters exactly one tile on in row-major order |
| ExportController.CountersTableRowEnd | impexp-core/src/main/java/org/citydb/operation/exporter/controller/Exporter.java:322-323 | the counters past a row's last column are those before the next row's first column |
| ExportController.LoopTotalsInOrder | impexp-core/src/main/java/org/citydb/operation/exporter/controller/Exporter.java:322-662 | the session totals kept by the nested tile loop are the initial totals merged with every report of every tile before the position, in row-major order |
| ExportController.PassedBeforeStep | impexp-core/src/main/java/org/citydb/operation/exporter/controller/Exporter.java:322-323 | one more passed tile of a row extends the set of tiles that passed |
| ExportController.PassedBeforeRowEnd | impexp-core/src/main/java/org/citydb/operation/exporter/controller/Exporter.java:322-323 | a row whose every column passed makes every tile of the rows before the next row passed |
| ExportController.PassedInOrder | impexp-core/src/main/java/org/citydb/operation/exporter/controller/Exporter.java:322-323 | all tiles of the grid passed exactly when every tile of its row-major enumeration passed |
| ExportController.TilesBeforeProduct | impexp-core/src/main/java/org/citydb/operation/exporter/controller/Exporter.java:319-323 | counting the tiles row by row gives rows times columns, the initial remaining-tiles count |
| ExportController.Exporter.constructor | impexp-core/src/main/java/org/citydb/operation/exporter/controller/Exporter.java:133-144 | a new controller runs, is not interrupted, has no exception and empty tile and total counters |
| ExportController.Exporter.SetException | impexp-core/src/main/java/org/citydb/operation/exporter/controller/Exporter.java:635-639 | an exception is recorded only when none is recorded yet: the first one wins |
| ExportController.Exporter.CountObjects | impexp-core/src/main/java/org/citydb/operation/exporter/controller/Exporter.java:643-652 | the object counter takes the report merged in, and the session total takes it too exactly when tiling |
| ExportController.Exporter.CountGeometries | impexp-core/src/main/java/org/citydb/operation/exporter/controller/Exporter.java:653-662 | the geometry counter takes the report merged in, and the session total takes it too exactly when tiling |
| ExportController.Exporter.Interrupt | impexp-core/src/main/java/org/citydb/operation/exporter/controller/Exporter.java:663-684 | only the first interrupt acts: it stops the session, records its cause as the abort exception unless one is recorded, and shuts down the splitter and drains the pools that exist, in that order |
| ExportController.Exporter.HandleEvent | impexp-core/src/main/java/org/citydb/operation/exporter/controller/Exporter.java:641-686 | an event changes the counters and the control state exactly as its kind says |
| ExportController.Exporter.HandleNext | impexp-core/src/main/java/org/citydb/operation/exporter/controller/Exporter.java:641-686 | handling one more event extends the state reached over the events before it |
| ExportController.Exporter.HandleEvents | impexp-core/src/main/java/org/citydb/operation/exporter/controller/Exporter.java:641-686 | handling events one by one leaves the counters and control state of the fold over the whole sequence |
| ExportController.Exporter.OpenResources | impexp-core/src/main/java/org/citydb/operation/exporter/controller/Exporter.java:390-448 | creates the output file, the texture folder, the writer, the cache manager and the id caches in that order, stopping at the first failure with its exception and message; what exists afterwards is exactly what was created |
| ExportController.Exporter.StartPools | impexp-core/src/main/java/org/citydb/operation/exporter/controller/Exporter.java:450-482 | the two pools exist and run, and the events they report while starting are handled |
| ExportController.Exporter.RunQuery | impexp-core/src/main/java/org/citydb/operation/exporter/controller/Exporter.java:507-513 | the query starts, its events are handled, and a failed query throws the message of its kind: database, output write, or unexpected |
| ExportController.Exporter.ShutdownPools | impexp-core/src/main/java/org/citydb/operation/exporter/controller/Exporter.java:515-520 | the database pool is waited for before the xlink pool; a pool that does not terminate throws the shutdown error and the later pool is not waited for |
| ExportController.Exporter.RunSplitter | impexp-core/src/main/java/org/citydb/operation/exporter/controller/Exporter.java:491-520 | the splitter exists; the query starts only while the session runs; its failure is thrown before the pools are shut down |
| ExportController.Exporter.RunWorkers | impexp-core/src/main/java/org/citydb/operation/exporter/controller/Exporter.java:450-520 | a pass with no database worker throws the worker-pool error before the splitter runs; otherwise the splitter runs; the counters take exactly the events handled |
| ExportController.Exporter.CloseStep | impexp-core/src/main/java/org/citydb/operation/exporter/controller/Exporter.java:528-580 | an existing resource is closed; a close failure records its exception and stops the session without throwing |
| ExportController.Exporter.CloseOutput | impexp-core/src/main/java/org/citydb/operation/exporter/controller/Exporter.java:530-546 | the writer is closed before the output file |
| ExportController.Exporter.StopPools | impexp-core/src/main/java/org/citydb/operation/exporter/controller/Exporter.java:548-561 | the pools that have not terminated are shut down now, the xlink pool first, then the events are flushed |
| ExportController.Exporter.CleanCaches | impexp-core/src/main/java/org/citydb/operation/exporter/controller/Exporter.java:563-580 | the id caches are shut down before the cache tables are dropped |
| ExportController.Exporter.Teardown | impexp-core/src/main/java/org/citydb/operation/exporter/controller/Exporter.java:528-581 | the teardown closes writer and file, stops the pools, flushes the events and cleans the caches, in that order, whatever the pass threw |
| ExportController.Exporter.RunPass | impexp-core/src/main/java/org/citydb/operation/exporter/controller/Exporter.java:385-527 | a pass acquires its resources and runs the workers; its thrown exception is the pass failure of its collaborators' answers |
| ExportController.Exporter.ExportTile | impexp-core/src/main/java/org/citydb/operation/exporter/controller/Exporter.java:385-581 | a pass followed by its teardown: it throws what the pass throws, while teardown failures are only recorded |
| ExportController.Exporter.PassTile | impexp-core/src/main/java/org/citydb/operation/exporter/controller/Exporter.java:386-597 | the remaining-tiles count is reported; a pass that throws nothing leaves the tile counters cleared, and the session goes on exactly when the pass met no interrupt and no teardown failure |
| ExportController.Exporter.VisitTile | impexp-core/src/main/java/org/citydb/operation/exporter/controller/Exporter.java:324-597 | a tile the tiling cannot compute throws the tile error without a pass; otherwise the tile is named and passed, and the loop's counters move one tile on |
| ExportController.Exporter.RowTile | impexp-core/src/main/java/org/citydb/operation/exporter/controller/Exporter.java:323-597 | a tile that passes extends the tiles that passed; one that stops the session without throwing leaves what its pass recorded |
| ExportController.Exporter.ProcessRow | impexp-core/src/main/java/org/citydb/operation/exporter/controller/Exporter.java:323-597 | the columns of a row are visited in order while the session goes on; either every tile passed, or the loop ends at the first tile that threw or stopped the session, with every earlier tile passed |
| ExportController.Exporter.ProcessTiles | impexp-core/src/main/java/org/citydb/operation/exporter/controller/Exporter.java:319-598 | the tiles are visited row by row; one remaining-tiles count per started pass, counting down from rows times columns; the loop ends at the first tile that throws or stops the session, every tile before it having passed |
| ExportController.Exporter.Process | impexp-core/src/main/java/org/citydb/operation/exporter/controller/Exporter.java:319-619 | the session returns true exactly when every tile passed; otherwise its outcome is what the stopping tile threw, else what its pass recorded; the counters left are those just past the last visited tile |
| ExportController.Exporter.DoExport | impexp-core/src/main/java/org/citydb/operation/exporter/controller/Exporter.java:146-619 | an output file without a file name is refused first, before any event is handled; then the first failing preparation step is thrown, with the counters untouched; otherwise an interrupt during the preparation skips the tile loop, and the session throws the abort exception with the first interrupt's cause or returns false when it carries none; without one the tile loop decides the outcome, and the session completes exactly when no step fails, no interrupt comes and the loop passes every tile |
| KmlExport.CountActive | impexp-config/src/main/java/org/citydb/config/project/kmlExporter/KmlExportConfig.java:339-345 | the number of active forms never exceeds the length of the list |
| KmlExport.CountActiveAll | impexp-config/src/main/java/org/citydb/config/project/kmlExporter/KmlExportConfig.java:339-345 | the active-form count equals the list length exactly when every form is active |
| KmlExport.CountActiveNone | impexp-config/src/main/java/org/citydb/config/project/kmlExporter/KmlExportConfig.java:339-345 | the active-form count is zero exactly when no form is active |
| KmlExport.KmlExportConfig.constructor | impexp-config/src/main/java/org/citydb/config/project/kmlExporter/KmlExportConfig.java:186-253 | a new configuration holds the defaults: a fresh query with no filter in use, default path, resources, id prefixes and COLLADA options, LoD 2, eleven empty display-form lists and default balloons, footprint mode, glTF version 2 (the later of the two assignments), empty tiles exported, region size 50, refresh mode onRegion every second, embedded textures and Draco compression on, theme none, absolute altitude without offset, original z coordinates, no ADE preferences and no converter options |
| KmlExport.KmlExportConfig.SetQuery | impexp-config/src/main/java/org/citydb/config/project/kmlExporter/KmlExportConfig.java:259-262 | a null argument is ignored; any other replaces the setting |
| KmlExport.KmlExportConfig.SetPath | impexp-config/src/main/java/org/citydb/config/project/kmlExporter/KmlExportConfig.java:268-271 | a null argument is ignored; any other replaces the setting |
| KmlExport.KmlExportConfig.SetResources | impexp-config/src/main/java/org/citydb/config/project/kmlExporter/KmlExportConfig.java:277-280 | a null argument is ignored; any other replaces the setting |
| KmlExport.KmlExportConfig.SetIdPrefixes | impexp-config/src/main/java/org/citydb/config/project/kmlExporter/KmlExportConfig.java:286-289 | a null argument is ignored; any other replaces the setting |
| KmlExport.KmlExportConfig.SetColladaOptions | impexp-config/src/main/java/org/citydb/config/project/kmlExporter/KmlExportConfig.java:351-355 | a null argument is ignored; any other replaces the setting |
| KmlExport.KmlExportConfig.IsExportGltfV2 | impexp-config/src/main/java/org/citydb/config/project/kmlExporter/KmlExportConfig.java:381-383 | glTF version 2 is exported exactly when version 1 is not |
| KmlExport.KmlExportConfig.SetExportGltfV2 | impexp-config/src/main/java/org/citydb/config/project/kmlExporter/KmlExportConfig.java:385-387 | afterwards version 2 is exported exactly as requested, by clearing or setting the version-1 flag |
| KmlExport.KmlExportConfig.IsSetGltfConverterOptions | impexp-config/src/main/java/org/citydb/config/project/kmlExporter/KmlExportConfig.java:710-712 | the converter options count as set exactly when a list is held |
| KmlExport.KmlExportConfig.GetActiveDisplayFormsAmount | impexp-config/src/main/java/org/citydb/config/project/kmlExporter/KmlExportConfig.java:339-345 | the one-pass count of active forms equals the number of active forms, between zero and the list length |
| KmlExport.KmlExportConfig.SetBuildingDisplayForms | impexp-config/src/main/java/org/citydb/config/project/kmlExporter/KmlExportConfig.java:299-301 | stores the argument as given, null included, and changes no other setting |
| KmlExport.KmlExportConfig.SetWaterBodyDisplayForms | impexp-config/src/main/java/org/citydb/config/project/kmlExporter/KmlExportConfig.java:307-309 | stores the argument as given, null included, and changes no other setting |
| KmlExport.KmlExportConfig.SetLandUseDisplayForms | impexp-config/src/main/java/org/citydb/config/project/kmlExporter/KmlExportConfig.java:315-317 | stores the argument as given, null included, and changes no other setting |
| KmlExport.KmlExportConfig.SetVegetationDisplayForms | impexp-config/src/main/java/org/citydb/config/project/kmlExporter/KmlExportConfig.java:331-333 | stores the argument as given, null included, and changes no other setting |
| KmlExport.KmlExportConfig.SetTransportationDisplayForms | impexp-config/src/main/java/org/citydb/config/project/kmlExporter/KmlExportConfig.java:638-640 | stores the argument as given, null included, and changes no other setting |
| KmlExport.KmlExportConfig.SetReliefDisplayForms | impexp-config/src/main/java/org/citydb/config/project/kmlExporter/KmlExportConfig.java:658-660 | stores the argument as given, null included, and changes no other setting |
| KmlExport.KmlExportConfig.SetCityFurnitureDisplayForms | impexp-config/src/main/java/org/citydb/config/project/kmlExporter/KmlExportConfig.java:621-624 | stores the argument as given, null included, and changes no other setting |
| KmlExport.KmlExportConfig.SetGenericCityObjectDisplayForms | impexp-config/src/main/java/org/citydb/config/project/kmlExporter/KmlExportConfig.java:596-599 | stores the argument as given, null included, and changes no other setting |
| KmlExport.KmlExportConfig.SetCityObjectGroupDisplayForms | impexp-config/src/main/java/org/citydb/config/project/kmlExporter/KmlExportConfig.java:323-325 | stores the argument as given, null included, and changes no other setting |
| KmlExport.KmlExportConfig.SetBridgeDisplayForms | impexp-config/src/main/java/org/citydb/config/project/kmlExporter/KmlExportConfig.java:670-672 | stores the argument as given, null included, and changes no other setting |
| KmlExport.KmlExportConfig.SetTunnelDisplayForms | impexp-config/src/main/java/org/citydb/config/project/kmlExporter/KmlExportConfig.java:686-688 | stores the argument as given, null included, and changes no other setting |
| KmlExport.KmlExportConfig.SetBuildingBalloon | impexp-config/src/main/java/org/citydb/config/project/kmlExporter/KmlExportConfig.java:556-558 | stores the argument as given, null included, and changes no other setting |
| KmlExport.KmlExportConfig.SetWaterBodyBalloon | impexp-config/src/main/java/org/citydb/config/project/kmlExporter/KmlExportConfig.java:564-566 | stores the argument as given, null included, and changes no other setting |
| KmlExport.KmlExportConfig.SetLandUseBalloon | impexp-config/src/main/java/org/citydb/config/project/kmlExporter/KmlExportConfig.java:572-574 | stores the argument as given, null included, and changes no other setting |
| KmlExport.KmlExportConfig.SetVegetationBalloon | impexp-config/src/main/java/org/citydb/config/project/kmlExporter/KmlExportConfig.java:588-590 | stores the argument as given, null included, and changes no other setting |
| KmlExport.KmlExportConfig.SetTransportationBalloon | impexp-config/src/main/java/org/citydb/config/project/kmlExporter/KmlExportConfig.java:646-648 | stores the argument as given, null included, and changes no other setting |
| KmlExport.KmlExportConfig.SetReliefBalloon | impexp-config/src/main/java/org/citydb/config/project/kmlExporter/KmlExportConfig.java:666-668 | stores the argument as given, null included, and changes no other setting |
| KmlExport.KmlExportConfig.SetCityFurnitureBalloon | impexp-config/src/main/java/org/citydb/config/project/kmlExporter/KmlExportConfig.java:630-632 | stores the argument as given, null included, and changes no other setting |
| KmlExport.KmlExportConfig.SetGenericCityObject3DBalloon | impexp-config/src/main/java/org/citydb/config/project/kmlExporter/KmlExportConfig.java:605-607 | stores the argument as given, null included, and changes no other setting |
| KmlExport.KmlExportConfig.SetCityObjectGroupBalloon | impexp-config/src/main/java/org/citydb/config/project/kmlExporter/KmlExportConfig.java:580-582 | stores the argument as given, null included, and changes no other setting |
| KmlExport.KmlExportConfig.SetBridgeBalloon | impexp-config/src/main/java/org/citydb/config/project/kmlExporter/KmlExportConfig.java:678-680 | stores the argument as given, null included, and changes no other setting |
| KmlExport.KmlExportConfig.SetTunnelBalloon | impexp-config/src/main/java/org/citydb/config/project/kmlExporter/KmlExportConfig.java:694-696 | stores the argument as given, null included, and changes no other setting |
| KmlExport.KmlExportConfig.SetExportAsKmz | impexp-config/src/main/java/org/citydb/config/project/kmlExporter/KmlExportConfig.java:365-367 | stores the argument as given and changes no other setting |
| KmlExport.KmlExportConfig.SetCreateGltfModel | impexp-config/src/main/java/org/citydb/config/project/kmlExporter/KmlExportConfig.java:389-391 | stores the argument as given and changes no other setting |
| KmlExport.KmlExportConfig.SetNotCreateColladaFiles | impexp-config/src/main/java/org/citydb/config/project/kmlExporter/KmlExportConfig.java:405-407 | stores the argument as given and changes no other setting |
| KmlExport.KmlExportConfig.SetEmbedTexturesInGltfFiles | impexp-config/src/main/java/org/citydb/config/project/kmlExporter/KmlExportConfig.java:413-415 | stores the argument as given and changes no other setting |
| KmlExport.KmlExportConfig.SetExportGltfBinary | impexp-config/src/main/java/org/citydb/config/project/kmlExporter/KmlExportConfig.java:421-423 | stores the argument as given and changes no other setting |
| KmlExport.KmlExportConfig.SetExportGltfV1 | impexp-config/src/main/java/org/citydb/config/project/kmlExporter/KmlExportConfig.java:377-379 | stores the argument as given and changes no other setting |
| KmlExport.KmlExportConfig.SetEnableGltfDracoCompression | impexp-config/src/main/java/org/citydb/config/project/kmlExporter/KmlExportConfig.java:429-431 | stores the argument as given and changes no other setting |
| KmlExport.KmlExportConfig.SetShowBoundingBox | impexp-config/src/main/java/org/citydb/config/project/kmlExporter/KmlExportConfig.java:437-439 | stores the argument as given and changes no other setting |
| KmlExport.KmlExportConfig.SetShowTileBorders | impexp-config/src/main/java/org/citydb/config/project/kmlExporter/KmlExportConfig.java:445-447 | stores the argument as given and changes no other setting |
| KmlExport.KmlExportConfig.SetExportEmptyTiles | impexp-config/src/main/java/org/citydb/config/project/kmlExporter/KmlExportConfig.java:457-459 | stores the argument as given and changes no other setting |
| KmlExport.KmlExportConfig.SetCallGElevationService | impexp-config/src/main/java/org/citydb/config/project/kmlExporter/KmlExportConfig.java:493-495 | stores the argument as given and changes no other setting |
| KmlExport.KmlExportConfig.SetWriteJSONFile | impexp-config/src/main/java/org/citydb/config/project/kmlExporter/KmlExportConfig.java:501-503 | stores the argument as given and changes no other setting |
| KmlExport.KmlExportConfig.SetOneFilePerObject | impexp-config/src/main/java/org/citydb/config/project/kmlExporter/KmlExportConfig.java:509-511 | stores the argument as given and changes no other setting |
| KmlExport.KmlExportConfig.SetUseOriginalZCoords | impexp-config/src/main/java/org/citydb/config/project/kmlExporter/KmlExportConfig.java:548-550 | stores the argument as given and changes no other setting |
| KmlExport.KmlExportConfig.SetPathOfGltfConverter | impexp-config/src/main/java/org/citydb/config/project/kmlExporter/KmlExportConfig.java:397-399 | stores the argument as given, null included, and changes no other setting |
| KmlExport.KmlExportConfig.SetAppearanceTheme | impexp-config/src/main/java/org/citydb/config/project/kmlExporter/KmlExportConfig.java:461-463 | stores the argument as given, null included, and changes no other setting |
| KmlExport.KmlExportConfig.SetViewRefreshMode | impexp-config/src/main/java/org/citydb/config/project/kmlExporter/KmlExportConfig.java:529-531 | stores the argument as given, null included, and changes no other setting |
| KmlExport.KmlExportConfig.SetSingleObjectRegionSize | impexp-config/src/main/java/org/citydb/config/project/kmlExporter/KmlExportConfig.java:519-521 | stores the argument as given and changes no other setting |
| KmlExport.KmlExportConfig.SetViewRefreshTime | impexp-config/src/main/java/org/citydb/config/project/kmlExporter/KmlExportConfig.java:539-541 | stores the argument as given and changes no other setting |
| KmlExport.KmlExportConfig.SetAltitudeOffsetValue | impexp-config/src/main/java/org/citydb/config/project/kmlExporter/KmlExportConfig.java:485-487 | stores the argument as given and changes no other setting |
| KmlExport.KmlExportConfig.SetLodToExportFrom | impexp-config/src/main/java/org/citydb/config/project/kmlExporter/KmlExportConfig.java:291-293 | stores the argument as given and changes no other setting |
| KmlExport.KmlExportConfig.SetGenericCityObjectPointAndCurve | impexp-config/src/main/java/org/citydb/config/project/kmlExporter/KmlExportConfig.java:613-615 | stores the argument as given, null included, and changes no other setting |
| KmlExport.KmlExportConfig.SetLod0FootprintMode | impexp-config/src/main/java/org/citydb/config/project/kmlExporter/KmlExportConfig.java:361-363 | stores the argument as given, null included, and changes no other setting |
| KmlExport.KmlExportConfig.SetAltitudeMode | impexp-config/src/main/java/org/citydb/config/project/kmlExporter/KmlExportConfig.java:469-471 | stores the argument as given, null included, and changes no other setting |
| KmlExport.KmlExportConfig.SetAltitudeOffsetMode | impexp-config/src/main/java/org/citydb/config/project/kmlExporter/KmlExportConfig.java:477-479 | stores the argument as given, null included, and changes no other setting |
| KmlExport.KmlExportConfig.SetAdePreferences | impexp-config/src/main/java/org/citydb/config/project/kmlExporter/KmlExportConfig.java:706-708 | stores the argument as given, null included, and changes no other setting |
| KmlExport.KmlExportConfig.SetGltfConverterOptions | impexp-config/src/main/java/org/citydb/config/project/kmlExporter/KmlExportConfig.java:718-720 | stores the argument as given, null included, and changes no other setting |

## Left out

- Threads and the event dispatcher: events are handled one at a time, in the order a pass reports them. Interrupts that arrive while the export prepares are an input of `DoExport`, handled after the output file is checked; counter reports cannot arrive then, since they come from the workers of a pass. Events that arrive while the pools start and while the query runs are inputs of each `TileRun`. Events still queued when the teardown flushes the dispatcher are handled before the teardown.
- Collaborators of the export controller: the database adapter, the worker pools, the splitter, the writer, the output file, the id caches and the cache tables. Each is reduced to its success or failure, recorded in a `TileRun` per tile. The calls made on them are recorded as `Effect`s.
- Registration and removal of the controller's event handlers in `doExport`: they have no effect on the model's state.
- Logging, status-dialog events, the elapsed-time message, and the per-type name mapping of the logged counters.
- Path resolution against the working directory, and the rendering of paths into messages: paths are given text.
- `String.valueOf(double)` of the tile corners: the text is given, not computed from the coordinates.
- The `java.time` formatter: it is the parameter `parse`. The local zone's current offset is the parameter `defaultOffset`.
- The operating-system-dependent default of the glTF converter path: the constructor takes it as a parameter.
- `ObjectRegistry` in the query option: its effect is an output flag of `ToQueryConfig`.
- Plugin discovery by `ServiceLoader`, the reflection in `getConfigClass` and `propagatePluginConfig`, and the `getInstance` singleton.
- Plain getters of the configuration beans: each returns its field and is read as the field itself.
- `close` and `getDBXlinkImporterType` of the group-membership importer: they close a statement and return a constant.
- The global side effects of the export's preparation: the workspace log line, the registration of gml ids in the cache, and the switch to unique texture file names. Only the checks that can fail are modelled. `ExportRules.PreparationFailure` takes the answers of the database and the reference systems as inputs.
- ExportController.Exporter.CountObjects: counters are unbounded integers, so Java `long` overflow of a count is not modelled.
- ExportController.Exporter.CountGeometries: counters are unbounded integers, so Java `long` overflow of a count is not modelled.
- ExportController.Exporter.ProcessTiles: rows times columns is an unbounded integer, so Java `int` overflow of the remaining-tiles count is not modelled.
- ExportController.Exporter.StopPools: `shutdownNow` is recorded as a call; what it does to running workers is not modelled.
- ExportController.Exporter.Teardown: events still queued in the dispatcher when the teardown flushes it (Exporter.java:557-561) are handled before the teardown in the model. A queued interrupt's cause therefore always becomes the abort exception ahead of a writer or file close failure; in the source a close failure recorded at 530-546 wins over an interrupt dispatched only at flush time.
- XlinkGroupImporter.GroupToCityObjectImporter.Insert: a failing batch execution (an `SQLException` from the statement) is not modelled. In the source `insert` then throws instead of returning true, and the counter stays at the maximum, so the invariant's counter bound holds only while no batch fails. What the statement holds after a failed batch depends on the driver.
- XlinkGroupImporter.GroupToCityObjectImporter.ExecuteBatch: a failing batch execution is not modelled; in the source the exception leaves the counter unchanged and the rows' fate to the driver.
- Inputs of the export's preparation: the texture folder and whether it is absolute, the XLink settings, the xlink pool size and whether the metadata provider was found are inputs of `Preparation` and the controller. `ExportRules.TextureFolder`, `ExportRules.XlinkSettings` and `ExportRules.XlinkPoolMaxSize` state how the source computes them; the model does not force the controller's inputs to equal their results.
- KmlExport.KmlExportConfig: the display-form lists, the ADE preferences and the converter options are stored as values, so a caller that changes a list after handing it to a setter, or through a getter, changes the configuration in the source but not in the model. `GetActiveDisplayFormsAmount` takes a list, where the source throws a `NullPointerException` for a null one.
- Unexpected errors of a pass, wrapped as "An unexpected error occurred.", are modelled only where a collaborator answers with one (the query).
