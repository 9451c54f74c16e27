# IFC export configurations, schema migration and failure handling — a Dafny model

This project models the logic core of the Revit IFC exporter app bundle:

- **The export-configuration registry** (`IFCExportConfigurationsMap`). It offers incremental
  names (`root 1`, `root 2`, …). It imports a decoded configuration, renaming it when the name
  is taken and rewriting the deprecated IFCBCA version to IFC2x3CV2.
- **The two schema migrations.** They move every configuration that is neither built in nor in
  session from one generation of the document's extensible-storage schema to another: JSON
  schema to map schema, and old and map schema to JSON schema. Each migration deletes the
  source generation's records in one transaction. It then writes the queued configurations
  to the target schema's data-storage slots *by position* in a second transaction.
- **The failures processor** (`OpenDocumentFailuresProcessor.ProcessFailures`). It makes one
  pass over the failure messages of a commit. It rolls back once three resolution types have
  been tried, resolves the first error that names failing elements, deletes the first warning,
  and otherwise lets the commit continue.
- **The facility-type and exchange-requirement tables** (`IFCFacilityTypes`,
  `IFCExchangeRequirements`), their build-once initializers, the enum label functions
  (`IFCEnumExtensions`) and the string-to-enum parsers with their NotDefined/NOTDEFINED
  fallbacks.

Files and modules:

| file | module | contents |
|---|---|---|
| `wrappers.dfy` | `Wrappers` | `Option`, `Result` |
| `ifc_enums.dfy` | `IfcEnums` | the host enumerations, their member names, `Enum.GetValues` order, `Enum.TryParse` |
| `enum_extensions.dfy` | `IfcEnumExtensions` | the label functions and their distinctness |
| `facility_types.dfy` | `IfcFacilityTypes` | the facility parsers, the validated predefined type, the lazily filled tables |
| `exchange_requirements.dfy` | `IfcExchangeRequirements` | the exchange-requirement tables and parser |
| `configuration.dfy` | `IfcExportConfiguration` | the configuration record, incremental names, upsert by name, the persistable queue, the map-schema encoding |
| `persisted_store.dfy` | `PersistedStore` | the document: registered schemas, slots per schema, transactions that can fail |
| `configurations_map.dfy` | `IfcExportConfigurationsMap` | the registry class, import, the delete and write phases, both migrations |
| `failures_processor.dfy` | `OpenDocumentFailures` | the failures accessor, the decision function `Scan`, `ProcessFailures` |

Modelling choices:

- **External calls.** The host's storage calls (`Schema.Lookup`, `SchemaBuilder.Finish`,
  `DataStorage.Create`, `SetEntity`, `Document.Delete` and `Transaction`) are methods of
  `PersistedStore.Document`. `Document` holds a map from schema to its slots in element-id
  order and an element counter.
- **Failure injection.** `Document.failing` is the set of transaction names whose `Commit`
  throws. `RollBack` restores the slots and the counter that `Start` saved. Schemas are
  registered application-wide, so a rollback does not remove them.
- **JSON.** `JsonConvert.DeserializeObject` becomes a parameter. An import receives the
  decoded value as an `Option`, and `None` stands for the null result.
- **Queuing order.** The registry is a sequence in dictionary iteration order.
  `AddOrReplace` replaces an entry in place or appends it.
- **In-session configuration.** The process-wide `IFCExportConfiguration.SetInSession` slot
  is the field `inSessionConfiguration`.
- **The older project.** `RevitIfcExportor/IFC/IFCExportConfigurationsMap.partial.cs` holds
  copies of `GetDuplicateSetupName` (lines 39-42), `GetFirstIncrementalName` (lines 49-64) and
  `AddConfigurationFromJson` (lines 66-81) that match the newer ones line for line. One
  `ConfigurationsMap` class models both.
- **Cached schema handles.** `m_jsonSchema`, `m_mapSchema` and `m_OldSchema` are booleans that
  say a handle is cached. `CacheSound` states that a cached handle refers to a registered
  schema.

Behaviour of the code worth knowing, which the model follows:

- **The migrations are not atomic.** The delete phase and the write phase are separate
  transactions. When the write fails, the committed delete stays.
  `ConvertSavedConfigurationsFromJsonToLegacy` and `FailedWriteKeepsDeletePhase` state this.
- **Only the first warning is deleted.** Under Warning severity the processor deletes the first
  warning and returns; the other warnings are not dismissed (`OnlyFirstWarningDeleted`).
- **Success with nothing migrated.** The JSON-to-map migration reports success when no JSON
  schema exists. It reports failure when the schema exists but holds no records.
- **The empty queue differs by direction.** With an empty queue and an existing map schema,
  the JSON-to-map direction still runs the write, which deletes every map-schema slot. The
  map-to-JSON direction skips the write, reports failure and leaves surplus JSON slots in place.
- **Geo-reference fields.** The map-schema encoding stores `GeoRefCRSName` under the
  description, EPSG-code, datum and map-unit keys whenever those fields are non-empty. The
  model reproduces this (`MapEncodeLosesGeoReferenceValues`).

## Model

| member | source | states |
|---|---|---|
| IfcEnums.TryParse | RevitIfcExporter/IFC/IFCFacilityTypes.cs:240-248 | the parsed member has exactly the given name; no result means no member has that name |
| IfcEnums.VersionName | RevitIfcExporter/IFC/IFCExportConfigurationsMap.partial.cs:187-190 | the text `ToString()` gives for a version is a C# identifier: non-empty, no space or parenthesis |
| IfcEnums.ErName | RevitIfcExporter/IFC/IFCExchangeRequirements.cs:85-93 | the member name of an exchange requirement is a C# identifier |
| IfcEnums.FacilityName | RevitIfcExporter/IFC/IFCFacilityTypes.cs:240-248 | the member name of a facility type is a C# identifier |
| IfcEnums.BridgeTypeName | RevitIfcExporter/IFC/IFCFacilityTypes.cs:256-279 | the member name of a bridge type is a C# identifier |
| IfcEnums.MarineFacilityTypeName | RevitIfcExporter/IFC/IFCFacilityTypes.cs:256-279 | the member name of a marine facility type is a non-empty word of upper-case letters |
| IfcEnumExtensions.ToLabel | RevitIfcExporter/IFC/IFCEnumExtensions.cs:34-67 | every version gets a non-empty label, and "Unrecognized IFC version" exactly when the switch lists no case for it |
| IfcEnumExtensions.ToShortLabel | RevitIfcExporter/IFC/IFCEnumExtensions.cs:74-87 | "" exactly for NotDefined; otherwise the requirement's member name |
| IfcEnumExtensions.ErFullLabel | RevitIfcExporter/IFC/IFCEnumExtensions.cs:95-108 | "" exactly for NotDefined; the label equals the member name only for Architecture |
| IfcEnumExtensions.FacilityFullLabel | RevitIfcExporter/IFC/IFCEnumExtensions.cs:117-134 | "" exactly for NotDefined, the one member the switch leaves to its default |
| IfcEnumExtensions.BridgeFullLabel | RevitIfcExporter/IFC/IFCEnumExtensions.cs:141-168 | "Not Defined" exactly for NOTDEFINED and "User Defined" exactly for USERDEFINED |
| IfcEnumExtensions.MarineFacilityFullLabel | RevitIfcExporter/IFC/IFCEnumExtensions.cs:175-224 | "Not Defined" exactly for NOTDEFINED and "User Defined" exactly for USERDEFINED |
| IfcEnumExtensions.BcaAliasLabel | RevitIfcExporter/IFC/IFCEnumExtensions.cs:42-44 | IFCBCA and IFC2x3CV2 share the label "IFC 2x3 Coordination View 2.0" |
| IfcEnumExtensions.VersionLabelsDistinct | RevitIfcExporter/IFC/IFCEnumExtensions.cs:34-67 | two different versions have different labels, except for the IFCBCA/IFC2x3CV2 alias |
| IfcEnumExtensions.EarlyVersionLabelDistinct | RevitIfcExporter/IFC/IFCEnumExtensions.cs:36-50 | the label of each of the first six versions differs from the label of every other version, apart from the alias |
| IfcEnumExtensions.LateVersionLabelsDistinct | RevitIfcExporter/IFC/IFCEnumExtensions.cs:50-64 | the labels of the later versions are pairwise different |
| IfcEnumExtensions.ErFullLabelsDistinct | RevitIfcExporter/IFC/IFCEnumExtensions.cs:95-108 | different exchange requirements have different full labels |
| IfcEnumExtensions.FacilityLabelsDistinct | RevitIfcExporter/IFC/IFCEnumExtensions.cs:117-134 | different facility types have different labels |
| IfcEnumExtensions.BridgeLabelsDistinct | RevitIfcExporter/IFC/IFCEnumExtensions.cs:141-168 | different bridge types have different labels |
| IfcFacilityTypes.GetFacilityEnum | RevitIfcExporter/IFC/IFCFacilityTypes.cs:115-131 | a recognized string is the facility's own label; anything else gives NotDefined |
| IfcFacilityTypes.GetFacilityEnumRecognizesIff | RevitIfcExporter/IFC/IFCFacilityTypes.cs:115-131 | a string is recognized exactly when it is the label of one of the five facility types |
| IfcFacilityTypes.FacilityLabelRoundTrip | RevitIfcExporter/IFC/IFCFacilityTypes.cs:119-128 | parsing the label of each known facility type gives that facility type back |
| IfcFacilityTypes.GetBridgePredefinedTypeEnum | RevitIfcExporter/IFC/IFCFacilityTypes.cs:138-162 | a recognized string is the bridge type's own label; anything else gives NOTDEFINED |
| IfcFacilityTypes.BridgeLabelRoundTrip | RevitIfcExporter/IFC/IFCFacilityTypes.cs:138-162 | parsing the label of every bridge type gives that bridge type back |
| IfcFacilityTypes.GetMarineFacilityPredefinedTypeEnum | RevitIfcExporter/IFC/IFCFacilityTypes.cs:169-215 | a recognized string is the marine facility type's own label; anything else gives NOTDEFINED |
| IfcFacilityTypes.MarineChainFrom5 | RevitIfcExporter/IFC/IFCFacilityTypes.cs:184-215 | the rest of the marine if-chain from its sixth test keeps the same soundness |
| IfcFacilityTypes.MarineChainFrom10 | RevitIfcExporter/IFC/IFCFacilityTypes.cs:194-215 | the rest of the marine if-chain from its eleventh test keeps the same soundness |
| IfcFacilityTypes.MarineChainFrom15 | RevitIfcExporter/IFC/IFCFacilityTypes.cs:204-215 | the last tests of the marine if-chain keep the same soundness |
| IfcFacilityTypes.MarineLabelParsesBack0 | RevitIfcExporter/IFC/IFCFacilityTypes.cs:171-184 | the labels of the first group of marine facility types parse back to them |
| IfcFacilityTypes.MarineLabelParsesBack1 | RevitIfcExporter/IFC/IFCFacilityTypes.cs:184-196 | the labels of the second group of marine facility types parse back to them |
| IfcFacilityTypes.MarineLabelParsesBack2 | RevitIfcExporter/IFC/IFCFacilityTypes.cs:196-215 | the labels of the rest of the marine facility types, the default included, parse back to them |
| IfcFacilityTypes.MarineFacilityLabelRoundTrip | RevitIfcExporter/IFC/IFCFacilityTypes.cs:169-215 | parsing the label of every marine facility type gives that type back |
| IfcFacilityTypes.MarineFacilityLabelsDistinct | RevitIfcExporter/IFC/IFCEnumExtensions.cs:175-224 | different marine facility types have different labels |
| IfcFacilityTypes.GetFacilityPredefinedTypeEnum | RevitIfcExporter/IFC/IFCFacilityTypes.cs:222-233 | the result is null exactly for facility types other than Bridge and MarineFacility, and otherwise belongs to the facility's family; a member other than NOTDEFINED comes back only for its own label, so any other string gives the family's NOTDEFINED |
| IfcFacilityTypes.PredefinedTypeLabelRoundTrip | RevitIfcExporter/IFC/IFCFacilityTypes.cs:304-319 | a predefined type of the facility's family has a label, and parsing that label for the facility gives the type back |
| IfcFacilityTypes.ParseFacilityTypeEnum | RevitIfcExporter/IFC/IFCFacilityTypes.cs:240-248 | a parsed facility type has exactly the given member name; otherwise the result is NotDefined |
| IfcFacilityTypes.ParseFacilityTypeEnumRoundTrip | RevitIfcExporter/IFC/IFCFacilityTypes.cs:240-248 | every facility type is recovered from its member name |
| IfcFacilityTypes.ParseFacilityPredefinedTypeEnum | RevitIfcExporter/IFC/IFCFacilityTypes.cs:256-279 | null for facility types without predefined types; a result belongs to the facility's family and has the given member name; a name that some member has always gives a result |
| IfcFacilityTypes.ParseBridgePredefinedTypeRoundTrip | RevitIfcExporter/IFC/IFCFacilityTypes.cs:256-279 | every bridge type is recovered from its member name |
| IfcFacilityTypes.ValidatedPredefinedTypeEnum | RevitIfcExporter/IFC/IFCFacilityTypes.cs:287-302 | null gives null; the input is returned exactly when it belongs to the facility's family, and a mismatch gives null |
| IfcFacilityTypes.ToFullLabel | RevitIfcExporter/IFC/IFCFacilityTypes.cs:304-319 | null exactly when validation fails; otherwise the label of the predefined type |
| IfcFacilityTypes.CollectLabels | RevitIfcExporter/IFC/IFCFacilityTypes.cs:60-71 | the loop builds the list of labels of the enumeration members, position by position |
| IfcFacilityTypes.FacilityTypeTables.constructor | RevitIfcExporter/IFC/IFCFacilityTypes.cs:34-37 | the static tables start out empty |
| IfcFacilityTypes.FacilityTypeTables.Initialize | RevitIfcExporter/IFC/IFCFacilityTypes.cs:39-72 | fills the tables when they are empty: IFC4x3 maps to [Bridge, Building, MarineFacility, Railway, Road], with the labels of those types and of every bridge and marine facility type; a second call changes nothing |
| IfcFacilityTypes.FacilityTypeTables.FacilityTypes | RevitIfcExporter/IFC/IFCFacilityTypes.cs:79-86 | the version table after initialization is exactly {IFC4x3: [Bridge, Building, MarineFacility, Railway, Road]} |
| IfcFacilityTypes.FacilityTypeTables.FacilityTypesForUI | RevitIfcExporter/IFC/IFCFacilityTypes.cs:93-97 | a label list only for IFC4x3, and it is the labels of the IFC4x3 facility types |
| IfcFacilityTypes.FacilityTypeTables.FacilityPredefinedTypesForUI | RevitIfcExporter/IFC/IFCFacilityTypes.cs:104-108 | a label list exactly for Bridge and MarineFacility, holding the labels of all their predefined types |
| IfcFacilityTypes.FacilityListParsesBack | RevitIfcExporter/IFC/IFCFacilityTypes.cs:56-58 | every entry of the IFC4x3 UI list parses back to the facility type at that position |
| IfcFacilityTypes.BridgeListParsesBack | RevitIfcExporter/IFC/IFCFacilityTypes.cs:60-65 | every entry of the bridge UI list parses back to the bridge type at that position |
| IfcFacilityTypes.MarineListParsesBack | RevitIfcExporter/IFC/IFCFacilityTypes.cs:67-72 | every entry of the marine UI list parses back to the marine facility type at that position |
| IfcExchangeRequirements.ExchangeRequirementTables.constructor | RevitIfcExporter/IFC/IFCExchangeRequirements.cs:37-38 | the static tables start out empty |
| IfcExchangeRequirements.ExchangeRequirementTables.Initialize | RevitIfcExporter/IFC/IFCExchangeRequirements.cs:40-55 | fills the tables when empty: IFC2x3CV2 and IFC4RV both map to [Architecture, BuildingService, Structural] and share one label list; a second call changes nothing |
| IfcExchangeRequirements.ExchangeRequirementTables.ExchangeRequirements | RevitIfcExporter/IFC/IFCExchangeRequirements.cs:60-67 | the requirement table after initialization is exactly those two entries |
| IfcExchangeRequirements.ExchangeRequirementTables.ExchangeRequirementListForUI | RevitIfcExporter/IFC/IFCExchangeRequirements.cs:74-78 | a list exactly for IFC2x3CV2 and IFC4RV, holding the full labels of the three requirements in order; null for every other version |
| IfcExchangeRequirements.ParseEREnum | RevitIfcExporter/IFC/IFCExchangeRequirements.cs:85-93 | a parsed requirement has exactly the given member name; a name no member has gives NotDefined |
| IfcExchangeRequirements.ParseEREnumRoundTrip | RevitIfcExporter/IFC/IFCExchangeRequirements.cs:85-93 | every exchange requirement is recovered from its member name |
| IfcExchangeRequirements.ParseEREnumInvertsShortLabel | RevitIfcExporter/IFC/IFCEnumExtensions.cs:74-87 | parsing the short label of an exchange requirement gives it back |
| IfcExchangeRequirements.ParseEREnumOnUILabels | RevitIfcExporter/IFC/IFCExchangeRequirements.cs:85-93 | of the UI labels only "Architecture" parses back; the other two labels give NotDefined |
| IfcExportConfiguration.DecimalString | RevitIfcExporter/IFC/IFCExportConfigurationsMap.partial.cs:66 | the decimal text of the counter is non-empty and has one digit exactly below 10 |
| IfcExportConfiguration.DecimalStringInjective | RevitIfcExporter/IFC/IFCExportConfigurationsMap.partial.cs:66 | different counters have different decimal texts |
| IfcExportConfiguration.IncrementalName | RevitIfcExporter/IFC/IFCExportConfigurationsMap.partial.cs:66 | the candidate name is the root followed by a space and at least one more character |
| IfcExportConfiguration.IncrementalNameInjective | RevitIfcExporter/IFC/IFCExportConfigurationsMap.partial.cs:63-70 | different counters give different candidate names for one root |
| IfcExportConfiguration.IncrementalNameIsFresh | RevitIfcExporter/IFC/IFCExportConfigurationsMap.partial.cs:61-66 | a candidate name is never the root itself: the suffix is always appended |
| IfcExportConfiguration.NamesBound | RevitIfcExporter/IFC/IFCExportConfigurationsMap.partial.cs:67 | a registry of n configurations carries at most n names |
| IfcExportConfiguration.TakenIncrementalNamesBound | RevitIfcExporter/IFC/IFCExportConfigurationsMap.partial.cs:63-70 | if candidates 1 to n are all taken, the registry has at least n names, so the search ends |
| IfcExportConfiguration.Upsert | RevitIfcExporter/IFC/IFCExportConfigurationsMap.partial.cs:87 | a new name is appended; a present name keeps the length; the configuration is in the result |
| IfcExportConfiguration.UpsertKeepsOthers | RevitIfcExporter/IFC/IFCExportConfigurationsMap.partial.cs:87 | entries with other names survive, and no entry but the given one is brought in |
| IfcExportConfiguration.UpsertNames | RevitIfcExporter/IFC/IFCExportConfigurationsMap.partial.cs:87 | the names after the upsert are the names before plus the configuration's name |
| IfcExportConfiguration.UpsertUnique | RevitIfcExporter/IFC/IFCExportConfigurationsMap.partial.cs:87 | the upsert keeps names unique |
| IfcExportConfiguration.UpsertIdempotent | RevitIfcExporter/IFC/IFCExportConfigurationsMap.partial.cs:87 | upserting the same configuration twice equals upserting it once |
| IfcExportConfiguration.NormalizedVersion | RevitIfcExporter/IFC/IFCExportConfigurationsMap.partial.cs:84-85 | IFCBCA becomes IFC2x3CV2, and every other version is kept |
| IfcExportConfiguration.PersistableSetups | RevitIfcExporter/IFC/IFCExportConfigurationsMap.partial.cs:135-149 | the queue holds exactly the configurations that are neither built in nor in session, and is no longer than the registry |
| IfcExportConfiguration.PersistableSetupsAppend | RevitIfcExporter/IFC/IFCExportConfigurationsMap.partial.cs:135-149 | queuing a registry in two parts queues each part in order |
| IfcExportConfiguration.InSessionAfter | RevitIfcExporter/IFC/IFCExportConfigurationsMap.partial.cs:141-146 | the slot changes only to an in-session, non-built-in configuration of the registry; without one it keeps its value |
| IfcExportConfiguration.InSessionAfterLast | RevitIfcExporter/IFC/IFCExportConfigurationsMap.partial.cs:141-146 | the last in-session, non-built-in configuration of the registry, wherever it stands, is the one left in the slot |
| IfcExportConfiguration.MapEncode | RevitIfcExporter/IFC/IFCExportConfigurationsMap.partial.cs:186-232 | the dictionary holds the name, the version member name, the exchange-requirement member name and every other setting |
| IfcExportConfiguration.MapEncodeLosesGeoReferenceValues | RevitIfcExporter/IFC/IFCExportConfigurationsMap.partial.cs:226-230 | two configurations whose four geo-reference fields are empty in the same places are encoded alike, because only the CRS name is stored |
| PersistedStore.Encoded | RevitIfcExporter/IFC/IFCExportConfigurationsMap.partial.cs:172-234 | one entity per queued configuration, in queue order |
| PersistedStore.ElementIds | RevitIfcExporter/IFC/IFCExportConfigurationsMap.partial.cs:107-111 | the ids of the slots, position by position |
| PersistedStore.Remove | RevitIfcExporter/IFC/IFCExportConfigurationsMap.partial.cs:112 | the slots kept are exactly those whose element was not deleted |
| PersistedStore.RemoveAll | RevitIfcExporter/IFC/IFCExportConfigurationsMap.partial.cs:107-112 | deleting the ids of all the slots leaves none |
| PersistedStore.RemoveSuffix | RevitIfcExporter/IFC/IFCExportConfigurationsMap.partial.cs:236-243 | deleting exactly the ids of the trailing slots leaves the leading slots |
| PersistedStore.Reconciled | RevitIfcExporter/IFC/IFCExportConfigurationsMap.partial.cs:169-243 | the reconciled slots are as many as the queued configurations |
| PersistedStore.ReconciledProperties | RevitIfcExporter/IFC/IFCExportConfigurationsMap.partial.cs:169-243 | slot i holds entity i; reused slots keep their element ids; the surplus slots are gone; the ids still increase below the new counter |
| PersistedStore.ReconciledSnoc | RevitIfcExporter/IFC/IFCExportConfigurationsMap.partial.cs:172-234 | one more configuration adds one slot: the next saved slot while one remains, a new element after that |
| PersistedStore.RemoveKeepsIncreasing | RevitIfcExporter/IFC/IFCExportConfigurationsMap.partial.cs:243 | deleting slots keeps the element ids increasing and in bound |
| PersistedStore.EntityFor | RevitIfcExporter/IFC/IFCExportConfigurationsMap.partial.cs:185-232 | a map-schema entity exactly for the map schema, carrying the configuration's name; a JSON entity exactly for the JSON schema, holding the configuration itself (lines 385-388) |
| PersistedStore.Document.HasStarted | RevitIfcExporter/IFC/IFCExportConfigurationsMap.partial.cs:117 | a started transaction has a valid snapshot of the storage to roll back to |
| PersistedStore.Document.constructor | RevitIfcExporter/IFC/IFCExportConfigurationsMap.partial.cs:92-100 | a document with the given schemas and failing transactions, and no slots |
| PersistedStore.Document.Start | RevitIfcExporter/IFC/IFCExportConfigurationsMap.partial.cs:103-106 | opens a transaction and remembers the storage as it is |
| PersistedStore.Document.Commit | RevitIfcExporter/IFC/IFCExportConfigurationsMap.partial.cs:113-115 | returns normally exactly when the transaction is not one whose commit throws; a throwing commit leaves it open |
| PersistedStore.Document.RollBack | RevitIfcExporter/IFC/IFCExportConfigurationsMap.partial.cs:115-121 | puts back the slots and the element counter remembered at start |
| PersistedStore.Document.CreateSchema | RevitIfcExporter/IFC/IFCExportConfigurationsMap.partial.cs:156-162 | registers the schema outside any transaction and changes no slot |
| PersistedStore.Document.SetEntity | RevitIfcExporter/IFC/IFCExportConfigurationsMap.partial.cs:181-233 | replaces the entity of one slot and nothing else |
| PersistedStore.Document.CreateDataStorage | RevitIfcExporter/IFC/IFCExportConfigurationsMap.partial.cs:175-178 | appends a slot with a fresh element id and nothing else |
| PersistedStore.Document.Delete | RevitIfcExporter/IFC/IFCExportConfigurationsMap.partial.cs:112 | removes the slots with the given ids from one schema and nothing else |
| IfcExportConfigurationsMap.DeleteSavedConfigurations | RevitIfcExporter/IFC/IFCExportConfigurationsMap.partial.cs:103-121 | succeeds exactly when the commit does not throw; then the schema has no slots, otherwise the storage is unchanged |
| IfcExportConfigurationsMap.WriteSetups | RevitIfcExporter/IFC/IFCExportConfigurationsMap.partial.cs:165-253 | succeeds exactly when the commit does not throw; then the target slots are the queue reconciled by position, otherwise storage and counter are unchanged |
| IfcExportConfigurationsMap.StoreSetups | RevitIfcExporter/IFC/IFCExportConfigurationsMap.partial.cs:169-234 | after the foreach, the first slots carry the queue and the saved slots not reused follow them |
| IfcExportConfigurationsMap.StoreSetup | RevitIfcExporter/IFC/IFCExportConfigurationsMap.partial.cs:174-233 | one iteration reuses the next saved slot or creates one, and stores the configuration there |
| IfcExportConfigurationsMap.DeleteSurplus | RevitIfcExporter/IFC/IFCExportConfigurationsMap.partial.cs:236-243 | deleting the saved slots from the reuse count on leaves exactly the reconciled slots |
| IfcExportConfigurationsMap.SurplusElementIds | RevitIfcExporter/IFC/IFCExportConfigurationsMap.partial.cs:236-241 | the loop collects the ids of the saved slots from the reuse count on, in order |
| IfcExportConfigurationsMap.SurplusIsDisjoint | RevitIfcExporter/IFC/IFCExportConfigurationsMap.partial.cs:236-243 | no reconciled slot shares an element with a surplus slot |
| IfcExportConfigurationsMap.ConfigurationsMap.constructor | RevitIfcExporter/IFC/IFCExportConfigurationsMap.partial.cs:41-42 | an empty registry with no cached schema handles |
| IfcExportConfigurationsMap.ConfigurationsMap.HasName | RevitIfcExporter/IFC/IFCExportConfigurationsMap.partial.cs:61-67 | true exactly when some configuration of the registry carries the name |
| IfcExportConfigurationsMap.ConfigurationsMap.AddOrReplace | RevitIfcExporter/IFC/IFCExportConfigurationsMap.partial.cs:87 | the registry becomes the upsert of the configuration, and names stay unique |
| IfcExportConfigurationsMap.ConfigurationsMap.GetFirstIncrementalName | RevitIfcExporter/IFC/IFCExportConfigurationsMap.partial.cs:58-73 | returns `root N` for the least N of at least 1 whose name is free; the result is never taken |
| IfcExportConfigurationsMap.ConfigurationsMap.GetDuplicateSetupName | RevitIfcExporter/IFC/IFCExportConfigurationsMap.partial.cs:48-51 | the first free incremental name of the configuration's own name, never that name itself |
| IfcExportConfigurationsMap.ConfigurationsMap.AddConfigurationFromJson | RevitIfcExporter/IFC/IFCExportConfigurationsMap.partial.cs:75-90 | a null decode fails with InvalidData and changes nothing; otherwise the configuration, renamed to the first free incremental name when its name is taken and with IFCBCA rewritten, is appended, the registry grows by one, and the returned name is new and present |
| IfcExportConfigurationsMap.ConfigurationsMap.CollectSetupsToSave | RevitIfcExporter/IFC/IFCExportConfigurationsMap.partial.cs:135-149 | the queue is the persistable configurations in registry order, and the in-session slot holds the last in-session one |
| IfcExportConfigurationsMap.ConfigurationsMap.LookupSchema | RevitIfcExporter/IFC/IFCExportConfigurationsMap.partial.cs:94-98 | the schema is looked up only when no handle is cached; the result says whether it is registered |
| IfcExportConfigurationsMap.ConfigurationsMap.EnsureSchema | RevitIfcExporter/IFC/IFCExportConfigurationsMap.partial.cs:156-162 | afterwards the schema is registered and cached, and no slot has changed |
| IfcExportConfigurationsMap.ConfigurationsMap.DeleteLegacySetups | RevitIfcExporter/IFC/IFCExportConfigurationsMap.partial.cs:261-323 | fails only when the schema has slots and their delete commit throws, storage unchanged; otherwise the schema has no slots |
| IfcExportConfigurationsMap.ConfigurationsMap.SaveSetups | RevitIfcExporter/IFC/IFCExportConfigurationsMap.partial.cs:128-253 | the second half of a migration ends as `MigrationTail` says, and the in-session slot is set as in the queuing loop |
| IfcExportConfigurationsMap.ConfigurationsMap.ConvertSavedConfigurationsFromJsonToLegacy | RevitIfcExporter/IFC/IFCExportConfigurationsMap.partial.cs:92-257 | true with nothing changed when there is no JSON schema; false with nothing changed when it has no records or its delete fails; after the delete, false when nothing is queued and no map schema exists; otherwise the map schema exists and the result says whether the write's commit did not throw; a failed write keeps the delete |
| IfcExportConfigurationsMap.ConfigurationsMap.ConvertSavedConfigurationsFromLegacyToJson | RevitIfcExporter/IFC/IFCExportConfigurationsMap.partial.cs:259-414 | a failed old-schema delete changes nothing; a failed map-schema delete keeps the old-schema delete; after both, the result is true exactly when something is queued and the write's commit does not throw, with the JSON slots reconciled with the queue |
| IfcExportConfigurationsMap.CommittedWriteHoldsQueue | RevitIfcExporter/IFC/IFCExportConfigurationsMap.partial.cs:169-245 | after a write whose commit did not throw, the target has exactly one slot per queued configuration, and slot i holds queued configuration i |
| IfcExportConfigurationsMap.FailedWriteKeepsDeletePhase | RevitIfcExporter/IFC/IFCExportConfigurationsMap.partial.cs:247-253 | a migration whose write fails leaves the storage as the delete phase left it |
| IfcExportConfigurationsMap.EmptyQueueOutcomes | RevitIfcExporter/IFC/IFCExportConfigurationsMap.partial.cs:350-413 | with nothing queued the map-to-JSON direction never succeeds; the JSON-to-map direction deletes every map slot when its write's commit does not throw |
| OpenDocumentFailures.StopDecision | RevitIfcExporter/OpenDocumentFailuresProcessor.cs:45-100 | at a stopping message: rollback exactly over the threshold, with no action; commit otherwise |
| OpenDocumentFailures.FailuresAccessor.constructor | RevitIfcExporter/OpenDocumentFailuresProcessor.cs:35-37 | an accessor with the given messages and severity and no changes yet |
| OpenDocumentFailures.FailuresAccessor.SetCurrentResolutionTypeToDeleteElements | RevitIfcExporter/OpenDocumentFailuresProcessor.cs:74 | records the delete-elements resolution for the message |
| OpenDocumentFailures.FailuresAccessor.Resolve | RevitIfcExporter/OpenDocumentFailuresProcessor.cs:83 | records that the failure is resolved |
| OpenDocumentFailures.FailuresAccessor.Delete | RevitIfcExporter/OpenDocumentFailuresProcessor.cs:94 | records that the warning is deleted |
| OpenDocumentFailures.ProcessFailures | RevitIfcExporter/OpenDocumentFailuresProcessor.cs:35-104 | the result and the changes made to the accessor are those of `Scan` from the first message |
| OpenDocumentFailures.ScanDecidedByFirstStop | RevitIfcExporter/OpenDocumentFailuresProcessor.cs:43-101 | the first message that is over the threshold or handled decides the pass, and the messages before it change nothing |
| OpenDocumentFailures.ScanContinuesIff | RevitIfcExporter/OpenDocumentFailuresProcessor.cs:103 | the pass continues exactly when no message stops it, and then it changes nothing |
| OpenDocumentFailures.NoMessagesContinue | RevitIfcExporter/OpenDocumentFailuresProcessor.cs:103 | an empty list of messages gives Continue |
| OpenDocumentFailures.ScanActsOnOneMessage | RevitIfcExporter/OpenDocumentFailuresProcessor.cs:97-100 | at most two actions, all on one message: the first one that stops the pass |
| OpenDocumentFailures.ThresholdRollsBack | RevitIfcExporter/OpenDocumentFailuresProcessor.cs:39-55 | a message with at least three attempted resolution types rolls back when reached, whatever the severity |
| OpenDocumentFailures.ErrorResolvesFirstFailingElements | RevitIfcExporter/OpenDocumentFailuresProcessor.cs:59-84 | under Error the first message with failing elements is resolved, with delete-elements chosen only when offered, and the commit proceeds; errors without failing elements are passed over |
| OpenDocumentFailures.OnlyFirstWarningDeleted | RevitIfcExporter/OpenDocumentFailuresProcessor.cs:91-100 | under Warning the first message either rolls back or is the only warning deleted |
| OpenDocumentFailures.OtherSeveritiesChangeNothing | RevitIfcExporter/OpenDocumentFailuresProcessor.cs:57-101 | with another severity the pass continues or rolls back and changes nothing |

## Left out

- `MainApp.cs` of both projects is left out. It is Design Automation start-up, file I/O and the host's export call.
- `IFCPhaseAttributes.cs` is left out. Every function there queries the host document.
- `ConfigurationComparer.cs` is left out. Its equality delegates to a JSON serializer.
- `IFCLinkedFileExportAs.cs`, the older `IFCEnumExtensions.cs` and `CommonEnum.cs` are left out. They are label tables or enum declarations without a parser or further behaviour.
- `HasName`, `AddOrReplace` and `GetSavedConfigurations` are implemented in a part of `IFCExportConfigurationsMap` that is not part of this model. They are modelled as name membership, upsert by name in place, and the schema's slots in element-id order.
- JSON decoding and `SerializeConfigToJson` are left out. They are an external library; a JSON entity holds the configuration it serializes.
- The per-field `ToString()` text of the map-schema encoding is left out. Settings other than the name, the version, the exchange requirement and the geo-reference fields are kept as a dictionary.
- Document.Commit: a commit either returns normally or throws. Revit's `Transaction.Commit` can also return `TransactionStatus.RolledBack` without throwing, for example when a failures processor returns ProceedWithRollBack. The source ignores that status (lines 113, 245, 281, 313 and 400 of `RevitIfcExporter/IFC/IFCExportConfigurationsMap.partial.cs`), so it then reports success although nothing was stored. The model does not capture that case. Its "succeeds" always means "the commit did not throw".
- Exceptions other than a failing `Commit` are left out (from `Start`, `Delete`, `DataStorage.Create` or `SetEntity`). They lead to the same rollback and `false` result.
- Faults are keyed by the name a transaction is constructed with. The name passed to `Start` is ignored.
- Each data-storage element is assumed to carry the entity of one schema only. `Document.Delete` therefore removes slots from one schema's list.
- Logging (`MainApp.LogTrace`) and the FamilyIsCorruptError test, which only logs, are left out.
- `GetAttemptedResolutionTypes(f)` is a count stored with each message. `DeleteElements` is the only resolution type modelled.
- `Enum.TryParse` is an exact member-name match. Numeric strings, surrounding whitespace and comma-separated flag lists are left out.
- The order of `Enum.GetValues` for the bridge and marine facility types is assumed to be declaration order. Their declaring toolkit file is not part of this model.
- Conditional compilation is left out. The newest build is modelled, with every IFC version up to IFC4x3 and IFCSG.
- ParseFacilityPredefinedTypeEnum: the exact round trip from member names is proved for bridge types only. For marine facility types the contract states soundness and that a known member name always gives a result, but not which member it gives.
- ToLabel, ToShortLabel, ErFullLabel, FacilityFullLabel, BridgeFullLabel and MarineFacilityFullLabel: enum values outside the declared members, such as `(IFCBridgeType)99` from `Enum.TryParse("99", …)`, are not modelled, so the `default:` arms that return "" for them are unreachable in the model. The enumerations are closed datatypes. The `default:` arm of `ToLabel` is reached only by Default, and the fallback facts of the label contracts hold over the declared members only.
- ConfigurationsMap.GetFirstIncrementalName: the counter is unbounded. The C# `int number` would overflow only after about 2^31 taken names, which the model does not capture.
- Concurrency is left out, as the host calls everything from one thread.
