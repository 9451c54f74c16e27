/**
 * The configuration registry (`IFCExportConfigurationsMap`): the configurations in iteration
 * order, the incremental names it offers, the import of a decoded configuration, and the two
 * migrations that move the persistable configurations from one stored schema to another.
 * The older project carries the same naming and import methods, without the migrations.
 */
module IfcExportConfigurationsMap {
  import opened Wrappers
  import opened IfcEnums
  import opened IfcExportConfiguration
  import opened PersistedStore

  /** The transactions the migrations open, by the name the source constructs them with. */
  const DeleteJsonSetupsTransaction := "Delete JSON-based IFC export setups"
  const DeleteOldSetupsTransaction := "Delete old IFC export setups"
  const DeleteMapSetupsTransaction := "Delete old configuration"
  const UpdateSetupsTransaction := "Update IFC export setups"

  /** The `InvalidDataException` an import raises when the text decodes to nothing. */
  datatype ImportError = InvalidData

  /**
   * The delete phase of a migration: one transaction deleting every slot of `schema`. When the
   * commit fails the transaction is rolled back and the storage is as before.
   */
  method DeleteSavedConfigurations(doc: Document, schema: SchemaId, transactionName: string) returns (ok: bool)
    requires doc.Valid() && doc.openTransaction.None?
    modifies doc
    ensures doc.Valid() && doc.openTransaction.None?
    ensures doc.schemas == old(doc.schemas) && doc.nextElement == old(doc.nextElement)
    ensures ok <==> transactionName !in doc.failing
    ensures ok ==> doc.storage == old(doc.storage)[schema := []]
    ensures !ok ==> doc.storage == old(doc.storage)
  {
    doc.Start(transactionName);
    var oldSavedConfigurations := doc.Slots(schema);
    var dataStorageToDelete: seq<nat> := [];
    for k := 0 to |oldSavedConfigurations|
      invariant dataStorageToDelete == ElementIds(oldSavedConfigurations)[..k]
    {
      dataStorageToDelete := dataStorageToDelete + [oldSavedConfigurations[k].element];
    }
    assert dataStorageToDelete == ElementIds(oldSavedConfigurations);
    RemoveAll(oldSavedConfigurations);
    doc.Delete(schema, dataStorageToDelete);
    ok := doc.Commit();
    if !ok {
      if doc.HasStarted() {
        doc.RollBack();
      }
    }
  }

  /** Reusing saved slot `|done|` for entity `e` extends the reconciled prefix by that slot. */
  lemma ReuseStep(saved: seq<Slot>, done: seq<Entity>, e: Entity, next: nat)
    requires |done| < |saved|
    ensures (Reconciled(saved, done, next) + saved[|done|..])[|done| := Slot(saved[|done|].element, e)]
         == Reconciled(saved, done + [e], next) + saved[|done| + 1..]
    ensures NextAfterWrite(saved, done + [e], next) == NextAfterWrite(saved, done, next)
  {
    ReconciledSnoc(saved, done, e, next);
  }

  /** Once the saved slots are used up, a new element for `e` extends the reconciled prefix. */
  lemma CreateStep(saved: seq<Slot>, done: seq<Entity>, e: Entity, next: nat)
    requires |done| >= |saved|
    ensures (Reconciled(saved, done, next) + saved[|saved|..]) + [Slot(NextAfterWrite(saved, done, next), e)]
         == Reconciled(saved, done + [e], next) + saved[|saved|..]
    ensures NextAfterWrite(saved, done + [e], next) == NextAfterWrite(saved, done, next) + 1
  {
    ReconciledSnoc(saved, done, e, next);
    assert saved[|saved|..] == [];
  }

  /** Updating the same key twice keeps the second value. */
  lemma UpdateTwice<K, V>(m: map<K, V>, k: K, a: V, b: V)
    ensures m[k := a][k := b] == m[k := b]
  {
  }

  /** Taking one more element of a sequence appends it. */
  lemma PrefixSnoc<T>(xs: seq<T>, k: nat)
    requires k < |xs|
    ensures xs[..k + 1] == xs[..k] + [xs[k]]
  {
  }

  /**
   * The write phase of a migration: one transaction that stores the queued configurations in
   * the slots of `schema` by position, creates the slots that are missing and deletes the saved
   * slots left over. When the commit fails the transaction is rolled back.
   */
  method WriteSetups(doc: Document, schema: SchemaId, setupsToSave: seq<Configuration>) returns (ok: bool)
    requires doc.Valid() && doc.openTransaction.None? && schema in doc.schemas
    modifies doc
    ensures doc.Valid() && doc.openTransaction.None? && doc.schemas == old(doc.schemas)
    ensures ok <==> UpdateSetupsTransaction !in doc.failing
    ensures ok ==> doc.storage == old(doc.storage)[schema :=
      Reconciled(old(doc.Slots(schema)), Encoded(schema, setupsToSave), old(doc.nextElement))]
    ensures ok ==> doc.nextElement == NextAfterWrite(old(doc.Slots(schema)), Encoded(schema, setupsToSave), old(doc.nextElement))
    ensures !ok ==> doc.storage == old(doc.storage) && doc.nextElement == old(doc.nextElement)
  {
    doc.Start(UpdateSetupsTransaction);
    var savedConfigurations := doc.Slots(schema);
    var next := doc.nextElement;
    var savedConfigurationIndex := StoreSetups(doc, schema, setupsToSave);
    DeleteSurplus(doc, schema, savedConfigurations, Encoded(schema, setupsToSave), savedConfigurationIndex, next);
    ok := doc.Commit();
    if !ok {
      if doc.HasStarted() {
        doc.RollBack();
      }
    }
  }

  /**
   * The `foreach` of the write phase: configuration k goes into saved slot k while there is
   * one, and into a new data-storage element after that. The result is the number of saved
   * slots reused.
   */
  method StoreSetups(doc: Document, schema: SchemaId, setupsToSave: seq<Configuration>)
      returns (savedConfigurationIndex: nat)
    requires doc.Valid() && doc.openTransaction.Some? && schema in doc.schemas
    modifies doc
    ensures doc.Valid() && doc.openTransaction == old(doc.openTransaction) && doc.schemas == old(doc.schemas)
    ensures doc.startStorage == old(doc.startStorage) && doc.startNextElement == old(doc.startNextElement)
    ensures savedConfigurationIndex == if |setupsToSave| < |old(doc.Slots(schema))| then |setupsToSave| else |old(doc.Slots(schema))|
    ensures doc.storage == old(doc.storage)[schema :=
      Reconciled(old(doc.Slots(schema)), Encoded(schema, setupsToSave), old(doc.nextElement))
      + old(doc.Slots(schema))[savedConfigurationIndex..]]
    ensures doc.nextElement == NextAfterWrite(old(doc.Slots(schema)), Encoded(schema, setupsToSave), old(doc.nextElement))
  {
    var savedConfigurations := doc.Slots(schema);
    var savedConfigurationCount := |savedConfigurations|;
    savedConfigurationIndex := 0;
    ghost var entities := Encoded(schema, setupsToSave);
    ghost var next := doc.nextElement;
    ghost var start := doc.storage;
    assert Reconciled(savedConfigurations, entities[..0], next) + savedConfigurations[0..] == savedConfigurations;
    assert start[schema := savedConfigurations] == start;
    var k := 0;
    while k < |setupsToSave|
      invariant 0 <= k <= |setupsToSave|
      invariant savedConfigurationIndex == if k < savedConfigurationCount then k else savedConfigurationCount
      invariant doc.Valid() && doc.openTransaction == old(doc.openTransaction) && doc.schemas == old(doc.schemas)
      invariant doc.startStorage == old(doc.startStorage) && doc.startNextElement == old(doc.startNextElement)
      invariant doc.storage == start[schema :=
        Reconciled(savedConfigurations, entities[..k], next) + savedConfigurations[savedConfigurationIndex..]]
      invariant doc.nextElement == NextAfterWrite(savedConfigurations, entities[..k], next)
    {
      var e := EntityFor(schema, setupsToSave[k]);
      PrefixSnoc(entities, k);
      ghost var current := Reconciled(savedConfigurations, entities[..k], next) + savedConfigurations[savedConfigurationIndex..];
      assert doc.Slots(schema) == current;
      ghost var before := doc.storage;
      savedConfigurationIndex := StoreSetup(doc, schema, savedConfigurationCount, savedConfigurationIndex, e,
                                            savedConfigurations, entities[..k], next);
      UpdateTwice(start, schema, current, Reconciled(savedConfigurations, entities[..k + 1], next) + savedConfigurations[savedConfigurationIndex..]);
      k := k + 1;
    }
    assert entities[..k] == entities;
  }

  /**
   * The body of that `foreach`: the next saved slot is reused while there is one, otherwise a
   * data-storage element is created, and the slot gets the entity `e`. `saved`, `done` and
   * `next` describe the slots so far: the first `|done|` entities are stored.
   */
  method StoreSetup(doc: Document, schema: SchemaId, savedConfigurationCount: nat, savedConfigurationIndex: nat,
                    e: Entity, ghost saved: seq<Slot>, ghost done: seq<Entity>, ghost next: nat)
      returns (newIndex: nat)
    requires doc.Valid() && doc.openTransaction.Some? && schema in doc.schemas
    requires savedConfigurationCount == |saved|
    requires savedConfigurationIndex == if |done| < |saved| then |done| else |saved|
    requires doc.Slots(schema) == Reconciled(saved, done, next) + saved[savedConfigurationIndex..]
    requires doc.nextElement == NextAfterWrite(saved, done, next)
    modifies doc
    ensures doc.Valid() && doc.openTransaction == old(doc.openTransaction) && doc.schemas == old(doc.schemas)
    ensures doc.startStorage == old(doc.startStorage) && doc.startNextElement == old(doc.startNextElement)
    ensures newIndex == if |done| + 1 < |saved| then |done| + 1 else |saved|
    ensures doc.storage == old(doc.storage)[schema := Reconciled(saved, done + [e], next) + saved[newIndex..]]
    ensures doc.nextElement == NextAfterWrite(saved, done + [e], next)
  {
    if savedConfigurationIndex >= savedConfigurationCount {
      CreateStep(saved, done, e, next);
      var _ := doc.CreateDataStorage(schema, e);
      newIndex := savedConfigurationIndex;
    } else {
      ReuseStep(saved, done, e, next);
      doc.SetEntity(schema, savedConfigurationIndex, e);
      newIndex := savedConfigurationIndex + 1;
    }
  }

  /**
   * The `for` loop after it: the saved slots from `surplusStart` on are collected and deleted,
   * which leaves exactly the reconciled slots.
   */
  method DeleteSurplus(doc: Document, schema: SchemaId, savedConfigurations: seq<Slot>, entities: seq<Entity>,
                       surplusStart: nat, next: nat)
    requires doc.Valid() && doc.openTransaction.Some? && IncreasingBelow(savedConfigurations, next)
    requires surplusStart == if |entities| < |savedConfigurations| then |entities| else |savedConfigurations|
    requires schema in doc.storage && doc.storage[schema] == Reconciled(savedConfigurations, entities, next) + savedConfigurations[surplusStart..]
    modifies doc
    ensures doc.Valid() && doc.openTransaction == old(doc.openTransaction) && doc.schemas == old(doc.schemas)
    ensures doc.startStorage == old(doc.startStorage) && doc.startNextElement == old(doc.startNextElement)
    ensures doc.nextElement == old(doc.nextElement)
    ensures doc.storage == old(doc.storage)[schema := Reconciled(savedConfigurations, entities, next)]
  {
    var elementsToDelete := SurplusElementIds(savedConfigurations, surplusStart);
    var reconciled := Reconciled(savedConfigurations, entities, next);
    SurplusIsDisjoint(savedConfigurations, entities, next);
    RemoveSuffix(reconciled, savedConfigurations[surplusStart..]);
    if |elementsToDelete| > 0 {
      doc.Delete(schema, elementsToDelete);
    } else {
      assert reconciled + savedConfigurations[surplusStart..] == reconciled;
    }
  }

  /** The ids of the saved slots from `surplusStart` on, collected in order. */
  method SurplusElementIds(savedConfigurations: seq<Slot>, surplusStart: nat) returns (elementsToDelete: seq<nat>)
    requires surplusStart <= |savedConfigurations|
    ensures elementsToDelete == ElementIds(savedConfigurations[surplusStart..])
  {
    var savedConfigurationCount := |savedConfigurations|;
    var savedConfigurationIndex := surplusStart;
    elementsToDelete := [];
    while savedConfigurationIndex < savedConfigurationCount
      invariant surplusStart <= savedConfigurationIndex <= savedConfigurationCount
      invariant elementsToDelete == ElementIds(savedConfigurations[surplusStart..])[..savedConfigurationIndex - surplusStart]
    {
      elementsToDelete := elementsToDelete + [savedConfigurations[savedConfigurationIndex].element];
      savedConfigurationIndex := savedConfigurationIndex + 1;
    }
  }

  /** The reconciled slots share no element with the saved slots past the entities. */
  lemma SurplusIsDisjoint(saved: seq<Slot>, entities: seq<Entity>, next: nat)
    requires IncreasingBelow(saved, next)
    ensures var r := Reconciled(saved, entities, next);
      var surplus := if |entities| < |saved| then saved[|entities|..] else [];
      forall i, j :: 0 <= i < |r| && 0 <= j < |surplus| ==> r[i].element != surplus[j].element
  {
    var r := Reconciled(saved, entities, next);
    ReconciledProperties(saved, entities, next);
    if |entities| < |saved| {
      forall i, j | 0 <= i < |r| && 0 <= j < |saved| - |entities|
        ensures r[i].element != saved[|entities|..][j].element
      {
        assert r[i] in r;
        assert saved[|entities|..][j] == saved[|entities| + j];
      }
    }
  }

  /** The registry. The in-session slot stands for the process-wide `SetInSession` cache. */
  class ConfigurationsMap {
    var configurations: seq<Configuration>
    var inSessionConfiguration: Option<Configuration>
    var jsonSchemaCached: bool
    var mapSchemaCached: bool
    var oldSchemaCached: bool

    /** The registry is keyed by name. */
    predicate Valid()
      reads this
    {
      UniqueNames(configurations)
    }

    /** A cached schema handle refers to a schema that is registered. */
    predicate CacheSound(doc: Document)
      reads this, doc
    {
      && (jsonSchemaCached ==> JsonSchema in doc.schemas)
      && (mapSchemaCached ==> MapSchema in doc.schemas)
      && (oldSchemaCached ==> OldSchema in doc.schemas)
    }

    constructor ()
      ensures Valid() && configurations == [] && inSessionConfiguration.None?
      ensures !jsonSchemaCached && !mapSchemaCached && !oldSchemaCached
    {
      configurations := [];
      inSessionConfiguration := None;
      jsonSchemaCached := false;
      mapSchemaCached := false;
      oldSchemaCached := false;
    }

    /** `HasName`: a configuration with this name is in the registry. */
    function HasName(name: string): (found: bool)
      reads this
      ensures found <==> exists c :: c in configurations && c.name == name
    {
      name in Names(configurations)
    }

    /** `AddOrReplace`: the dictionary indexer keyed by the configuration's name. */
    method AddOrReplace(c: Configuration)
      requires Valid()
      modifies this
      ensures Valid() && configurations == Upsert(old(configurations), c)
      ensures inSessionConfiguration == old(inSessionConfiguration)
      ensures jsonSchemaCached == old(jsonSchemaCached) && mapSchemaCached == old(mapSchemaCached)
      ensures oldSchemaCached == old(oldSchemaCached)
    {
      UpsertUnique(configurations, c);
      configurations := Upsert(configurations, c);
    }

    /**
     * `GetFirstIncrementalName`: the first of `nameRoot 1`, `nameRoot 2`, ... that no
     * configuration has. The root itself is never offered, even when it is free.
     */
    method GetFirstIncrementalName(nameRoot: string) returns (newName: string)
      ensures !HasName(newName)
      ensures exists n :: (1 <= n && newName == IncrementalName(nameRoot, n)
        && forall k :: 1 <= k < n ==> HasName(IncrementalName(nameRoot, k)))
    {
      var found := true;
      var number := 0;
      newName := "";
      while found
        invariant found ==> number <= |Names(configurations)|
        invariant found ==> forall k :: 1 <= k <= number ==> HasName(IncrementalName(nameRoot, k))
        invariant !found ==> (1 <= number && newName == IncrementalName(nameRoot, number) && !HasName(newName)
          && forall k :: 1 <= k < number ==> HasName(IncrementalName(nameRoot, k)))
        decreases |Names(configurations)| + 1 - number
      {
        number := number + 1;
        newName := IncrementalName(nameRoot, number);
        if !HasName(newName) {
          found := false;
        } else {
          TakenIncrementalNamesBound(nameRoot, Names(configurations), number);
        }
      }
    }

    /** `GetDuplicateSetupName`: the first free incremental name of the configuration's own name. */
    method GetDuplicateSetupName(configuration: Configuration) returns (newName: string)
      ensures !HasName(newName) && newName != configuration.name
      ensures exists n :: (1 <= n && newName == IncrementalName(configuration.name, n)
        && forall k :: 1 <= k < n ==> HasName(IncrementalName(configuration.name, k)))
    {
      newName := GetFirstIncrementalName(configuration.name);
      var n :| 1 <= n && newName == IncrementalName(configuration.name, n);
      IncrementalNameIsFresh(configuration.name, n);
    }

    /**
     * `AddConfigurationFromJson`, given what the JSON text decodes to. Nothing decoded is an
     * `InvalidData` failure and leaves the registry as it is. Otherwise the configuration is
     * renamed to a free incremental name when its name is taken, IFCBCA becomes IFC2x3CV2, and
     * it is added at the end; the result is the name it is now registered under.
     */
    method AddConfigurationFromJson(decoded: Option<Configuration>) returns (r: Result<string, ImportError>)
      requires Valid()
      modifies this
      ensures Valid()
      ensures inSessionConfiguration == old(inSessionConfiguration)
      ensures jsonSchemaCached == old(jsonSchemaCached) && mapSchemaCached == old(mapSchemaCached)
      ensures oldSchemaCached == old(oldSchemaCached)
      ensures decoded.None? ==> r == Failure(InvalidData) && configurations == old(configurations)
      ensures decoded.Some? ==> r.Success? && HasName(r.value) && r.value !in old(Names(configurations))
      ensures decoded.Some? && decoded.value.name !in old(Names(configurations)) ==> r.value == decoded.value.name
      ensures decoded.Some? && decoded.value.name in old(Names(configurations)) ==>
        exists n :: (1 <= n && r.value == IncrementalName(decoded.value.name, n)
          && forall k :: 1 <= k < n ==> IncrementalName(decoded.value.name, k) in old(Names(configurations)))
      ensures decoded.Some? ==>
        configurations == old(configurations) + [decoded.value.(name := r.value, ifcVersion := NormalizedVersion(decoded.value.ifcVersion))]
    {
      if decoded.None? {
        return Failure(InvalidData);
      }
      var configuration := decoded.value;
      if HasName(configuration.name) {
        var newName := GetFirstIncrementalName(configuration.name);
        configuration := configuration.(name := newName);
      }
      if configuration.ifcVersion == IFCBCA {
        configuration := configuration.(ifcVersion := IFC2x3CV2);
      }
      AddOrReplace(configuration);
      r := Success(configuration.name);
    }

    /**
     * The queuing loop of both migrations: configurations that are neither built in nor in
     * session are queued in iteration order; in-session ones go to the in-session slot.
     */
    method CollectSetupsToSave() returns (setupsToSave: seq<Configuration>)
      modifies this
      ensures setupsToSave == PersistableSetups(configurations)
      ensures inSessionConfiguration == InSessionAfter(configurations, old(inSessionConfiguration))
      ensures configurations == old(configurations)
      ensures jsonSchemaCached == old(jsonSchemaCached) && mapSchemaCached == old(mapSchemaCached)
      ensures oldSchemaCached == old(oldSchemaCached)
    {
      setupsToSave := [];
      for i := 0 to |configurations|
        invariant configurations == old(configurations)
        invariant jsonSchemaCached == old(jsonSchemaCached) && mapSchemaCached == old(mapSchemaCached)
        invariant oldSchemaCached == old(oldSchemaCached)
        invariant setupsToSave == PersistableSetups(configurations[..i])
        invariant inSessionConfiguration == InSessionAfter(configurations[..i], old(inSessionConfiguration))
      {
        var configuration := configurations[i];
        assert configurations[..i + 1][..i] == configurations[..i];
        if configuration.isBuiltIn {
          continue;
        }
        if configuration.isInSession {
          inSessionConfiguration := Some(configuration);
          continue;
        }
        setupsToSave := setupsToSave + [configuration];
      }
      assert configurations[..|configurations|] == configurations;
    }

    /**
     * The lookup before each phase: `schema` is looked up only when no handle is cached, and the
     * found handle is kept. The result tells whether the schema is registered.
     */
    method LookupSchema(doc: Document, schema: SchemaId) returns (present: bool)
      requires CacheSound(doc)
      modifies this
      ensures CacheSound(doc) && present == (schema in doc.schemas)
      ensures configurations == old(configurations) && inSessionConfiguration == old(inSessionConfiguration)
    {
      match schema
      case JsonSchema =>
        if !jsonSchemaCached {
          jsonSchemaCached := JsonSchema in doc.schemas;
        }
        present := jsonSchemaCached;
      case MapSchema =>
        if !mapSchemaCached {
          mapSchemaCached := MapSchema in doc.schemas;
        }
        present := mapSchemaCached;
      case OldSchema =>
        if !oldSchemaCached {
          oldSchemaCached := OldSchema in doc.schemas;
        }
        present := oldSchemaCached;
    }

    /**
     * A registered schema is looked up, or else built and registered; either way a handle is
     * cached afterwards.
     */
    method EnsureSchema(doc: Document, schema: SchemaId, present: bool)
      requires doc.Valid() && doc.openTransaction.None? && CacheSound(doc) && present == (schema in doc.schemas)
      modifies this, doc
      ensures doc.Valid() && doc.openTransaction.None? && CacheSound(doc)
      ensures doc.schemas == old(doc.schemas) + {schema}
      ensures doc.storage == old(doc.storage) && doc.nextElement == old(doc.nextElement)
      ensures configurations == old(configurations) && inSessionConfiguration == old(inSessionConfiguration)
    {
      if !present {
        doc.CreateSchema(schema);
        match schema
        case JsonSchema => jsonSchemaCached := true;
        case MapSchema => mapSchemaCached := true;
        case OldSchema => oldSchemaCached := true;
      }
    }

    /**
     * One delete phase of `ConvertSavedConfigurationsFromLegacyToJson`: when `schema` is
     * registered and has slots, they are deleted in a transaction named `transactionName`.
     * Only a failed commit reports failure, and it leaves the storage as it was.
     */
    method DeleteLegacySetups(doc: Document, schema: SchemaId, transactionName: string) returns (ok: bool)
      requires doc.Valid() && doc.openTransaction.None? && CacheSound(doc)
      modifies this, doc
      ensures doc.Valid() && doc.openTransaction.None? && CacheSound(doc)
      ensures doc.schemas == old(doc.schemas) && doc.nextElement == old(doc.nextElement)
      ensures configurations == old(configurations) && inSessionConfiguration == old(inSessionConfiguration)
      ensures ok <==> old(doc.Slots(schema)) == [] || transactionName !in doc.failing
      ensures ok ==> doc.storage == old(doc.storage)[schema := []]
      ensures !ok ==> doc.storage == old(doc.storage)
    {
      var present := LookupSchema(doc, schema);
      ok := true;
      if present {
        var oldSavedConfigurations := doc.Slots(schema);
        if |oldSavedConfigurations| > 0 {
          ok := DeleteSavedConfigurations(doc, schema, transactionName);
        }
      }
      if ok && doc.Slots(schema) == [] {
        assert doc.storage[schema := []] == doc.storage;
      }
    }

    /**
     * `ConvertSavedConfigurationsFromJsonToLegacy`: deletes the JSON-schema slots in one
     * transaction, then writes the queued configurations to the map schema in another. It
     * reports success when there is no JSON schema at all; an empty JSON schema, a failed
     * transaction, and an empty queue with no map schema report failure. A failed write does
     * not undo the committed delete.
     */
    method ConvertSavedConfigurationsFromJsonToLegacy(doc: Document) returns (result: bool)
      requires Valid() && doc.Valid() && CacheSound(doc) && doc.openTransaction.None?
      modifies this, doc
      ensures Valid() && doc.Valid() && CacheSound(doc) && doc.openTransaction.None?
      ensures configurations == old(configurations)
      ensures JsonSchema !in old(doc.schemas) ==>
        result && doc.storage == old(doc.storage) && doc.schemas == old(doc.schemas)
        && inSessionConfiguration == old(inSessionConfiguration)
      ensures (JsonSchema in old(doc.schemas) && old(doc.Slots(JsonSchema)) == []) ==>
        !result && doc.storage == old(doc.storage) && doc.schemas == old(doc.schemas)
        && inSessionConfiguration == old(inSessionConfiguration)
      ensures (JsonSchema in old(doc.schemas) && old(doc.Slots(JsonSchema)) != []
        && DeleteJsonSetupsTransaction in doc.failing) ==>
        !result && doc.storage == old(doc.storage) && doc.nextElement == old(doc.nextElement)
        && doc.schemas == old(doc.schemas) && inSessionConfiguration == old(inSessionConfiguration)
      ensures (JsonSchema in old(doc.schemas) && old(doc.Slots(JsonSchema)) != []
        && DeleteJsonSetupsTransaction !in doc.failing) ==>
        MigrationTail(old(doc.storage), old(doc.schemas), old(doc.nextElement), old(doc.storage)[JsonSchema := []],
          MapSchema, PersistableSetups(configurations), doc.failing, true,
          result, doc.storage, doc.schemas)
        && inSessionConfiguration == InSessionAfter(configurations, old(inSessionConfiguration))
    {
      var present := LookupSchema(doc, JsonSchema);
      if present {
        var oldSavedConfigurations := doc.Slots(JsonSchema);
        if |oldSavedConfigurations| > 0 {
          var deleted := DeleteSavedConfigurations(doc, JsonSchema, DeleteJsonSetupsTransaction);
          if !deleted {
            return false;
          }
        } else {
          return false;
        }
        result := SaveSetups(doc, MapSchema, true);
        return;
      }
      return true;
    }

    /**
     * The second half of both migrations: queue the persistable configurations, then, unless
     * nothing is queued and no `target` schema exists, make sure the schema exists and write the
     * queue to it. `writeWhenEmpty` tells the direction apart: the JSON-to-map direction runs
     * the write (which deletes every saved slot) even for an empty queue, the other direction
     * skips it and reports failure.
     */
    method SaveSetups(doc: Document, target: SchemaId, writeWhenEmpty: bool) returns (result: bool)
      requires Valid() && doc.Valid() && CacheSound(doc) && doc.openTransaction.None?
      modifies this, doc
      ensures Valid() && doc.Valid() && CacheSound(doc) && doc.openTransaction.None?
      ensures configurations == old(configurations)
      ensures inSessionConfiguration == InSessionAfter(configurations, old(inSessionConfiguration))
      ensures MigrationTail(old(doc.storage), old(doc.schemas), old(doc.nextElement), old(doc.storage),
        target, PersistableSetups(configurations), doc.failing, writeWhenEmpty,
        result, doc.storage, doc.schemas)
    {
      var present := LookupSchema(doc, target);
      var setupsToSave := CollectSetupsToSave();
      if |setupsToSave| <= 0 && !present {
        return false;
      }
      EnsureSchema(doc, target, present);
      if |setupsToSave| > 0 || writeWhenEmpty {
        var written := WriteSetups(doc, target, setupsToSave);
        if !written {
          return false;
        }
        return true;
      }
      return false;
    }

    /**
     * `ConvertSavedConfigurationsFromLegacyToJson`: deletes the old-schema slots and then the
     * map-schema slots, each in a transaction of its own, and writes the queued configurations
     * to the JSON schema. It reports success only when both deletes succeed, something is
     * queued and the write commits; with nothing queued it writes nothing and reports failure.
     */
    method ConvertSavedConfigurationsFromLegacyToJson(doc: Document) returns (result: bool)
      requires Valid() && doc.Valid() && CacheSound(doc) && doc.openTransaction.None?
      modifies this, doc
      ensures Valid() && doc.Valid() && CacheSound(doc) && doc.openTransaction.None?
      ensures configurations == old(configurations)
      ensures (old(doc.Slots(OldSchema)) != [] && DeleteOldSetupsTransaction in doc.failing) ==>
        !result && doc.storage == old(doc.storage) && doc.nextElement == old(doc.nextElement)
        && doc.schemas == old(doc.schemas) && inSessionConfiguration == old(inSessionConfiguration)
      ensures ((old(doc.Slots(OldSchema)) == [] || DeleteOldSetupsTransaction !in doc.failing)
        && old(doc.Slots(MapSchema)) != [] && DeleteMapSetupsTransaction in doc.failing) ==>
        !result && doc.storage == old(doc.storage)[OldSchema := []] && doc.nextElement == old(doc.nextElement)
        && doc.schemas == old(doc.schemas) && inSessionConfiguration == old(inSessionConfiguration)
      ensures ((old(doc.Slots(OldSchema)) == [] || DeleteOldSetupsTransaction !in doc.failing)
        && (old(doc.Slots(MapSchema)) == [] || DeleteMapSetupsTransaction !in doc.failing)) ==>
        MigrationTail(old(doc.storage), old(doc.schemas), old(doc.nextElement), old(doc.storage)[OldSchema := []][MapSchema := []],
          JsonSchema, PersistableSetups(configurations), doc.failing, false,
          result, doc.storage, doc.schemas)
        && inSessionConfiguration == InSessionAfter(configurations, old(inSessionConfiguration))
    {
      var deleted := DeleteLegacySetups(doc, OldSchema, DeleteOldSetupsTransaction);
      if !deleted {
        return false;
      }
      deleted := DeleteLegacySetups(doc, MapSchema, DeleteMapSetupsTransaction);
      if !deleted {
        return false;
      }
      result := SaveSetups(doc, JsonSchema, false);
    }
  }

  /**
   * The outcome of the second half of a migration, from `cleared` (the storage after the delete
   * phase, which leaves `target`'s slots as they were in `before`): with nothing queued and no
   * schema, or with nothing queued and `writeWhenEmpty` off, the result is false and nothing
   * changes; otherwise the target schema exists afterwards, the result tells whether the write
   * committed, and a committed write leaves the target's slots reconciled with the queue.
   */
  predicate MigrationTail(before: map<SchemaId, seq<Slot>>, schemas: set<SchemaId>, next: nat,
                          cleared: map<SchemaId, seq<Slot>>, target: SchemaId, setups: seq<Configuration>,
                          failing: set<string>, writeWhenEmpty: bool,
                          result: bool, after: map<SchemaId, seq<Slot>>, schemasAfter: set<SchemaId>)
  {
    var saved := if target in before then before[target] else [];
    if setups == [] && (target !in schemas || !writeWhenEmpty) then
      !result && after == cleared && schemasAfter == schemas
    else
      && schemasAfter == schemas + {target}
      && (result <==> UpdateSetupsTransaction !in failing)
      && (result ==> after == cleared[target := Reconciled(saved, Encoded(target, setups), next)])
      && (!result ==> after == cleared)
  }

  /**
   * After a migration whose write committed, the target schema holds exactly one slot per
   * queued configuration, and slot i holds the entity of queued configuration i.
   */
  lemma CommittedWriteHoldsQueue(before: map<SchemaId, seq<Slot>>, schemas: set<SchemaId>, next: nat,
                                 cleared: map<SchemaId, seq<Slot>>, target: SchemaId, setups: seq<Configuration>,
                                 failing: set<string>, writeWhenEmpty: bool,
                                 after: map<SchemaId, seq<Slot>>, schemasAfter: set<SchemaId>)
    requires MigrationTail(before, schemas, next, cleared, target, setups, failing, writeWhenEmpty, true, after, schemasAfter)
    ensures UpdateSetupsTransaction !in failing && target in schemasAfter
    ensures target in after && |after[target]| == |setups|
    ensures forall i :: 0 <= i < |setups| ==> after[target][i].entity == EntityFor(target, setups[i])
  {
    var saved := if target in before then before[target] else [];
    var r := Reconciled(saved, Encoded(target, setups), next);
    forall i | 0 <= i < |setups|
      ensures r[i].entity == EntityFor(target, setups[i])
    {
    }
  }

  /** A migration whose write fails keeps the storage the delete phase left. */
  lemma FailedWriteKeepsDeletePhase(before: map<SchemaId, seq<Slot>>, schemas: set<SchemaId>, next: nat,
                                    cleared: map<SchemaId, seq<Slot>>, target: SchemaId, setups: seq<Configuration>,
                                    failing: set<string>, writeWhenEmpty: bool,
                                    after: map<SchemaId, seq<Slot>>, schemasAfter: set<SchemaId>)
    requires MigrationTail(before, schemas, next, cleared, target, setups, failing, writeWhenEmpty, false, after, schemasAfter)
    ensures after == cleared
    ensures setups != [] ==> UpdateSetupsTransaction in failing
  {
  }

  /**
   * In the map-to-JSON direction (`writeWhenEmpty` off) an empty queue never reports success;
   * in the JSON-to-map direction an empty queue with a map schema present deletes every
   * map-schema slot when the write commits.
   */
  lemma EmptyQueueOutcomes(before: map<SchemaId, seq<Slot>>, schemas: set<SchemaId>, next: nat,
                           cleared: map<SchemaId, seq<Slot>>, target: SchemaId, failing: set<string>,
                           writeWhenEmpty: bool, result: bool,
                           after: map<SchemaId, seq<Slot>>, schemasAfter: set<SchemaId>)
    requires MigrationTail(before, schemas, next, cleared, target, [], failing, writeWhenEmpty, result, after, schemasAfter)
    ensures !writeWhenEmpty ==> !result && after == cleared
    ensures writeWhenEmpty && target in schemas && result ==> target in after && after[target] == []
  {
  }
}
