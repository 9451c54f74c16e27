/**
 * The document's extensible storage as the migrations see it: the schemas registered in the
 * application, the data-storage elements holding each schema's entities in element-id order,
 * and transactions whose commit can fail. A transaction that fails is rolled back, which puts
 * the slots and the element counter back as they were when it started.
 */
module PersistedStore {
  import opened Wrappers
  import opened IfcExportConfiguration

  /** The three generations of the persisted configuration schema. */
  datatype SchemaId = OldSchema | MapSchema | JsonSchema

  const AllSchemas: set<SchemaId> := {OldSchema, MapSchema, JsonSchema}

  /**
   * The entity a data-storage element carries for a schema: the map-schema dictionary, the
   * JSON-schema text (kept as the configuration it serializes), or an entity of the oldest
   * schema, whose contents the migrations never read.
   */
  datatype Entity =
    | MapEntity(fields: map<MapKey, string>)
    | JsonEntity(config: Configuration)
    | OldEntity

  /** A data-storage element (its element id) with the entity it carries. */
  datatype Slot = Slot(element: nat, entity: Entity)

  /**
   * What the write phase stores for `c` under `schema`: the map-schema dictionary, which carries
   * the configuration's name, or the JSON entity of the configuration itself.
   */
  function EntityFor(schema: SchemaId, c: Configuration): (e: Entity)
    ensures e.MapEntity? <==> schema == MapSchema
    ensures e.JsonEntity? <==> schema == JsonSchema
    ensures e.MapEntity? ==> SetupName in e.fields && e.fields[SetupName] == c.name
    ensures e.JsonEntity? ==> e.config == c
  {
    match schema
    case MapSchema => MapEntity(MapEncode(c))
    case JsonSchema => JsonEntity(c)
    case OldSchema => OldEntity
  }

  /** The entities the write phase stores for the queued configurations, in queue order. */
  function Encoded(schema: SchemaId, setups: seq<Configuration>): (r: seq<Entity>)
    ensures |r| == |setups|
    ensures forall i :: 0 <= i < |setups| ==> r[i] == EntityFor(schema, setups[i])
  {
    seq(|setups|, i requires 0 <= i < |setups| => EntityFor(schema, setups[i]))
  }

  /** The element ids of a list of slots, in order. */
  function ElementIds(xs: seq<Slot>): (r: seq<nat>)
    ensures |r| == |xs|
    ensures forall i :: 0 <= i < |xs| ==> r[i] == xs[i].element
  {
    seq(|xs|, i requires 0 <= i < |xs| => xs[i].element)
  }

  /** Element ids strictly increase along `xs`. */
  predicate Increasing(xs: seq<Slot>)
  {
    forall i, j :: 0 <= i < j < |xs| ==> xs[i].element < xs[j].element
  }

  /** Every element id in `xs` is below `bound`. */
  predicate Below(xs: seq<Slot>, bound: nat)
  {
    forall s :: s in xs ==> s.element < bound
  }

  predicate IncreasingBelow(xs: seq<Slot>, bound: nat)
  {
    Increasing(xs) && Below(xs, bound)
  }

  /**
   * A storage state: every schema has a slot list whose ids increase below `bound`, and a schema
   * that is not registered has no slots.
   */
  predicate StoreValid(st: map<SchemaId, seq<Slot>>, schemas: set<SchemaId>, bound: nat)
  {
    && OldSchema in st && MapSchema in st && JsonSchema in st
    && IncreasingBelow(st[OldSchema], bound)
    && IncreasingBelow(st[MapSchema], bound)
    && IncreasingBelow(st[JsonSchema], bound)
    && (OldSchema !in schemas ==> st[OldSchema] == [])
    && (MapSchema !in schemas ==> st[MapSchema] == [])
    && (JsonSchema !in schemas ==> st[JsonSchema] == [])
  }

  /** `document.Delete(ids)` on one schema's slots: the slots whose element is in `ids` go. */
  function Remove(xs: seq<Slot>, ids: seq<nat>): (r: seq<Slot>)
    ensures |r| <= |xs|
    ensures forall s :: s in r <==> s in xs && s.element !in ids
  {
    if xs == [] then []
    else if xs[0].element in ids then Remove(xs[1..], ids)
    else [xs[0]] + Remove(xs[1..], ids)
  }

  /** Deleting ids that cover every slot leaves none. */
  lemma {:induction false} RemoveCovered(xs: seq<Slot>, ids: seq<nat>)
    requires forall i :: 0 <= i < |xs| ==> xs[i].element in ids
    ensures Remove(xs, ids) == []
  {
    if xs != [] {
      RemoveCovered(xs[1..], ids);
    }
  }

  /** Deleting every element of a list of slots leaves none of them. */
  lemma RemoveAll(xs: seq<Slot>)
    ensures Remove(xs, ElementIds(xs)) == []
  {
    RemoveCovered(xs, ElementIds(xs));
  }

  /** Removing ids that occur in no slot leaves the slots as they are. */
  lemma {:induction false} RemoveNone(xs: seq<Slot>, ids: seq<nat>)
    requires forall i :: 0 <= i < |xs| ==> xs[i].element !in ids
    ensures Remove(xs, ids) == xs
  {
    if xs != [] {
      RemoveNone(xs[1..], ids);
    }
  }

  /** Removing exactly the ids of a suffix leaves the prefix, when the suffix's ids are new to it. */
  lemma {:induction false} RemoveSuffix(xs: seq<Slot>, ys: seq<Slot>)
    requires forall i, j :: 0 <= i < |xs| && 0 <= j < |ys| ==> xs[i].element != ys[j].element
    ensures Remove(xs + ys, ElementIds(ys)) == xs
  {
    if xs == [] {
      assert xs + ys == ys;
      RemoveAll(ys);
    } else {
      assert (xs + ys)[0] == xs[0];
      assert (xs + ys)[1..] == xs[1..] + ys;
      assert xs[0].element !in ElementIds(ys);
      RemoveSuffix(xs[1..], ys);
    }
  }

  /**
   * The slots of the write phase, reconciled by position with the `saved` slots: slot i reuses
   * saved slot i while there is one and is a new element numbered from `next` after that, and
   * carries the i-th entity. Saved slots beyond the entities are gone.
   */
  function Reconciled(saved: seq<Slot>, entities: seq<Entity>, next: nat): (r: seq<Slot>)
    ensures |r| == |entities|
  {
    seq(|entities|, i requires 0 <= i < |entities| =>
      Slot(if i < |saved| then saved[i].element else next + (i - |saved|), entities[i]))
  }

  /** The element counter after the write phase: one new element per entity beyond the saved slots. */
  function NextAfterWrite(saved: seq<Slot>, entities: seq<Entity>, next: nat): nat
  {
    if |entities| <= |saved| then next else next + (|entities| - |saved|)
  }

  /**
   * After reconciling, slot i holds entity i; the saved slots that are reused keep their
   * element ids; the saved slots beyond the entities are no longer present; and the ids still
   * increase below the new counter.
   */
  lemma ReconciledProperties(saved: seq<Slot>, entities: seq<Entity>, next: nat)
    requires IncreasingBelow(saved, next)
    ensures forall i :: 0 <= i < |entities| ==> Reconciled(saved, entities, next)[i].entity == entities[i]
    ensures forall i :: 0 <= i < |entities| && i < |saved| ==>
      Reconciled(saved, entities, next)[i].element == saved[i].element
    ensures forall j :: |entities| <= j < |saved| ==>
      forall s :: s in Reconciled(saved, entities, next) ==> s.element != saved[j].element
    ensures IncreasingBelow(Reconciled(saved, entities, next), NextAfterWrite(saved, entities, next))
  {
    var r := Reconciled(saved, entities, next);
    forall j, s | |entities| <= j < |saved| && s in r
      ensures s.element != saved[j].element
    {
      var i :| 0 <= i < |r| && r[i] == s;
      assert i < j;
    }
  }

  /** Reconciling one more entity appends one slot: reused while saved slots remain, new after that. */
  lemma ReconciledSnoc(saved: seq<Slot>, entities: seq<Entity>, e: Entity, next: nat)
    ensures Reconciled(saved, entities + [e], next)
         == Reconciled(saved, entities, next)
          + [Slot(if |entities| < |saved| then saved[|entities|].element else next + (|entities| - |saved|), e)]
  {
  }

  /**
   * The document and its extensible storage. `schemas` and `storage` change only through the
   * methods below; storage changes need an open transaction, and `failing` names the
   * transactions whose commit fails.
   */
  class Document {
    var schemas: set<SchemaId>
    var storage: map<SchemaId, seq<Slot>>
    var nextElement: nat
    const failing: set<string>
    var openTransaction: Option<string>
    var startStorage: map<SchemaId, seq<Slot>>
    var startNextElement: nat

    /** The slots carrying an entity of `schema`, in element-id order (`GetSavedConfigurations`). */
    function Slots(schema: SchemaId): seq<Slot>
      reads this
    {
      if schema in storage then storage[schema] else []
    }

    predicate Valid()
      reads this
    {
      && StoreValid(storage, schemas, nextElement)
      && (openTransaction.Some? ==> StoreValid(startStorage, schemas, startNextElement))
    }

    constructor (schemas: set<SchemaId>, failing: set<string>)
      ensures Valid() && this.schemas == schemas && this.failing == failing
      ensures openTransaction.None? && forall s :: s in AllSchemas ==> Slots(s) == []
    {
      this.schemas := schemas;
      this.failing := failing;
      storage := map[OldSchema := [], MapSchema := [], JsonSchema := []];
      nextElement := 0;
      openTransaction := None;
      startStorage := map[];
      startNextElement := 0;
    }

    /** `Transaction.Start`: opens the transaction named `name`. */
    method Start(name: string)
      requires Valid() && openTransaction.None?
      modifies this
      ensures Valid() && openTransaction == Some(name)
      ensures schemas == old(schemas) && storage == old(storage) && nextElement == old(nextElement)
      ensures startStorage == storage && startNextElement == nextElement
    {
      openTransaction := Some(name);
      startStorage := storage;
      startNextElement := nextElement;
    }

    /** `Transaction.HasStarted`: a started transaction has a snapshot to roll back to. */
    function HasStarted(): (started: bool)
      reads this
      ensures started && Valid() ==> StoreValid(startStorage, schemas, startNextElement)
    {
      openTransaction.Some?
    }

    /**
     * `Transaction.Commit`: closes the transaction and keeps its changes, or fails (the source's
     * exception) when the transaction is one of `failing`, leaving it open.
     */
    method Commit() returns (ok: bool)
      requires Valid() && openTransaction.Some?
      modifies this
      ensures Valid() && schemas == old(schemas) && storage == old(storage) && nextElement == old(nextElement)
      ensures ok <==> old(openTransaction).value !in failing
      ensures ok ==> openTransaction.None?
      ensures !ok ==> openTransaction == old(openTransaction)
      ensures startStorage == old(startStorage) && startNextElement == old(startNextElement)
    {
      ok := openTransaction.value !in failing;
      if ok {
        openTransaction := None;
      }
    }

    /** `Transaction.RollBack`: closes the transaction and undoes its changes to the storage. */
    method RollBack()
      requires Valid() && openTransaction.Some?
      modifies this
      ensures Valid() && openTransaction.None? && schemas == old(schemas)
      ensures storage == old(startStorage) && nextElement == old(startNextElement)
    {
      storage := startStorage;
      nextElement := startNextElement;
      openTransaction := None;
    }

    /** `SchemaBuilder.Finish`: registers `schema` in the application; not part of any transaction. */
    method CreateSchema(schema: SchemaId)
      requires Valid() && openTransaction.None?
      modifies this
      ensures Valid() && openTransaction.None?
      ensures schemas == old(schemas) + {schema} && storage == old(storage) && nextElement == old(nextElement)
    {
      schemas := schemas + {schema};
    }

    /** `DataStorage.SetEntity` on the i-th slot of `schema`. */
    method SetEntity(schema: SchemaId, i: nat, e: Entity)
      requires Valid() && openTransaction.Some? && i < |Slots(schema)|
      modifies this
      ensures Valid() && openTransaction == old(openTransaction) && schemas == old(schemas)
      ensures storage == old(storage)[schema := old(Slots(schema))[i := Slot(old(Slots(schema))[i].element, e)]]
      ensures nextElement == old(nextElement)
      ensures startStorage == old(startStorage) && startNextElement == old(startNextElement)
    {
      SetEntityKeepsIncreasing(storage[schema], i, e, nextElement);
      StoreUpdate(storage, schemas, nextElement, nextElement, schema, storage[schema][i := Slot(storage[schema][i].element, e)]);
      storage := storage[schema := storage[schema][i := Slot(storage[schema][i].element, e)]];
    }

    /** `DataStorage.Create` followed by `SetEntity`: a new element at the end of `schema`'s slots. */
    method CreateDataStorage(schema: SchemaId, e: Entity) returns (element: nat)
      requires Valid() && openTransaction.Some? && schema in schemas
      modifies this
      ensures Valid() && openTransaction == old(openTransaction) && schemas == old(schemas)
      ensures element == old(nextElement) && nextElement == old(nextElement) + 1
      ensures storage == old(storage)[schema := old(Slots(schema)) + [Slot(element, e)]]
      ensures startStorage == old(startStorage) && startNextElement == old(startNextElement)
    {
      element := nextElement;
      AppendKeepsIncreasing(storage[schema], e, nextElement);
      StoreUpdate(storage, schemas, nextElement, nextElement + 1, schema, storage[schema] + [Slot(element, e)]);
      storage := storage[schema := storage[schema] + [Slot(element, e)]];
      nextElement := nextElement + 1;
    }

    /** `Document.Delete(ids)` applied to the slots of `schema`. */
    method Delete(schema: SchemaId, ids: seq<nat>)
      requires Valid() && openTransaction.Some?
      modifies this
      ensures Valid() && openTransaction == old(openTransaction) && schemas == old(schemas)
      ensures storage == old(storage)[schema := Remove(old(Slots(schema)), ids)]
      ensures nextElement == old(nextElement)
      ensures startStorage == old(startStorage) && startNextElement == old(startNextElement)
    {
      RemoveKeepsIncreasing(storage[schema], ids, nextElement);
      if schema !in schemas {
        assert Remove(storage[schema], ids) == [];
      }
      StoreUpdate(storage, schemas, nextElement, nextElement, schema, Remove(storage[schema], ids));
      storage := storage[schema := Remove(storage[schema], ids)];
    }
  }

  /** Replacing one schema's slots by a valid list keeps the storage valid under a larger bound. */
  lemma StoreUpdate(st: map<SchemaId, seq<Slot>>, schemas: set<SchemaId>, bound: nat, bound': nat,
                    schema: SchemaId, xs: seq<Slot>)
    requires StoreValid(st, schemas, bound) && bound <= bound'
    requires IncreasingBelow(xs, bound') && (schema in schemas || xs == [])
    ensures StoreValid(st[schema := xs], schemas, bound')
  {
    assert Below(st[OldSchema], bound') && Below(st[MapSchema], bound') && Below(st[JsonSchema], bound');
  }

  /** Giving one slot a new entity keeps the ids as they were. */
  lemma SetEntityKeepsIncreasing(xs: seq<Slot>, i: nat, e: Entity, bound: nat)
    requires IncreasingBelow(xs, bound) && i < |xs|
    ensures IncreasingBelow(xs[i := Slot(xs[i].element, e)], bound)
  {
    var ys := xs[i := Slot(xs[i].element, e)];
    forall s | s in ys
      ensures s.element < bound
    {
      var k :| 0 <= k < |ys| && ys[k] == s;
      assert xs[k] in xs;
    }
  }

  /** A new element numbered `bound` can go at the end. */
  lemma AppendKeepsIncreasing(xs: seq<Slot>, e: Entity, bound: nat)
    requires IncreasingBelow(xs, bound)
    ensures IncreasingBelow(xs + [Slot(bound, e)], bound + 1)
  {
    var ys := xs + [Slot(bound, e)];
    forall i, j | 0 <= i < j < |ys|
      ensures ys[i].element < ys[j].element
    {
      assert ys[i] == xs[i] && xs[i] in xs;
    }
  }

  /** Removing slots keeps the ids increasing below the same bound. */
  lemma RemoveKeepsIncreasing(xs: seq<Slot>, ids: seq<nat>, bound: nat)
    requires IncreasingBelow(xs, bound)
    ensures IncreasingBelow(Remove(xs, ids), bound)
  {
    RemoveKeepsOrder(xs, ids);
  }

  /** Removing slots keeps the remaining ids in increasing order. */
  lemma {:induction false} RemoveKeepsOrder(xs: seq<Slot>, ids: seq<nat>)
    requires Increasing(xs)
    ensures Increasing(Remove(xs, ids))
  {
    if xs != [] {
      assert Increasing(xs[1..]);
      RemoveKeepsOrder(xs[1..], ids);
      if xs[0].element !in ids {
        var rest := Remove(xs[1..], ids);
        forall k | 0 <= k < |rest|
          ensures xs[0].element < rest[k].element
        {
          assert rest[k] in xs[1..];
        }
        ConsIncreasing(xs[0], rest);
      }
    }
  }

  /** A slot whose id is below every id of an increasing list can go in front of it. */
  lemma ConsIncreasing(s: Slot, rest: seq<Slot>)
    requires Increasing(rest)
    requires forall k :: 0 <= k < |rest| ==> s.element < rest[k].element
    ensures Increasing([s] + rest)
  {
    var r := [s] + rest;
    forall i, j | 0 <= i < j < |r|
      ensures r[i].element < r[j].element
    {
      assert r[j] == rest[j - 1];
      if i > 0 {
        assert r[i] == rest[i - 1];
      }
    }
  }
}
