/**
 * Record-level bookkeeping of the offline model store
 * (src/main/storage/idb/IdbModelStore.ts), over in-memory maps standing for
 * its five object stores: model creation records, model metadata documents,
 * model data, local (unacknowledged) operations and server operations.
 *
 * A metadata flag is a numeric field that is either 1 or absent (`delete`d);
 * code that tests a flag with `!flag` uses JavaScript truthiness, code that
 * converts a document uses `=== 1`. Both are kept apart here.
 */
module Storage {
  import opened Wrappers
  import opened Values

  type Flag = Option<int>

  /** JavaScript truthiness of a numeric flag field. */
  predicate IsSet(f: Flag)
  {
    f.Some? && f.value != 0
  }

  datatype ModelPermissions = ModelPermissions(read: bool, write: bool, remove: bool, manage: bool)

  datatype ModelDetails = ModelDetails(
    collection: string, createdTime: int, modifiedTime: int, permissions: ModelPermissions,
    seqNo: int, version: int, dataVersion: int)

  /** The stored metadata document of one model. */
  datatype ModelMetaDataDocument = ModelMetaDataDocument(
    modelId: string, available: Flag, created: Flag, dirty: Flag, subscribed: Flag, deleted: Flag,
    details: Option<ModelDetails>)

  /** The metadata handed to callers, with the flags as booleans. */
  datatype ModelMetaData = ModelMetaData(
    modelId: string, subscribed: bool, available: bool, deleted: bool, created: bool, dirty: bool,
    details: Option<ModelDetails>)

  datatype ModelSnapshot = ModelSnapshot(
    modelId: string, collection: string, local: bool, dirty: bool, subscribed: bool,
    dataVersion: int, seqNo: int, createdTime: int, modifiedTime: int, permissions: ModelPermissions,
    data: DataValue)

  datatype ModelData = ModelData(modelId: string, data: DataValue)

  datatype DataAndMetaData = DataAndMetaData(data: ModelData, meta: ModelMetaDataDocument)

  datatype ModelCreationData = ModelCreationData(modelId: string, collection: string, initialData: DataValue)

  /** A local operation not yet acknowledged, stored under the key (modelId, sequenceNumber). */
  datatype LocalOperationData = LocalOperationData(modelId: string, sessionId: string, sequenceNumber: int)

  datatype ServerOperationData = ServerOperationData(modelId: string, sessionId: string, version: int, timestamp: int)

  type LocalOpKey = (string, int)

  const NO_METADATA_ERROR := "TypeError: no metadata document for the model"
  const NO_DETAILS_ERROR := "TypeError: the metadata document has no details"
  const DUPLICATE_KEY_ERROR := "ConstraintError: the key already exists in the object store"

  // ---------------------------------------------------------------------------
  // Pure conversions
  // ---------------------------------------------------------------------------

  /**
   * The data record and metadata document stored for a snapshot at `version`:
   * available, with the created, dirty and subscribed flags set exactly when
   * the snapshot is local, dirty and subscribed.
   */
  function SnapshotToDataAndMetaData(version: int, snapshot: ModelSnapshot): (r: DataAndMetaData)
    ensures r.data == ModelData(snapshot.modelId, snapshot.data) && r.meta.modelId == snapshot.modelId
    ensures r.meta.available == Some(1) && r.meta.deleted.None?
    ensures r.meta.created == (if snapshot.local then Some(1) else None)
    ensures r.meta.dirty == (if snapshot.dirty then Some(1) else None)
    ensures r.meta.subscribed == (if snapshot.subscribed then Some(1) else None)
    ensures r.meta.details == Some(ModelDetails(
              snapshot.collection, snapshot.createdTime, snapshot.modifiedTime, snapshot.permissions,
              snapshot.seqNo, version, snapshot.dataVersion))
  {
    var details := ModelDetails(
      snapshot.collection, snapshot.createdTime, snapshot.modifiedTime, snapshot.permissions,
      snapshot.seqNo, version, snapshot.dataVersion);
    var meta := ModelMetaDataDocument(snapshot.modelId, Some(1), None, None, None, None, Some(details));
    var meta := if snapshot.local then meta.(created := Some(1)) else meta;
    var meta := if snapshot.dirty then meta.(dirty := Some(1)) else meta;
    var meta := if snapshot.subscribed then meta.(subscribed := Some(1)) else meta;
    DataAndMetaData(ModelData(snapshot.modelId, snapshot.data), meta)
  }

  /** A flag reads as true exactly when it holds the number 1. */
  function MetaDataDocToMetaData(doc: ModelMetaDataDocument): (m: ModelMetaData)
    ensures m.modelId == doc.modelId && m.details == doc.details
    ensures m.subscribed <==> doc.subscribed == Some(1)
    ensures m.available <==> doc.available == Some(1)
    ensures m.deleted <==> doc.deleted == Some(1)
    ensures m.created <==> doc.created == Some(1)
    ensures m.dirty <==> doc.dirty == Some(1)
  {
    ModelMetaData(
      doc.modelId, doc.subscribed == Some(1), doc.available == Some(1), doc.deleted == Some(1),
      doc.created == Some(1), doc.dirty == Some(1), doc.details)
  }

  /** Storing a snapshot and reading its metadata back gives the snapshot's flags, available and not deleted. */
  lemma SnapshotMetaDataRoundTrip(version: int, snapshot: ModelSnapshot)
    ensures var m := MetaDataDocToMetaData(SnapshotToDataAndMetaData(version, snapshot).meta);
      && m.modelId == snapshot.modelId
      && m.created == snapshot.local && m.dirty == snapshot.dirty && m.subscribed == snapshot.subscribed
      && m.available && !m.deleted
      && m.details.Some? && m.details.value.version == version
  {
  }

  // ---------------------------------------------------------------------------
  // Record-level helpers
  // ---------------------------------------------------------------------------

  function LocalOpsWithout(ops: map<LocalOpKey, LocalOperationData>, ids: set<string>): map<LocalOpKey, LocalOperationData>
  {
    map k | k in ops && k.0 !in ids :: ops[k]
  }

  function ServerOpsWithout(ops: set<ServerOperationData>, ids: set<string>): set<ServerOperationData>
  {
    set o | o in ops && o.modelId !in ids
  }

  predicate HasLocalOps(ops: map<LocalOpKey, LocalOperationData>, modelId: string)
  {
    exists k :: k in ops && k.0 == modelId
  }

  /** The models whose metadata carries a `subscribed` field (the records the subscribed index lists). */
  function SubscribedIds(meta: map<string, ModelMetaDataDocument>): set<string>
  {
    set id | id in meta && meta[id].subscribed.Some?
  }

  predicate Distinct(xs: seq<string>)
  {
    forall i, j :: 0 <= i < j < |xs| ==> xs[i] != xs[j]
  }

  /** `xs.filter(id => !excluded.includes(id))`, order kept. */
  function FilterOut(xs: seq<string>, excluded: set<string>): (r: seq<string>)
    ensures forall x :: x in r <==> x in xs && x !in excluded
    ensures Distinct(xs) ==> Distinct(r)
  {
    if xs == [] then []
    else
      var rest := FilterOut(xs[1..], excluded);
      assert forall x :: x in rest ==> x in xs[1..];
      if xs[0] in excluded then rest else [xs[0]] + rest
  }

  /** The ids among `ids` whose model a subscription removal deletes: neither created nor dirty. */
  function ToDelete(meta: map<string, ModelMetaDataDocument>, ids: seq<string>): set<string>
  {
    set id | id in ids && id in meta && !IsSet(meta[id].created) && !IsSet(meta[id].dirty)
  }

  /** Removal succeeds when each id still has metadata when its turn comes. */
  predicate RemoveSucceeds(meta: map<string, ModelMetaDataDocument>, ids: seq<string>)
  {
    forall j :: 0 <= j < |ids| ==> ids[j] in meta && ids[j] !in ToDelete(meta, ids[..j])
  }

  /** Metadata after removing the subscriptions of `ids`: unsubscribed, or deleted with the model. */
  function MetaAfterRemove(meta: map<string, ModelMetaDataDocument>, ids: seq<string>): map<string, ModelMetaDataDocument>
  {
    map id | id in meta && id !in ToDelete(meta, ids) ::
      if id in ids then meta[id].(subscribed := None) else meta[id]
  }

  function NewSubscribedDoc(modelId: string): ModelMetaDataDocument
  {
    ModelMetaDataDocument(modelId, None, None, None, Some(1), None, None)
  }

  /** Metadata after adding the subscriptions of `ids`: flagged, or a new document holding only the flag. */
  function MetaAfterAdd(meta: map<string, ModelMetaDataDocument>, ids: seq<string>): map<string, ModelMetaDataDocument>
  {
    map id | id in meta.Keys + (set x | x in ids) ::
      if id in meta then (if id in ids then meta[id].(subscribed := Some(1)) else meta[id])
      else NewSubscribedDoc(id)
  }

  /** Which models one more removal deletes. */
  lemma ToDeleteStep(meta: map<string, ModelMetaDataDocument>, prefix: seq<string>, id: string)
    ensures ToDelete(meta, prefix + [id]) ==
      ToDelete(meta, prefix) + (if id in meta && !IsSet(meta[id].created) && !IsSet(meta[id].dirty) then {id} else {})
  {
    assert forall x :: x in prefix + [id] <==> x in prefix || x == id;
  }

  /** One more removal either deletes the model or clears its subscription. */
  lemma MetaAfterRemoveStep(meta: map<string, ModelMetaDataDocument>, prefix: seq<string>, id: string)
    requires id in MetaAfterRemove(meta, prefix)
    ensures var before := MetaAfterRemove(meta, prefix);
      MetaAfterRemove(meta, prefix + [id]) ==
        if !IsSet(before[id].created) && !IsSet(before[id].dirty) then before - {id}
        else before[id := before[id].(subscribed := None)]
  {
    assert forall x :: x in prefix + [id] <==> x in prefix || x == id;
    ToDeleteStep(meta, prefix, id);
  }

  /** Removal can go on past an id that still has metadata. */
  lemma RemoveSucceedsStep(meta: map<string, ModelMetaDataDocument>, prefix: seq<string>, id: string)
    requires RemoveSucceeds(meta, prefix)
    requires id in MetaAfterRemove(meta, prefix)
    ensures RemoveSucceeds(meta, prefix + [id])
  {
    var ids := prefix + [id];
    forall j | 0 <= j < |ids| ensures ids[j] in meta && ids[j] !in ToDelete(meta, ids[..j]) {
      if j < |prefix| {
        assert ids[..j] == prefix[..j];
      } else {
        assert ids[..j] == prefix;
      }
    }
  }

  /** Removal fails as a whole once an id has no metadata at its turn. */
  lemma RemoveFailsAt(meta: map<string, ModelMetaDataDocument>, ids: seq<string>, i: nat)
    requires i < |ids|
    requires ids[i] !in MetaAfterRemove(meta, ids[..i])
    ensures !RemoveSucceeds(meta, ids)
  {
  }

  /** One more addition flags the model, or gives it a bare subscribed document. */
  lemma MetaAfterAddStep(meta: map<string, ModelMetaDataDocument>, prefix: seq<string>, id: string)
    ensures var before := MetaAfterAdd(meta, prefix);
      MetaAfterAdd(meta, prefix + [id]) ==
        before[id := if id in before then before[id].(subscribed := Some(1)) else NewSubscribedDoc(id)]
  {
    assert forall x :: x in prefix + [id] <==> x in prefix || x == id;
  }

  /** The contents of the five object stores. */
  datatype Stores = Stores(
    creation: map<string, ModelCreationData>,
    metaData: map<string, ModelMetaDataDocument>,
    modelData: map<string, ModelData>,
    localOps: map<LocalOpKey, LocalOperationData>,
    serverOps: set<ServerOperationData>)

  /** Every record of the models in `gone` removed from every store. */
  function WithoutModels(st: Stores, gone: set<string>): Stores
  {
    Stores(st.creation - gone, st.metaData - gone, st.modelData - gone,
      LocalOpsWithout(st.localOps, gone), ServerOpsWithout(st.serverOps, gone))
  }

  /** The stores after removing the subscriptions of `ids` in turn. */
  function StoresAfterRemove(st: Stores, ids: seq<string>): Stores
  {
    WithoutModels(st, ToDelete(st.metaData, ids)).(metaData := MetaAfterRemove(st.metaData, ids))
  }

  /** One turn of the removal, for a model that has metadata. */
  function RemoveOne(st: Stores, id: string): Stores
    requires id in st.metaData
  {
    var doc := st.metaData[id];
    if !IsSet(doc.created) && !IsSet(doc.dirty) then WithoutModels(st, {id})
    else st.(metaData := st.metaData[id := doc.(subscribed := None)])
  }

  /** Removing the subscriptions of `prefix` and then of `id` is one more turn of the removal. */
  lemma StoresAfterRemoveStep(st: Stores, prefix: seq<string>, id: string)
    requires id in MetaAfterRemove(st.metaData, prefix)
    ensures StoresAfterRemove(st, prefix + [id]) == RemoveOne(StoresAfterRemove(st, prefix), id)
  {
    var gone := ToDelete(st.metaData, prefix);
    MetaAfterRemoveStep(st.metaData, prefix, id);
    ToDeleteStep(st.metaData, prefix, id);
    assert LocalOpsWithout(LocalOpsWithout(st.localOps, gone), {id}) == LocalOpsWithout(st.localOps, gone + {id});
    assert ServerOpsWithout(ServerOpsWithout(st.serverOps, gone), {id}) == ServerOpsWithout(st.serverOps, gone + {id});
  }

  /** Distinct ids that all have metadata can be removed one after another. */
  lemma {:induction false} DistinctRemovalSucceeds(meta: map<string, ModelMetaDataDocument>, ids: seq<string>)
    requires Distinct(ids)
    requires forall x :: x in ids ==> x in meta
    ensures RemoveSucceeds(meta, ids)
  {
    forall j | 0 <= j < |ids| ensures ids[j] in meta && ids[j] !in ToDelete(meta, ids[..j]) {
      assert ids[j] in ids;
      assert forall i :: 0 <= i < j ==> ids[..j][i] == ids[i] != ids[j];
      assert ids[j] !in ids[..j];
    }
  }

  /** Removing `toRemove` and then adding `toAdd` leaves exactly `requested` subscribed. */
  lemma {:induction false} SubscriptionsBecomeRequested(
    meta: map<string, ModelMetaDataDocument>, requested: seq<string>, toRemove: seq<string>, toAdd: seq<string>)
    requires forall x :: x in toRemove <==> x in SubscribedIds(meta) && x !in requested
    requires forall x :: x in toAdd <==> x in requested && x !in SubscribedIds(meta)
    ensures SubscribedIds(MetaAfterAdd(MetaAfterRemove(meta, toRemove), toAdd)) == set x | x in requested
  {
    var mid := MetaAfterRemove(meta, toRemove);
    var fin := MetaAfterAdd(mid, toAdd);
    assert SubscribedIds(mid) == SubscribedIds(meta) - (set x | x in toRemove) by {
      forall id | id in SubscribedIds(mid) ensures id in SubscribedIds(meta) && id !in toRemove {
        assert id in mid && mid[id].subscribed.Some?;
      }
      forall id | id in SubscribedIds(meta) && id !in toRemove ensures id in SubscribedIds(mid) {
        assert id !in ToDelete(meta, toRemove);
      }
    }
    forall id | id in SubscribedIds(fin) ensures id in requested {
      if id !in toAdd {
        assert id in mid && fin[id] == mid[id];
      }
    }
    forall id | id in requested ensures id in SubscribedIds(fin) {
      if id in SubscribedIds(meta) {
        assert id !in toRemove;
        assert id in SubscribedIds(mid);
        assert id in fin;
      } else {
        assert id in toAdd;
        assert id in fin;
      }
    }
  }

  /** Everything the five stores hold for one model. */
  datatype ModelRecords = ModelRecords(
    creation: Option<ModelCreationData>,
    meta: Option<ModelMetaDataDocument>,
    data: Option<ModelData>,
    localOps: map<LocalOpKey, LocalOperationData>,
    serverOps: set<ServerOperationData>)

  const NoRecords := ModelRecords(None, None, None, map[], {})

  function Lookup<K, V>(m: map<K, V>, k: K): Option<V>
  {
    if k in m then Some(m[k]) else None
  }

  function RecordsOf(st: Stores, id: string): ModelRecords
  {
    ModelRecords(Lookup(st.creation, id), Lookup(st.metaData, id), Lookup(st.modelData, id),
      map k | k in st.localOps && k.0 == id :: st.localOps[k],
      set o | o in st.serverOps && o.modelId == id)
  }

  /** The subscribed models that setting the subscriptions to `requested` deletes. */
  function SetDeletes(meta: map<string, ModelMetaDataDocument>, requested: set<string>): set<string>
  {
    set id | id in SubscribedIds(meta) && id !in requested && !IsSet(meta[id].created) && !IsSet(meta[id].dirty)
  }

  /**
   * The stores after setting the subscriptions to `requested`: an unrequested
   * subscription is removed (with the whole model when it is neither created
   * nor dirty), a requested model not yet subscribed is flagged (or gets a bare
   * document), and every other record stays.
   */
  function StoresAfterSet(st: Stores, requested: seq<string>): Stores
  {
    var req := set x | x in requested;
    var gone := SetDeletes(st.metaData, req);
    var meta := map id | id in (st.metaData.Keys - gone) + req ::
      if id in SubscribedIds(st.metaData) then
        (if id in req then st.metaData[id] else st.metaData[id].(subscribed := None))
      else if id in st.metaData then
        (if id in req then st.metaData[id].(subscribed := Some(1)) else st.metaData[id])
      else NewSubscribedDoc(id);
    WithoutModels(st, gone).(metaData := meta)
  }

  /** Removing the unrequested subscriptions and then adding the missing ones gives `StoresAfterSet`. */
  lemma SetSubscriptionsComposition(st: Stores, requested: seq<string>, toRemove: seq<string>, toAdd: seq<string>)
    requires forall x :: x in toRemove <==> x in SubscribedIds(st.metaData) && x !in requested
    requires forall x :: x in toAdd <==> x in requested && x !in SubscribedIds(st.metaData)
    ensures StoresAfterRemove(st, toRemove).(metaData := MetaAfterAdd(MetaAfterRemove(st.metaData, toRemove), toAdd))
      == StoresAfterSet(st, requested)
  {
    var req := set x | x in requested;
    assert ToDelete(st.metaData, toRemove) == SetDeletes(st.metaData, req);
  }

  /** What setting the subscriptions does to each model's records, whatever the order of `requested`. */
  lemma SetSubscriptionsPerModel(st: Stores, requested: seq<string>, id: string)
    ensures var before, after := RecordsOf(st, id), RecordsOf(StoresAfterSet(st, requested), id);
      && (id in requested && id in SubscribedIds(st.metaData) ==> after == before)
      && (id in requested && id !in SubscribedIds(st.metaData) ==>
            after == before.(meta := Some(if id in st.metaData then st.metaData[id].(subscribed := Some(1))
                                          else NewSubscribedDoc(id))))
      && ((id !in requested && id in SubscribedIds(st.metaData)
           && !IsSet(st.metaData[id].created) && !IsSet(st.metaData[id].dirty)) ==>
            after == NoRecords)
      && ((id !in requested && id in SubscribedIds(st.metaData)
           && (IsSet(st.metaData[id].created) || IsSet(st.metaData[id].dirty))) ==>
            after == before.(meta := Some(st.metaData[id].(subscribed := None))))
      && (id !in requested && id !in SubscribedIds(st.metaData) ==> after == before)
  {
    var req := set x | x in requested;
    var gone := SetDeletes(st.metaData, req);
    var after := StoresAfterSet(st, requested);
    if id in gone {
      assert RecordsOf(after, id).localOps == map[];
      assert RecordsOf(after, id).serverOps == {};
    } else {
      assert RecordsOf(after, id).localOps == RecordsOf(st, id).localOps;
      assert RecordsOf(after, id).serverOps == RecordsOf(st, id).serverOps;
    }
  }

  /** Each metadata document and local operation sits under its own key. */
  ghost predicate RecordsKeyed(meta: map<string, ModelMetaDataDocument>, ops: map<LocalOpKey, LocalOperationData>)
  {
    && (forall id :: id in meta ==> meta[id].modelId == id)
    && (forall k :: k in ops ==> ops[k].modelId == k.0 && ops[k].sequenceNumber == k.1)
  }

  // ---------------------------------------------------------------------------
  // The store
  //
  // Every public operation runs in one transaction. When the source throws
  // inside it (a missing metadata document or details, a duplicate key on
  // `add`), the transaction is taken to abort, so a failed call leaves every
  // store as it was.
  // ---------------------------------------------------------------------------

  class IdbModelStore {
    var creation: map<string, ModelCreationData>
    var metaData: map<string, ModelMetaDataDocument>
    var modelData: map<string, ModelData>
    var localOps: map<LocalOpKey, LocalOperationData>
    var serverOps: set<ServerOperationData>

    /** Records sit under their own keys. */
    ghost predicate Valid()
      reads this
    {
      RecordsKeyed(metaData, localOps)
    }

    /** The five stores as one value. */
    ghost function State(): Stores
      reads this
    {
      Stores(creation, metaData, modelData, localOps, serverOps)
    }

    constructor ()
      ensures Valid()
      ensures creation == map[] && metaData == map[] && modelData == map[] && localOps == map[] && serverOps == {}
    {
      creation, metaData, modelData, localOps, serverOps := map[], map[], map[], map[], {};
    }

    /** `_deleteModel`: every record of the model goes, from all five stores. */
    method DeleteModel(modelId: string)
      requires Valid()
      modifies this
      ensures Valid()
      ensures creation == old(creation) - {modelId} && metaData == old(metaData) - {modelId}
      ensures modelData == old(modelData) - {modelId}
      ensures localOps == LocalOpsWithout(old(localOps), {modelId})
      ensures serverOps == ServerOpsWithout(old(serverOps), {modelId})
    {
      creation := creation - {modelId};
      metaData := metaData - {modelId};
      modelData := modelData - {modelId};
      serverOps := ServerOpsWithout(serverOps, {modelId});
      localOps := LocalOpsWithout(localOps, {modelId});
    }

    method ModelDeleted(modelId: string)
      requires Valid()
      modifies this
      ensures Valid()
      ensures creation == old(creation) - {modelId} && metaData == old(metaData) - {modelId}
      ensures modelData == old(modelData) - {modelId}
      ensures localOps == LocalOpsWithout(old(localOps), {modelId})
      ensures serverOps == ServerOpsWithout(old(serverOps), {modelId})
    {
      DeleteModel(modelId);
    }

    /** One turn of `_removeSubscriptions`, for a model that has metadata. */
    method RemoveSubscription(modelId: string)
      requires Valid() && modelId in metaData
      modifies this
      ensures Valid()
      ensures State() == RemoveOne(old(State()), modelId)
    {
      var doc := metaData[modelId].(subscribed := None);
      if !IsSet(doc.created) && !IsSet(doc.dirty) {
        DeleteModel(modelId);
      } else {
        metaData := metaData[modelId := doc];
      }
    }

    /**
     * `_removeSubscriptions`: each model loses its subscription; a model that is
     * neither created nor dirty is deleted outright. Fails, changing nothing,
     * when a model has no metadata by the time its turn comes.
     */
    method RemoveSubscriptions(modelIds: seq<string>) returns (r: Outcome)
      requires Valid()
      modifies this
      ensures Valid()
      ensures r.Pass? <==> RemoveSucceeds(old(metaData), modelIds)
      ensures r.Fail? ==> State() == old(State())
      ensures r.Pass? ==> State() == StoresAfterRemove(old(State()), modelIds)
    {
      ghost var st0 := State();
      var c0, m0, d0, l0, s0 := creation, metaData, modelData, localOps, serverOps;
      assert RecordsKeyed(m0, l0);
      var i := 0;
      while i < |modelIds|
        invariant 0 <= i <= |modelIds|
        invariant Valid() && RecordsKeyed(m0, l0)
        invariant st0 == Stores(c0, m0, d0, l0, s0)
        invariant RemoveSucceeds(m0, modelIds[..i])
        invariant State() == StoresAfterRemove(st0, modelIds[..i])
      {
        var modelId := modelIds[i];
        ghost var prefix := modelIds[..i];
        assert modelIds[..i + 1] == prefix + [modelId];
        if modelId !in metaData {
          RemoveFailsAt(m0, modelIds, i);
          creation, metaData, modelData, localOps, serverOps := c0, m0, d0, l0, s0;
          return Fail(NO_METADATA_ERROR);
        }
        StoresAfterRemoveStep(st0, prefix, modelId);
        RemoveSucceedsStep(m0, prefix, modelId);
        RemoveSubscription(modelId);
        i := i + 1;
      }
      assert modelIds[..i] == modelIds;
      return Pass;
    }

    /** `_addSubscriptions`: each model is flagged as subscribed, getting a bare document if it had none. */
    method AddSubscriptions(modelIds: seq<string>)
      requires Valid()
      modifies this
      ensures Valid()
      ensures metaData == MetaAfterAdd(old(metaData), modelIds)
      ensures creation == old(creation) && modelData == old(modelData)
      ensures localOps == old(localOps) && serverOps == old(serverOps)
    {
      var m0 := metaData;
      var i := 0;
      while i < |modelIds|
        invariant 0 <= i <= |modelIds|
        invariant Valid()
        invariant metaData == MetaAfterAdd(m0, modelIds[..i])
        invariant creation == old(creation) && modelData == old(modelData)
        invariant localOps == old(localOps) && serverOps == old(serverOps)
      {
        var modelId := modelIds[i];
        assert modelIds[..i + 1] == modelIds[..i] + [modelId];
        MetaAfterAddStep(m0, modelIds[..i], modelId);
        var updated := if modelId in metaData then metaData[modelId].(subscribed := Some(1))
                       else NewSubscribedDoc(modelId);
        metaData := metaData[modelId := updated];
        i := i + 1;
      }
      assert modelIds[..i] == modelIds;
    }

    /** The ids listed by the subscribed index, each once. */
    method SubscribedModelIds() returns (ids: seq<string>)
      ensures Distinct(ids)
      ensures forall x :: x in ids <==> x in SubscribedIds(metaData)
    {
      var rest := SubscribedIds(metaData);
      ids := [];
      while rest != {}
        invariant forall x :: x in ids ==> x !in rest
        invariant forall x :: x in SubscribedIds(metaData) <==> x in ids || x in rest
        invariant Distinct(ids)
        decreases rest
      {
        var id :| id in rest;
        ids := ids + [id];
        rest := rest - {id};
      }
    }

    /**
     * Makes the subscribed models exactly `modelIds`: subscriptions not asked
     * for are removed (deleting models that are neither created nor dirty) and
     * missing ones are added.
     */
    method SetModelSubscriptions(modelIds: seq<string>)
      requires Valid()
      modifies this
      ensures Valid()
      ensures State() == StoresAfterSet(old(State()), modelIds)
      ensures SubscribedIds(metaData) == set x | x in modelIds
    {
      var subscribedModelIds := SubscribedModelIds();
      var requested := set x | x in modelIds;
      var toAdd := FilterOut(modelIds, SubscribedIds(metaData));
      var toRemove := FilterOut(subscribedModelIds, requested);
      ghost var st0 := State();
      ghost var m0 := metaData;
      DistinctRemovalSucceeds(metaData, toRemove);
      var r := RemoveSubscriptions(toRemove);
      assert metaData == State().metaData == MetaAfterRemove(m0, toRemove);
      AddSubscriptions(toAdd);
      SubscriptionsBecomeRequested(m0, modelIds, toRemove, toAdd);
      SetSubscriptionsComposition(st0, modelIds, toRemove, toAdd);
    }

    /**
     * Marks the model deleted: its creation record, data and operations go, and
     * its metadata keeps only the deleted flag (with `created` and the id).
     */
    method MarkModelForDeletion(modelId: string) returns (r: Outcome)
      requires Valid()
      modifies this
      ensures Valid()
      ensures r.Fail? <==> modelId !in old(metaData)
      ensures r.Fail? ==>
        && creation == old(creation) && metaData == old(metaData) && modelData == old(modelData)
        && localOps == old(localOps) && serverOps == old(serverOps)
      ensures r.Pass? ==>
        && creation == old(creation) - {modelId} && modelData == old(modelData) - {modelId}
        && localOps == LocalOpsWithout(old(localOps), {modelId})
        && serverOps == ServerOpsWithout(old(serverOps), {modelId})
        && metaData == old(metaData)[modelId := old(metaData)[modelId].(
             details := None, subscribed := None, dirty := None, available := None, deleted := Some(1))]
    {
      if modelId !in metaData {
        return Fail(NO_METADATA_ERROR);
      }
      creation := creation - {modelId};
      localOps := LocalOpsWithout(localOps, {modelId});
      serverOps := ServerOpsWithout(serverOps, {modelId});
      modelData := modelData - {modelId};
      var doc := metaData[modelId];
      doc := doc.(details := None, subscribed := None, dirty := None, available := None, deleted := Some(1));
      metaData := metaData[modelId := doc];
      return Pass;
    }

    /** The server has created the model: it becomes available and is no longer created locally or dirty. */
    method ModelCreated(modelId: string) returns (r: Outcome)
      requires Valid()
      modifies this
      ensures Valid()
      ensures r.Fail? <==> modelId !in old(metaData)
      ensures r.Fail? ==> creation == old(creation) && metaData == old(metaData)
      ensures r.Pass? ==>
        && creation == old(creation) - {modelId}
        && metaData == old(metaData)[modelId := old(metaData)[modelId].(available := Some(1), created := None, dirty := None)]
      ensures modelData == old(modelData) && localOps == old(localOps) && serverOps == old(serverOps)
    {
      if modelId !in metaData {
        return Fail(NO_METADATA_ERROR);
      }
      creation := creation - {modelId};
      var doc := metaData[modelId].(available := Some(1), created := None, dirty := None);
      metaData := metaData[modelId := doc];
      return Pass;
    }

    /** Deletes the model only when it has metadata and is neither created, dirty nor subscribed. */
    method DeleteIfNotNeeded(modelId: string) returns (removed: bool)
      requires Valid()
      modifies this
      ensures Valid()
      ensures removed <==> (modelId in old(metaData) && !IsSet(old(metaData)[modelId].created)
        && !IsSet(old(metaData)[modelId].dirty) && !IsSet(old(metaData)[modelId].subscribed))
      ensures removed ==>
        && creation == old(creation) - {modelId} && metaData == old(metaData) - {modelId}
        && modelData == old(modelData) - {modelId}
        && localOps == LocalOpsWithout(old(localOps), {modelId})
        && serverOps == ServerOpsWithout(old(serverOps), {modelId})
      ensures !removed ==>
        && creation == old(creation) && metaData == old(metaData) && modelData == old(modelData)
        && localOps == old(localOps) && serverOps == old(serverOps)
    {
      removed := modelId in metaData && !IsSet(metaData[modelId].created)
        && !IsSet(metaData[modelId].dirty) && !IsSet(metaData[modelId].subscribed);
      if removed {
        DeleteModel(modelId);
      }
    }

    /** Stores a server operation and moves the model's version past it. */
    method ProcessServerOperation(serverOp: ServerOperationData) returns (r: Outcome)
      requires Valid()
      modifies this
      ensures Valid()
      ensures r.Pass? <==> serverOp.modelId in old(metaData) && old(metaData)[serverOp.modelId].details.Some?
      ensures r.Fail? ==> metaData == old(metaData) && serverOps == old(serverOps)
      ensures r.Pass? ==>
        var doc := old(metaData)[serverOp.modelId];
        && serverOps == old(serverOps) + {serverOp}
        && metaData == old(metaData)[serverOp.modelId := doc.(details := Some(doc.details.value.(
             version := serverOp.version + 1, modifiedTime := serverOp.timestamp)))]
      ensures creation == old(creation) && modelData == old(modelData) && localOps == old(localOps)
    {
      if serverOp.modelId !in metaData {
        return Fail(NO_METADATA_ERROR);
      }
      var doc := metaData[serverOp.modelId];
      if doc.details.None? {
        return Fail(NO_DETAILS_ERROR);
      }
      serverOps := serverOps + {serverOp};
      doc := doc.(details := Some(doc.details.value.(version := serverOp.version + 1, modifiedTime := serverOp.timestamp)));
      metaData := metaData[serverOp.modelId := doc];
      return Pass;
    }

    /** Stores a local operation; the model becomes dirty and records the operation's sequence number. */
    method ProcessLocalOperation(localOp: LocalOperationData) returns (r: Outcome)
      requires Valid()
      modifies this
      ensures Valid()
      ensures r.Pass? <==>
        && (localOp.modelId, localOp.sequenceNumber) !in old(localOps)
        && localOp.modelId in old(metaData) && old(metaData)[localOp.modelId].details.Some?
      ensures r.Fail? ==> metaData == old(metaData) && localOps == old(localOps)
      ensures r.Pass? ==>
        var doc := old(metaData)[localOp.modelId];
        && localOps == old(localOps)[(localOp.modelId, localOp.sequenceNumber) := localOp]
        && metaData == old(metaData)[localOp.modelId := doc.(dirty := Some(1),
             details := Some(doc.details.value.(seqNo := localOp.sequenceNumber)))]
      ensures creation == old(creation) && modelData == old(modelData) && serverOps == old(serverOps)
    {
      var key := (localOp.modelId, localOp.sequenceNumber);
      if key in localOps {
        return Fail(DUPLICATE_KEY_ERROR);
      }
      if localOp.modelId !in metaData {
        return Fail(NO_METADATA_ERROR);
      }
      var doc := metaData[localOp.modelId];
      if doc.details.None? {
        return Fail(NO_DETAILS_ERROR);
      }
      localOps := localOps[key := localOp];
      doc := doc.(dirty := Some(1), details := Some(doc.details.value.(seqNo := localOp.sequenceNumber)));
      metaData := metaData[localOp.modelId := doc];
      return Pass;
    }

    /**
     * The server acknowledged local operation (modelId, seqNo) as `serverOp`: the
     * local operation goes, the server operation is stored, the version moves
     * past it, and the model stays dirty exactly when local operations remain.
     */
    method ProcessOperationAck(modelId: string, seqNo: int, serverOp: ServerOperationData) returns (r: Outcome)
      requires Valid()
      modifies this
      ensures Valid()
      ensures r.Pass? <==> modelId in old(metaData) && old(metaData)[modelId].details.Some?
      ensures r.Fail? ==> metaData == old(metaData) && localOps == old(localOps) && serverOps == old(serverOps)
      ensures r.Pass? ==>
        var doc := old(metaData)[modelId];
        && localOps == old(localOps) - {(modelId, seqNo)}
        && serverOps == old(serverOps) + {serverOp}
        && metaData == old(metaData)[modelId := doc.(
             details := Some(doc.details.value.(version := serverOp.version + 1, modifiedTime := serverOp.timestamp)),
             dirty := if HasLocalOps(localOps, modelId) then Some(1) else None)]
      ensures r.Pass? ==> (IsSet(metaData[modelId].dirty) <==> HasLocalOps(localOps, modelId))
      ensures creation == old(creation) && modelData == old(modelData)
    {
      if modelId !in metaData {
        return Fail(NO_METADATA_ERROR);
      }
      var doc := metaData[modelId];
      if doc.details.None? {
        return Fail(NO_DETAILS_ERROR);
      }
      localOps := localOps - {(modelId, seqNo)};
      serverOps := serverOps + {serverOp};
      doc := doc.(details := Some(doc.details.value.(version := serverOp.version + 1, modifiedTime := serverOp.timestamp)));
      var dirty := exists k :: k in localOps && k.0 == modelId;
      doc := doc.(dirty := if dirty then Some(1) else None);
      metaData := metaData[modelId := doc];
      return Pass;
    }
  }
}
