# Convergence client core, modelled in Dafny

This project models part of the Convergence JavaScript client. Convergence is a
real-time collaboration engine: clients edit shared models (JSON-like trees of
strings, numbers, arrays and objects) concurrently. Operational transformation
(OT) reconciles edits that cross on the wire. An offline store keeps models,
subscriptions and pending operations in IndexedDB.

The model covers these parts of the client:

- **Operations** (`ModelOps`, `PathOps`). The immutable operation records are
  datatypes. Each `copy(updates)` overrides the fields it is given and keeps the
  rest. `AppliedBooleanSetOperation.inverse` swaps the new and old values.
- **Transformation functions** (`ModelXform`, `PathXform`):
  - replace against insert, and replace against replace;
  - path rebasing across an array remove;
  - reference re-anchoring across string edits.

  Each is proved to converge, or to keep what a reference designates, on a
  sequence model of the array or string.
- **`RealTimeString`** (`RealTimeStrings`). A class holding:
  - the text;
  - the references by key;
  - the operations sent.

  Its methods are insert and remove, get-or-create of index and range
  references, and the fan-out of string events to every reference.
- **`RealTimeNumber`** (`RealTimeNumbers`). A class holding the value, the
  operations sent and the events emitted. Its methods are the local edits and
  the handlers for incoming operations.
- **`IdbModelStore`** (`Storage`). A class over five in-memory maps standing for
  the five object stores:
  - subscription bookkeeping;
  - deletion;
  - creation;
  - processing of local operations, server operations and acknowledgements;
  - the snapshot and metadata conversions.
- **`Deferred`** (`Util`). The two settled-state flags.
- **`IdentityService`** (`Identity`):
  - search-field validation and de-duplication;
  - the argument checks of `search`, `users` and `user`, each ending in the
    request it would send.

Two behaviours of the code worth knowing:

- A server replace at the same index as a client insert is shifted right
  (`ArrayReplaceInsertOTF.ts:29-31`).
- `ArrayRemovePTF` returns an undefined path in its obsoleted and untransformed
  branches. The model has `None` there.

## Model

| member | source | states |
|---|---|---|
| Wrappers.Update | src/main/ts/model/ot/ops/StringRemoveOperation.ts:22-25 | an override that is present replaces the current value; an absent one keeps it |
| ModelOps.StringRemoveOperation.Copy | src/main/ts/model/ot/ops/StringRemoveOperation.ts:20-26 | each of id, noOp, index and value is taken from the updates when supplied and kept otherwise |
| ModelOps.StringRemoveCopyWithoutUpdates | src/main/ts/model/ot/ops/StringRemoveOperation.ts:20-26 | copying with no updates gives an equal operation of type STRING_REMOVE |
| ModelOps.StringRemoveCopyIdempotent | src/main/ts/model/ot/ops/StringRemoveOperation.ts:20-26 | copying twice with the same updates equals copying once |
| ModelOps.ObjectAddPropertyOperation.Copy | src/main/ts/model/ot/ops/ObjectAddPropertyOperation.ts:21-27 | each of id, noOp, prop and value is overridden when supplied and kept otherwise |
| ModelOps.ObjectAddPropertyCopyWithoutUpdates | src/main/ts/model/ot/ops/ObjectAddPropertyOperation.ts:21-27 | copying with no updates gives an equal operation |
| ModelOps.ObjectAddPropertyCopyNoOp | src/main/ts/model/ot/ops/ObjectAddPropertyOperation.ts:13-27 | overriding only noOp keeps id, prop, value and the OBJECT_ADD type |
| ModelOps.ArrayReplaceOperation.Copy | src/main/model/ot/xform/array/ArrayReplaceInsertOTF.ts:31 | override-or-keep for id, noOp, index and value (the copy the transformation uses) |
| ModelOps.CompoundOperation.Copy | src/main/ts/model/ot/ops/CompoundOperation.ts:12-19 | without `ops` the same operations are kept in order, with `ops` they are replaced; the type stays COMPOUND |
| ModelOps.CompoundCopyKeepsOrder | src/main/ts/model/ot/ops/CompoundOperation.ts:17-19 | a copy without updates has the same length and the same operation at every position |
| ModelOps.AppliedBooleanSetOperation.Inverse | src/main/ts/model/ot/applied/AppliedBooleanSetOperation.ts:19-21 | the inverse swaps value and oldValue and keeps id and noOp |
| ModelOps.BooleanSetInverseInvolution | src/main/ts/model/ot/applied/AppliedBooleanSetOperation.ts:11-21 | inverting twice gives back the original operation; the inverse is still BOOLEAN_VALUE |
| PathOps.ObjectRemovePropertyOperation.Copy | src/main/ts/ot/ops/ObjectRemovePropertyOperation.ts:16-21 | each of path, noOp and prop is overridden when supplied and kept otherwise |
| PathOps.ObjectRemovePropertyCopyWithoutUpdates | src/main/ts/ot/ops/ObjectRemovePropertyOperation.ts:7-21 | copying with no updates gives an equal operation whose type is "ObjectRemoveProperty" |
| PathOps.ArrayReplaceOperation.Copy | src/main/ts/ot/xform/array/ArrayReplaceReplaceOTF.ts:13-16 | a noOp override sets noOp and leaves path, index and value alone |
| ModelXform.ArrayReplaceInsertOTF | src/main/model/ot/xform/array/ArrayReplaceInsertOTF.ts:24-33 | the insert is returned unchanged; a replace before the insert is unchanged; at or after it (ties included) its index grows by one; id, noOp and value are kept |
| ModelXform.ArrayReplaceInsertConverges | src/main/model/ot/xform/array/ArrayReplaceInsertOTF.ts:24-33 | insert then transformed replace gives the same array as replace then insert, with every index in range |
| ModelXform.HandleInsert | src/main/model/ot/xform/reference/IndexTransformationFunctions.ts:33 | one position out per position in (the shift rule itself is stated by the anchor lemmas) |
| ModelXform.HandleRemove | src/main/model/ot/xform/reference/IndexTransformationFunctions.ts:43 | one position out per position in (the shift and clamp rule is stated by the anchor lemmas) |
| ModelXform.HandleRemoveUndoesHandleInsert | src/main/model/ot/xform/reference/IndexTransformationFunctions.ts:31-45 | removing the span just inserted at the same index restores every position |
| ModelXform.StringInsertIndexTransformation | src/main/model/ot/xform/reference/IndexTransformationFunctions.ts:31-35 | always returns a reference record whose positions are shifted by the insert's length at its index; kind, element and key are kept |
| ModelXform.StringRemoveIndexTransformation | src/main/model/ot/xform/reference/IndexTransformationFunctions.ts:41-45 | always returns a reference record re-anchored by the length of the removed text; kind, element and key are kept |
| ModelXform.StringSetIndexTransformation | src/main/model/ot/xform/reference/IndexTransformationFunctions.ts:51-54 | a whole-text set leaves no reference (null) |
| ModelXform.StringInsertKeepsAnchors | src/main/model/ot/xform/reference/IndexTransformationFunctions.ts:31-35 | after a concurrent insert, each transformed position designates the same character as before, and a position at the end of the text stays at the end |
| ModelXform.StringRemoveKeepsAnchors | src/main/model/ot/xform/reference/IndexTransformationFunctions.ts:41-45 | after a concurrent remove, a surviving character is still designated; a position inside the removed span moves to its start; a position at the end of the text stays at the end |
| PathXform.ArrayReplaceReplaceOTF | src/main/ts/ot/xform/array/ArrayReplaceReplaceOTF.ts:7-18 | different indices: both unchanged; same index, different values: the client becomes a no-op; same index and value: both become no-ops; nothing but noOp ever changes |
| PathXform.ArrayReplaceReplaceConverges | src/main/ts/ot/xform/array/ArrayReplaceReplaceOTF.ts:7-18 | both application orders reach the same array, and at a shared index the server's value is the one that remains |
| PathXform.TransformDescendantPath | src/main/ts/ot/xform/path/ArrayRemovePTF.ts:7-20 | the element below the ancestor path decides: greater than the removed index gives PathUpdated with that element decremented and all others equal; equal gives PathObsoleted; smaller, or no index there, gives NoTransformation; only PathUpdated carries a path |
| PathXform.ArrayRemovePTFIsSound | src/main/ts/ot/xform/path/ArrayRemovePTF.ts:7-20 | an updated index designates the same element after the remove, an untransformed one still designates it in place, an obsoleted one pointed at the removed element |
| Util.Deferred.constructor | src/main/util/Deferred.ts:28-36 | a new deferred is neither resolved nor rejected |
| Util.Deferred.IsPending | src/main/util/Deferred.ts:38-40 | as written: true exactly when the deferred is resolved or rejected |
| Util.Deferred.IsPendingCorrected | src/main/util/Deferred.ts:38-40 | true exactly when the deferred is neither resolved nor rejected |
| Util.Deferred.IsRejected | src/main/util/Deferred.ts:42-44 | true exactly when the deferred was rejected; a rejected deferred is not also resolved |
| Util.Deferred.IsResolved | src/main/util/Deferred.ts:46-48 | true exactly when the deferred was resolved; a resolved deferred is not also rejected |
| Util.Deferred.Resolve | src/main/util/Deferred.ts:50-54 | afterwards resolved and not rejected |
| Util.Deferred.Reject | src/main/util/Deferred.ts:56-60 | afterwards rejected and not resolved |
| Util.PendingAsWritten | src/main/util/Deferred.ts:38-40 | with the code as written a fresh deferred is not pending and a resolved one is |
| Util.PendingCorrected | src/main/util/Deferred.ts:38-40 | with the correction a fresh deferred is pending and a resolved or rejected one is not |
| RealTimeNumbers.Negate | src/main/ts/model/RealTimeNumber.ts:36-38 | negation keeps NaN and flips the sign of a number |
| RealTimeNumbers.RealTimeNumber.constructor | src/main/ts/model/RealTimeNumber.ts:11-16 | starts at the given value, with nothing sent or emitted |
| RealTimeNumbers.RealTimeNumber.Value | src/main/ts/model/RealTimeNumber.ts:68-70 | the number the element currently holds |
| RealTimeNumbers.RealTimeNumber.ValidateNumber | src/main/ts/model/RealTimeNumber.ts:119-123 | fails with "Value is NaN" exactly for NaN |
| RealTimeNumbers.RealTimeNumber.Add | src/main/ts/model/RealTimeNumber.ts:22-30 | NaN fails with no change; zero changes and sends nothing; otherwise the value grows by the delta and exactly one add operation carrying it is sent |
| RealTimeNumbers.RealTimeNumber.Subtract | src/main/ts/model/RealTimeNumber.ts:36-38 | as Add with the negated value: the value drops and an add of minus the value is sent |
| RealTimeNumbers.RealTimeNumber.Increment | src/main/ts/model/RealTimeNumber.ts:43-45 | the value grows by one and an add of 1 is sent |
| RealTimeNumbers.RealTimeNumber.Decrement | src/main/ts/model/RealTimeNumber.ts:50-52 | the value drops by one and an add of -1 is sent |
| RealTimeNumbers.RealTimeNumber.SetValue | src/main/ts/model/RealTimeNumber.ts:58-66 | NaN fails with no change; otherwise the value is replaced and a set operation is always sent |
| RealTimeNumbers.RealTimeNumber.HandleIncomingOperation | src/main/ts/model/RealTimeNumber.ts:74-83 | dispatches add and set and fails with "Invalid operation!" on any other type; nothing is ever sent back |
| RealTimeNumbers.RealTimeNumber.HandleAddOperation | src/main/ts/model/RealTimeNumber.ts:85-100 | NaN fails with no change; otherwise adds the value and emits one add event with the operation's session, user, version and timestamp |
| RealTimeNumbers.RealTimeNumber.HandleSetOperation | src/main/ts/model/RealTimeNumber.ts:102-117 | NaN fails with no change; otherwise sets the value and emits one set event |
| RealTimeNumbers.TestSuiteScenarios | src/test/ts/model/RealTimeNumberSpec.ts:76-160 | from 10: add 5 gives 15, subtract 5 gives 5 and sends a delta of -5, set 20 gives 20, incoming add 5 gives 15, incoming set 20 gives 20 |
| RealTimeStrings.Reference.HandleInsert | src/main/ts/model/rt/RealTimeString.ts:124-130 | kind and key are kept; positions move by the index transformer's insert rule |
| RealTimeStrings.Reference.HandleRemove | src/main/ts/model/rt/RealTimeString.ts:135-141 | kind and key are kept; positions move by the index transformer's remove rule |
| RealTimeStrings.RealTimeString.constructor | src/main/ts/model/rt/RealTimeString.ts:42-51 | starts with the given text, no references and nothing sent |
| RealTimeStrings.RealTimeString.Length | src/main/ts/model/rt/RealTimeString.ts:63-65 | the length of the current text |
| RealTimeStrings.RealTimeString.Insert | src/main/ts/model/rt/RealTimeString.ts:53-56 | fails without change when not writable; otherwise the text gains the insertion, every reference is shifted and one insert operation is sent |
| RealTimeStrings.RealTimeString.Remove | src/main/ts/model/rt/RealTimeString.ts:58-61 | fails without change when not writable; otherwise the span goes, every reference is re-anchored and one remove operation carrying the removed text is sent |
| RealTimeStrings.RealTimeString.IndexReference | src/main/ts/model/rt/RealTimeString.ts:72-91 | an existing index reference is returned; a reference of another kind gives the error; otherwise a new index reference is added under the key and returned |
| RealTimeStrings.RealTimeString.RangeReference | src/main/ts/model/rt/RealTimeString.ts:93-112 | the same for range references |
| RealTimeStrings.RealTimeString.HandleReferenceModelEvent | src/main/ts/model/rt/RealTimeString.ts:119-151 | a local event sends its operation; insert and remove move every reference; a set removes every reference; the text is untouched |
| RealTimeStrings.RealTimeString.EventOperation | src/main/ts/model/rt/RealTimeString.ts:120-145 | the operation each local event sends: a non-noOp insert, remove or set on this element carrying the event's index and text |
| RealTimeStrings.RealTimeString.ShiftReferences | src/main/ts/model/rt/RealTimeString.ts:124-141 | every reference in the manager, and only those, receives the insert or remove |
| RealTimeStrings.IndexReferenceTwice | src/main/ts/model/rt/RealTimeString.ts:72-91 | asking twice for a new key returns the same reference both times |
| RealTimeStrings.InsertKeepsReferenceAnchors | src/main/ts/model/rt/RealTimeString.ts:120-130 | after a local insert every reference position designates the character it designated before, and a position at the end of the text stays at the end |
| Storage.SnapshotToDataAndMetaData | src/main/storage/idb/IdbModelStore.ts:63-104 | the data record holds the snapshot's data; the metadata is available and not deleted; created, dirty and subscribed are set exactly for local, dirty and subscribed snapshots; details hold the snapshot's collection, created and modified times, permissions, seqNo and data version, and the given version |
| Storage.MetaDataDocToMetaData | src/main/storage/idb/IdbModelStore.ts:106-135 | each flag reads true exactly when the stored field is 1; id and details are carried over |
| Storage.SnapshotMetaDataRoundTrip | src/main/storage/idb/IdbModelStore.ts:63-135 | storing a snapshot and reading its metadata back gives the snapshot's flags, available, not deleted, at the given version |
| Storage.FilterOut | src/main/storage/idb/IdbModelStore.ts:554-555 | the result holds exactly the ids of the input not excluded, without repeats when the input has none |
| Storage.ToDeleteStep | src/main/storage/idb/IdbModelStore.ts:163-172 | one more removal deletes the model exactly when it is neither created nor dirty |
| Storage.MetaAfterRemoveStep | src/main/storage/idb/IdbModelStore.ts:163-172 | one more removal either deletes the metadata or clears its subscribed field |
| Storage.RemoveSucceedsStep | src/main/storage/idb/IdbModelStore.ts:163-164 | removal carries on past an id that still has metadata |
| Storage.RemoveFailsAt | src/main/storage/idb/IdbModelStore.ts:163-165 | an id without metadata at its turn makes the whole removal fail |
| Storage.MetaAfterAddStep | src/main/storage/idb/IdbModelStore.ts:192-205 | one more addition flags the model or creates a bare subscribed document |
| Storage.StoresAfterRemoveStep | src/main/storage/idb/IdbModelStore.ts:163-172 | removing the subscriptions of a prefix and then of one more model is one more turn of the removal, in all five stores |
| Storage.DistinctRemovalSucceeds | src/main/storage/idb/IdbModelStore.ts:553-558 | distinct subscribed ids, all with metadata, can be removed without failure |
| Storage.SetSubscriptionsComposition | src/main/storage/idb/IdbModelStore.ts:540-561 | removing the unrequested subscriptions and then adding the missing ones gives `StoresAfterSet`, whatever the order of either list |
| Storage.SetSubscriptionsPerModel | src/main/storage/idb/IdbModelStore.ts:540-561 | for each model: requested and subscribed stays as it is; requested and not subscribed gets the flag (or a bare document), other records kept; unrequested, subscribed, neither created nor dirty loses every record in all five stores; unrequested, subscribed, created or dirty only loses the flag; unrequested and unsubscribed stays as it is |
| Storage.SubscriptionsBecomeRequested | src/main/storage/idb/IdbModelStore.ts:540-561 | removing the unrequested and adding the missing subscriptions leaves exactly the requested ids subscribed |
| Storage.IdbModelStore.constructor | src/main/storage/idb/IdbModelStore.ts:36 | all five stores start empty |
| Storage.IdbModelStore.DeleteModel | src/main/storage/idb/IdbModelStore.ts:176-189 | the model's creation, metadata and data records and all of its local and server operations go; nothing else changes |
| Storage.IdbModelStore.ModelDeleted | src/main/storage/idb/IdbModelStore.ts:284-302 | the same effect as DeleteModel |
| Storage.IdbModelStore.RemoveSubscription | src/main/storage/idb/IdbModelStore.ts:163-172 | a model neither created nor dirty loses every record in every store; otherwise only its subscribed field is cleared |
| Storage.IdbModelStore.RemoveSubscriptions | src/main/storage/idb/IdbModelStore.ts:155-174 | succeeds exactly when each id has metadata at its turn; then the stores are those of removing the ids one by one (each unsubscribed, or deleted with all its records when neither created nor dirty); on failure nothing changes |
| Storage.IdbModelStore.AddSubscriptions | src/main/storage/idb/IdbModelStore.ts:191-207 | every listed model is flagged subscribed, a model without metadata getting a bare document; other stores are untouched |
| Storage.IdbModelStore.SubscribedModelIds | src/main/storage/idb/IdbModelStore.ts:551-553 | lists each subscribed model exactly once |
| Storage.IdbModelStore.SetModelSubscriptions | src/main/storage/idb/IdbModelStore.ts:540-561 | all five stores afterwards equal `StoresAfterSet` of the old stores, so each model's records change as `SetSubscriptionsPerModel` states; the subscribed models are exactly the requested ones |
| Storage.IdbModelStore.MarkModelForDeletion | src/main/storage/idb/IdbModelStore.ts:254-282 | fails without metadata; otherwise creation, data and operations go and the metadata keeps only id, created and a deleted flag |
| Storage.IdbModelStore.ModelCreated | src/main/storage/idb/IdbModelStore.ts:311-325 | fails without metadata; otherwise the creation record goes and the model becomes available, neither created nor dirty |
| Storage.IdbModelStore.DeleteIfNotNeeded | src/main/storage/idb/IdbModelStore.ts:327-350 | deletes exactly when metadata exists and is neither created, dirty nor subscribed; otherwise nothing changes |
| Storage.IdbModelStore.ProcessServerOperation | src/main/storage/idb/IdbModelStore.ts:425-439 | fails without metadata or details; otherwise stores the operation and sets version to its version plus one and modifiedTime to its timestamp |
| Storage.IdbModelStore.ProcessLocalOperation | src/main/storage/idb/IdbModelStore.ts:441-454 | fails on a duplicate (model, sequence number) key or missing metadata or details; otherwise stores the operation, marks the model dirty and records the sequence number |
| Storage.IdbModelStore.ProcessOperationAck | src/main/storage/idb/IdbModelStore.ts:456-484 | the acknowledged local operation goes, the server operation is stored, the version moves past it, and the model is dirty exactly when local operations remain |
| Identity.IndexOf | src/main/ts/identity/IdentityService.ts:247-251 | -1 exactly when absent; otherwise the first position holding the value |
| Identity.Codes | src/main/ts/identity/IdentityService.ts:250 | the code of each field, position by position |
| Identity.ProcessSearchFields | src/main/ts/identity/IdentityService.ts:244-256 | fails on the first field outside the five valid ones with "Invalid user search field: " and that field; otherwise returns each distinct code once, in first-occurrence order |
| Identity.SameElementsSameEmptiness | src/main/ts/identity/IdentityService.ts:251-253 | helper of `FirstOccurrenceOrderIsUnique` (a generic sequence fact, not a model of these lines): lists with the same elements are empty together |
| Identity.SameElementsHeads | src/main/ts/identity/IdentityService.ts:251-253 | helper of `FirstOccurrenceOrderIsUnique` (a generic sequence fact, not a model of these lines): lists with the same elements hold each other's first elements |
| Identity.OrderedHeadsEqual | src/main/ts/identity/IdentityService.ts:251-253 | two first-occurrence-ordered lists holding each other's heads start with the same code |
| Identity.OrderedTailsSameElements | src/main/ts/identity/IdentityService.ts:251-253 | dropping that common head leaves the same elements |
| Identity.FirstOccurrenceOrderIsUnique | src/main/ts/identity/IdentityService.ts:245-255 | two first-occurrence-ordered lists of the same codes are equal |
| Identity.SearchFieldCodesAreDetermined | src/main/ts/identity/IdentityService.ts:244-256 | the description of the field codes admits a single list |
| Identity.FieldNames | src/main/ts/identity/IdentityService.ts:140 | a single field becomes a one-element list; a list is kept |
| Identity.EffectiveOrderBy | src/main/ts/identity/IdentityService.ts:141-144 | the given ordering, or username ascending when none is given |
| Identity.OrderFieldName | src/main/ts/identity/IdentityService.ts:152 | the ordering's field unless it is missing or empty, then "username" |
| Identity.Search | src/main/ts/identity/IdentityService.ts:129-162 | rejects without fields (missing or empty), then without a term, and in no other case; throws exactly when a field is invalid, naming the first; otherwise sends the field codes, the term, offset, limit, order field and direction |
| Identity.Normalize | src/main/ts/identity/IdentityService.ts:99-104 | a username becomes a normal user id; an id is kept |
| Identity.Users | src/main/ts/identity/IdentityService.ts:93-119 | an empty list resolves at once without a request; otherwise one normalised id per identifier is requested |
| Identity.UsersRequestsNamedUsers | src/main/ts/identity/IdentityService.ts:99-111 | every username asked for is requested as a normal user of that name |
| Identity.UserRequest | src/main/ts/identity/IdentityService.ts:69-74 | a missing id rejects with "Must specify a user id."; otherwise exactly that user is looked up |
| Identity.UserFromResults | src/main/ts/identity/IdentityService.ts:74-82 | no result is undefined, one result is that user, more reject with "Error getting user." |

## Left out

- `IndexTransformer.ts` is not part of this model. `ModelXform.HandleInsert`
  and `ModelXform.HandleRemove` stand in for it with this rule:
  - an insert shifts positions at or after it;
  - a remove shifts positions after the span back and clamps positions inside
    the span to its start.

  A removal therefore never drops a reference.
- The operation source files behind `ArrayInsertOperation`,
  `ArrayReplaceOperation`, `StringInsertOperation`, `StringSetOperation` and
  `ArrayRemoveOperation` are not part of this model. Only their fields are,
  and, for `ArrayReplaceOperation`, its `copy`
  (`ModelOps.ArrayReplaceOperation.Copy`, `PathOps.ArrayReplaceOperation.Copy`).
  That copy is taken to follow the same `Immutable.update` override-or-keep
  rule as the operations whose source is modelled.
- The OT dispatcher that skips no-op operations is not part of this model.
  `ModelXform.ArrayReplaceInsertConverges` therefore assumes a non-no-op client
  operation. `PathXform.ArrayReplaceReplaceConverges` assumes that both the
  client and the server operation are non-no-op.
- Text is `string`, a sequence of Unicode scalar values. JavaScript strings,
  their `length` and every index the source passes around count UTF-16 code
  units. A model character stands for one code unit. Surrogate pairs and lone
  surrogates are not represented, so a character outside the Basic
  Multilingual Plane counts as 1 here and as 2 in the source. The members this
  affects are listed next.
- StringInsertIndexTransformation (`ModelXform.StringInsertIndexTransformation`):
  shifts by the inserted text's length in model characters, standing for
  UTF-16 code units, as explained above.
- StringRemoveIndexTransformation (`ModelXform.StringRemoveIndexTransformation`):
  re-anchors by the removed text's length in model characters, standing for
  UTF-16 code units, as explained above.
- `RealTimeStrings.RealTimeString.Length`: counts model characters, not
  UTF-16 code units.
- `RealTimeStrings.RealTimeString.Insert`: the index and the inserted length
  count model characters, not UTF-16 code units.
- `RealTimeStrings.RealTimeString.Remove`: the index and the removed span
  count model characters, not UTF-16 code units.
- `PathXform.TransformDescendantPath`: a property-name element made only of
  digits would be coerced to a number by the JavaScript comparison. The model
  treats every property name as no index.
- `RealTimeStrings.RealTimeString.Insert` and
  `RealTimeStrings.RealTimeString.Remove` require in-range positions. The
  string node that checks them (`StringNode`) is not part of this model.
- `_assertWritable` is not part of this model. Its error text is a stand-in.
- Remote references and the reference events sent to listeners are not
  modelled. Neither is the disposal callback on a whole-text set: the
  references are removed, but no disposal notice is recorded.
- `RealTimeStrings.RealTimeString.IndexReference` and
  `RealTimeStrings.RealTimeString.RangeReference` return a `Reference` value.
  The source returns the live `LocalIndexReference` / `LocalRangeReference`
  object that the reference manager keeps and later shifts. The model shifts
  the copy kept in the manager, so the value handed to the caller goes stale
  after the next insert or remove. Aliasing between the two is not modelled.
- `RealTimeStrings.Reference.HandleInsert` and
  `RealTimeStrings.Reference.HandleRemove` assume that the reference classes'
  `_handleInsert` / `_handleRemove` apply the index transformer to a flat list
  of positions, with a range flattened to its two ends. Those classes are not
  part of this model.
- The element's session, user and callbacks are not modelled. Neither is the
  wrapper factory.
- `RealTimeNumbers`: JavaScript numbers are modelled as integers plus NaN.
  Fractions, infinities and rounding are not represented.
- Promises, IndexedDB transactions, cursors and indices are left out. Each
  store method runs as one atomic step. When the code throws inside its
  transaction (missing metadata or details, or a duplicate key), the
  transaction is taken to abort, so the stores are unchanged.
- `deleteIfNotNeeded` reads in one transaction and deletes in another. The
  model runs both as one step, so no interleaving is modelled.
- The server-operation store's key path is not visible. Server operations form
  a set, so re-adding the same operation is not an error in the model.
- Stored operation payloads are not modelled. Neither is the model data
  written by `createLocalModel`, `putModelState`, `updateOfflineModel` or
  `snapshotModel`.
- The IdbModelStore readers are left out because they only read:
  - `getModelState`;
  - `getModelCreationData`;
  - `modelExists`;
  - `getDirtyModelIds`;
  - `getDeletedModelIds`;
  - `getAllModelMetaData`;
  - `getSubscribedModels`.
- Network requests and response decoding in `IdentityService` are left out:
  - `request`;
  - `toDomainUser`;
  - `groups`;
  - `groupsForUsers`.

  `toUserFieldCode` is a function parameter.
- `Identity.Users` does not model the `Set`-based removal of repeated ids.
  That removal compares objects by identity, so it only collapses the very
  same `DomainUserId` object passed twice.
- `Deferred`: the wrapped promise, its callbacks and `resolveFromPromise` are
  not modelled.

## Findings

| source | as written | input that shows it | evidently intended | confidence | as-written member | corrected member |
|---|---|---|---|---|---|---|
| src/main/util/Deferred.ts:38-40 | `isPending` returns `resolved \|\| rejected`, true once settled | a freshly constructed Deferred reports not pending; after `resolve()` it reports pending | pending exactly while neither resolved nor rejected | not executed | Util.PendingAsWritten | Util.PendingCorrected |
