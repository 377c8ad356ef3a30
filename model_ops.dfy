/**
 * Id-addressed operations of the model layer (src/main/ts/model/ot/ops and
 * src/main/ts/model/ot/applied). Every operation is an immutable value: the
 * source freezes each instance and `copy` builds a new one, which a Dafny
 * datatype gives by construction. The type tag is a function of the variant.
 */
module ModelOps {
  import opened Wrappers
  import opened Values

  datatype OperationType =
    | COMPOUND
    | ARRAY_INSERT
    | ARRAY_REPLACE
    | OBJECT_ADD
    | STRING_INSERT
    | STRING_REMOVE
    | STRING_VALUE
    | BOOLEAN_VALUE

  // ---------------------------------------------------------------------------
  // StringRemoveOperation
  // ---------------------------------------------------------------------------

  /** The fields `copy` may override; a `None` field is one the caller left out. */
  datatype StringRemoveUpdates = StringRemoveUpdates(
    id: Option<string>, noOp: Option<bool>, index: Option<int>, value: Option<string>)

  const NoStringRemoveUpdates := StringRemoveUpdates(None, None, None, None)

  /** Removal of the text `value` starting at `index` of the string element `id`. */
  datatype StringRemoveOperation = StringRemoveOperation(id: string, noOp: bool, index: int, value: string)
  {
    function Type(): OperationType { STRING_REMOVE }

    /** A new operation with each supplied field replaced and every other field kept. */
    function Copy(u: StringRemoveUpdates): (r: StringRemoveOperation)
      ensures u.id.Some? ==> r.id == u.id.value
      ensures u.id.None? ==> r.id == id
      ensures u.noOp.Some? ==> r.noOp == u.noOp.value
      ensures u.noOp.None? ==> r.noOp == noOp
      ensures u.index.Some? ==> r.index == u.index.value
      ensures u.index.None? ==> r.index == index
      ensures u.value.Some? ==> r.value == u.value.value
      ensures u.value.None? ==> r.value == value
    {
      StringRemoveOperation(Update(id, u.id), Update(noOp, u.noOp), Update(index, u.index), Update(value, u.value))
    }
  }

  /** `copy({})` gives an operation equal to the original. */
  lemma StringRemoveCopyWithoutUpdates(op: StringRemoveOperation)
    ensures op.Copy(NoStringRemoveUpdates) == op
    ensures op.Copy(NoStringRemoveUpdates).Type() == STRING_REMOVE
  {
  }

  /** Copying twice with the same overrides is the same as copying once. */
  lemma StringRemoveCopyIdempotent(op: StringRemoveOperation, u: StringRemoveUpdates)
    ensures op.Copy(u).Copy(u) == op.Copy(u)
  {
  }

  // ---------------------------------------------------------------------------
  // ObjectAddPropertyOperation
  // ---------------------------------------------------------------------------

  datatype ObjectAddPropertyUpdates = ObjectAddPropertyUpdates(
    id: Option<string>, noOp: Option<bool>, prop: Option<string>, value: Option<DataValue>)

  const NoObjectAddPropertyUpdates := ObjectAddPropertyUpdates(None, None, None, None)

  /** Addition of the property `prop` with `value` to the object element `id`. */
  datatype ObjectAddPropertyOperation = ObjectAddPropertyOperation(id: string, noOp: bool, prop: string, value: DataValue)
  {
    function Type(): OperationType { OBJECT_ADD }

    function Copy(u: ObjectAddPropertyUpdates): (r: ObjectAddPropertyOperation)
      ensures u.id.Some? ==> r.id == u.id.value
      ensures u.id.None? ==> r.id == id
      ensures u.noOp.Some? ==> r.noOp == u.noOp.value
      ensures u.noOp.None? ==> r.noOp == noOp
      ensures u.prop.Some? ==> r.prop == u.prop.value
      ensures u.prop.None? ==> r.prop == prop
      ensures u.value.Some? ==> r.value == u.value.value
      ensures u.value.None? ==> r.value == value
    {
      ObjectAddPropertyOperation(Update(id, u.id), Update(noOp, u.noOp), Update(prop, u.prop), Update(value, u.value))
    }
  }

  lemma ObjectAddPropertyCopyWithoutUpdates(op: ObjectAddPropertyOperation)
    ensures op.Copy(NoObjectAddPropertyUpdates) == op
  {
  }

  /** Overriding only `noOp` keeps the id, the property and the value. */
  lemma ObjectAddPropertyCopyNoOp(op: ObjectAddPropertyOperation, b: bool)
    ensures var r := op.Copy(NoObjectAddPropertyUpdates.(noOp := Some(b)));
      r.noOp == b && r.id == op.id && r.prop == op.prop && r.value == op.value && r.Type() == OBJECT_ADD
  {
  }

  // ---------------------------------------------------------------------------
  // Operations used by the transformation functions. Their source files are not
  // part of this model; only their fields are, and ArrayReplaceOperation's copy
  // follows the same override-or-keep rule as the copies above.
  // ---------------------------------------------------------------------------

  datatype ArrayReplaceUpdates = ArrayReplaceUpdates(
    id: Option<string>, noOp: Option<bool>, index: Option<int>, value: Option<DataValue>)

  const NoArrayReplaceUpdates := ArrayReplaceUpdates(None, None, None, None)

  /** Replacement of the element at `index` of the array element `id` by `value`. */
  datatype ArrayReplaceOperation = ArrayReplaceOperation(id: string, noOp: bool, index: int, value: DataValue)
  {
    function Type(): OperationType { ARRAY_REPLACE }

    function Copy(u: ArrayReplaceUpdates): (r: ArrayReplaceOperation)
      ensures u.id.Some? ==> r.id == u.id.value
      ensures u.id.None? ==> r.id == id
      ensures u.noOp.Some? ==> r.noOp == u.noOp.value
      ensures u.noOp.None? ==> r.noOp == noOp
      ensures u.index.Some? ==> r.index == u.index.value
      ensures u.index.None? ==> r.index == index
      ensures u.value.Some? ==> r.value == u.value.value
      ensures u.value.None? ==> r.value == value
    {
      ArrayReplaceOperation(Update(id, u.id), Update(noOp, u.noOp), Update(index, u.index), Update(value, u.value))
    }
  }

  /** Insertion of `value` at `index` of the array element `id`. */
  datatype ArrayInsertOperation = ArrayInsertOperation(id: string, noOp: bool, index: int, value: DataValue)
  {
    function Type(): OperationType { ARRAY_INSERT }
  }

  /** Insertion of the text `value` at `index` of the string element `id`. */
  datatype StringInsertOperation = StringInsertOperation(id: string, noOp: bool, index: int, value: string)
  {
    function Type(): OperationType { STRING_INSERT }
  }

  /** Replacement of the whole text of the string element `id`. */
  datatype StringSetOperation = StringSetOperation(id: string, noOp: bool, value: string)
  {
    function Type(): OperationType { STRING_VALUE }
  }

  /** The discrete operations a compound operation can hold. */
  datatype DiscreteOperation =
    | ArrayInsert(arrayInsert: ArrayInsertOperation)
    | ArrayReplace(arrayReplace: ArrayReplaceOperation)
    | ObjectAddProperty(objectAdd: ObjectAddPropertyOperation)
    | StringInsert(stringInsert: StringInsertOperation)
    | StringRemove(stringRemove: StringRemoveOperation)
    | StringSet(stringSet: StringSetOperation)

  // ---------------------------------------------------------------------------
  // CompoundOperation
  // ---------------------------------------------------------------------------

  datatype CompoundUpdates = CompoundUpdates(ops: Option<seq<DiscreteOperation>>)

  /** An ordered batch of discrete operations applied and transformed as one unit. */
  datatype CompoundOperation = CompoundOperation(ops: seq<DiscreteOperation>)
  {
    function Type(): OperationType { COMPOUND }

    /** Without `ops` the very same sequence (order included) is kept; with `ops` it is replaced wholesale. */
    function Copy(u: CompoundUpdates): (r: CompoundOperation)
      ensures u.ops.None? ==> r.ops == ops
      ensures u.ops.Some? ==> r.ops == u.ops.value
      ensures r.Type() == COMPOUND
    {
      CompoundOperation(Update(ops, u.ops))
    }
  }

  /** Copying without overrides keeps every constituent at its position. */
  lemma CompoundCopyKeepsOrder(op: CompoundOperation, k: nat)
    requires k < |op.ops|
    ensures |op.Copy(CompoundUpdates(None)).ops| == |op.ops|
    ensures op.Copy(CompoundUpdates(None)).ops[k] == op.ops[k]
  {
  }

  // ---------------------------------------------------------------------------
  // AppliedBooleanSetOperation
  // ---------------------------------------------------------------------------

  /** A boolean set that has been applied, remembering the value it replaced. */
  datatype AppliedBooleanSetOperation = AppliedBooleanSetOperation(id: string, noOp: bool, value: bool, oldValue: bool)
  {
    function Type(): OperationType { BOOLEAN_VALUE }

    /** The operation that undoes this one: the new and old values trade places. */
    function Inverse(): (r: AppliedBooleanSetOperation)
      ensures r.value == oldValue && r.oldValue == value
      ensures r.id == id && r.noOp == noOp
    {
      AppliedBooleanSetOperation(id, noOp, oldValue, value)
    }
  }

  /** Inverting twice gives back the original operation. */
  lemma BooleanSetInverseInvolution(op: AppliedBooleanSetOperation)
    ensures op.Inverse().Inverse() == op
    ensures op.Inverse().Type() == BOOLEAN_VALUE
  {
  }
}
