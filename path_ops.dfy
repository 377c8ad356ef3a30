/**
 * Path-addressed operations of the older operation layer (src/main/ts/ot/ops):
 * each operation names its target by a path from the document root instead of
 * an element id.
 */
module PathOps {
  import opened Wrappers
  import opened Values

  /** The tag `ObjectRemovePropertyOperation.TYPE`. */
  const OBJECT_REMOVE_PROPERTY_TYPE: string := "ObjectRemoveProperty"

  datatype ObjectRemovePropertyUpdates = ObjectRemovePropertyUpdates(
    path: Option<Path>, noOp: Option<bool>, prop: Option<string>)

  const NoObjectRemovePropertyUpdates := ObjectRemovePropertyUpdates(None, None, None)

  /** Removal of the property `prop` from the object at `path`. */
  datatype ObjectRemovePropertyOperation = ObjectRemovePropertyOperation(path: Path, noOp: bool, prop: string)
  {
    function Type(): string { OBJECT_REMOVE_PROPERTY_TYPE }

    function Copy(u: ObjectRemovePropertyUpdates): (r: ObjectRemovePropertyOperation)
      ensures u.path.Some? ==> r.path == u.path.value
      ensures u.path.None? ==> r.path == path
      ensures u.noOp.Some? ==> r.noOp == u.noOp.value
      ensures u.noOp.None? ==> r.noOp == noOp
      ensures u.prop.Some? ==> r.prop == u.prop.value
      ensures u.prop.None? ==> r.prop == prop
    {
      ObjectRemovePropertyOperation(Update(path, u.path), Update(noOp, u.noOp), Update(prop, u.prop))
    }
  }

  lemma ObjectRemovePropertyCopyWithoutUpdates(op: ObjectRemovePropertyOperation)
    ensures op.Copy(NoObjectRemovePropertyUpdates) == op
    ensures op.Copy(NoObjectRemovePropertyUpdates).Type() == "ObjectRemoveProperty"
  {
  }

  // The two array operations below are used by the transformation functions;
  // their source files are not part of this model, only their fields are.

  datatype ArrayReplaceUpdates = ArrayReplaceUpdates(noOp: Option<bool>)

  /** Replacement of the element at `index` of the array at `path` by `value`. */
  datatype ArrayReplaceOperation = ArrayReplaceOperation(path: Path, noOp: bool, index: int, value: DataValue)
  {
    function Copy(u: ArrayReplaceUpdates): (r: ArrayReplaceOperation)
      ensures u.noOp.Some? ==> r.noOp == u.noOp.value
      ensures u.noOp.None? ==> r.noOp == noOp
      ensures r.path == path && r.index == index && r.value == value
    {
      ArrayReplaceOperation(path, Update(noOp, u.noOp), index, value)
    }
  }

  /** Removal of the element at `index` of the array at `path`. */
  datatype ArrayRemoveOperation = ArrayRemoveOperation(path: Path, noOp: bool, index: int)
}
