/**
 * Transformation functions of the model layer (src/main/model/ot/xform):
 * the array replace-against-insert operation transformation, and the
 * re-anchoring of string index references under concurrent string edits.
 */
module ModelXform {
  import opened Wrappers
  import opened Values
  import opened ModelOps

  /** The transformed server operation and the transformed client operation. */
  datatype OperationPair<S, C> = OperationPair(serverOp: S, clientOp: C)

  // ---------------------------------------------------------------------------
  // Applying array and string operations (the meaning the transformations preserve)
  // ---------------------------------------------------------------------------

  function ApplyArrayReplace(a: seq<DataValue>, op: ArrayReplaceOperation): (r: seq<DataValue>)
    requires 0 <= op.index < |a|
  {
    if op.noOp then a else a[op.index := op.value]
  }

  function ApplyArrayInsert(a: seq<DataValue>, op: ArrayInsertOperation): (r: seq<DataValue>)
    requires 0 <= op.index <= |a|
  {
    if op.noOp then a else a[..op.index] + [op.value] + a[op.index..]
  }

  function ApplyStringInsert(s: string, op: StringInsertOperation): (r: string)
    requires 0 <= op.index <= |s|
  {
    if op.noOp then s else s[..op.index] + op.value + s[op.index..]
  }

  /** The string after removing `op.value` at `op.index`; the removed text must be what is there. */
  function ApplyStringRemove(s: string, op: StringRemoveOperation): (r: string)
    requires 0 <= op.index && op.index + |op.value| <= |s|
  {
    if op.noOp then s else s[..op.index] + s[op.index + |op.value|..]
  }

  // ---------------------------------------------------------------------------
  // ArrayReplaceInsertOTF
  // ---------------------------------------------------------------------------

  /**
   * Server replace `s` against concurrent client insert `c`. A replace strictly
   * before the insert is unaffected; at or after the insert point (ties included)
   * it moves one place right. The insert is never changed.
   */
  function ArrayReplaceInsertOTF(s: ArrayReplaceOperation, c: ArrayInsertOperation)
    : (p: OperationPair<ArrayReplaceOperation, ArrayInsertOperation>)
    ensures p.clientOp == c
    ensures s.index < c.index ==> p.serverOp == s
    ensures s.index >= c.index ==> p.serverOp.index == s.index + 1
    ensures p.serverOp.id == s.id && p.serverOp.noOp == s.noOp && p.serverOp.value == s.value
  {
    if s.index < c.index then
      OperationPair(s, c)
    else
      OperationPair(s.Copy(NoArrayReplaceUpdates.(index := Some(s.index + 1))), c)
  }

  /**
   * Convergence: the client applies its insert and then the transformed replace;
   * the server applies the replace and then the (unchanged) insert; both reach
   * the same array.
   */
  lemma ArrayReplaceInsertConverges(a: seq<DataValue>, s: ArrayReplaceOperation, c: ArrayInsertOperation)
    requires 0 <= s.index < |a| && 0 <= c.index <= |a|
    requires !c.noOp
    ensures var p := ArrayReplaceInsertOTF(s, c);
      && 0 <= p.serverOp.index < |ApplyArrayInsert(a, c)|
      && 0 <= p.clientOp.index <= |ApplyArrayReplace(a, s)|
      && ApplyArrayReplace(ApplyArrayInsert(a, c), p.serverOp) == ApplyArrayInsert(ApplyArrayReplace(a, s), p.clientOp)
  {
    var p := ArrayReplaceInsertOTF(s, c);
    var left := ApplyArrayReplace(ApplyArrayInsert(a, c), p.serverOp);
    var right := ApplyArrayInsert(ApplyArrayReplace(a, s), p.clientOp);
    if !s.noOp {
      assert |left| == |right|;
      forall k | 0 <= k < |left| ensures left[k] == right[k] {
        if s.index < c.index {
          assert p.serverOp == s;
        }
      }
    }
  }

  // ---------------------------------------------------------------------------
  // IndexTransformer (stand-in)
  //
  // IndexTransformer.ts is not part of this model. HandleInsert and HandleRemove
  // follow the documented rule: an insertion shifts every position at or after
  // it; a removal shifts positions after the removed span back and clamps
  // positions inside the span to its start.
  // ---------------------------------------------------------------------------

  function InsertPosition(p: int, at: int, count: int): int
  {
    if p >= at then p + count else p
  }

  function RemovePosition(p: int, at: int, count: int): int
  {
    if p >= at + count then p - count else if p >= at then at else p
  }

  function HandleInsert(positions: seq<int>, at: int, count: int): (r: seq<int>)
    ensures |r| == |positions|
  {
    seq(|positions|, k requires 0 <= k < |positions| => InsertPosition(positions[k], at, count))
  }

  function HandleRemove(positions: seq<int>, at: int, count: int): (r: seq<int>)
    ensures |r| == |positions|
  {
    seq(|positions|, k requires 0 <= k < |positions| => RemovePosition(positions[k], at, count))
  }

  /** Removing what was just inserted at the same offset gives back every position. */
  lemma {:induction false} HandleRemoveUndoesHandleInsert(positions: seq<int>, at: int, count: nat)
    ensures HandleRemove(HandleInsert(positions, at, count), at, count) == positions
  {
    var r := HandleRemove(HandleInsert(positions, at, count), at, count);
    forall k | 0 <= k < |positions| ensures r[k] == positions[k] {
      assert HandleInsert(positions, at, count)[k] == InsertPosition(positions[k], at, count);
    }
  }

  // ---------------------------------------------------------------------------
  // IndexTransformationFunctions
  // ---------------------------------------------------------------------------

  datatype ReferenceType = INDEX | RANGE | PROPERTY | ELEMENT

  /** A reference record: its kind, the element it is on, its key and its positions. */
  datatype ModelReferenceData = ModelReferenceData(kind: ReferenceType, valueId: string, key: string, values: seq<int>)

  /** A concurrent string insert shifts the reference's positions by the inserted length. */
  function StringInsertIndexTransformation(o: StringInsertOperation, r: ModelReferenceData): (res: Option<ModelReferenceData>)
    ensures res.Some?
    ensures res.value.values == HandleInsert(r.values, o.index, |o.value|)
    ensures res.value.kind == r.kind && res.value.valueId == r.valueId && res.value.key == r.key
  {
    Some(r.(values := HandleInsert(r.values, o.index, |o.value|)))
  }

  /** A concurrent string remove re-anchors by the length of the removed text; it never obsoletes. */
  function StringRemoveIndexTransformation(o: StringRemoveOperation, r: ModelReferenceData): (res: Option<ModelReferenceData>)
    ensures res.Some?
    ensures res.value.values == HandleRemove(r.values, o.index, |o.value|)
    ensures res.value.kind == r.kind && res.value.valueId == r.valueId && res.value.key == r.key
  {
    Some(r.(values := HandleRemove(r.values, o.index, |o.value|)))
  }

  /** A concurrent string set obsoletes every index reference (`null`). */
  function StringSetIndexTransformation(o: StringSetOperation, r: ModelReferenceData): (res: Option<ModelReferenceData>)
    ensures res.None?
  {
    None
  }

  /**
   * A reference re-anchored across a concurrent insert still designates the
   * same characters it designated before the insert.
   */
  lemma {:induction false} StringInsertKeepsAnchors(s: string, o: StringInsertOperation, r: ModelReferenceData, k: nat)
    requires 0 <= o.index <= |s| && !o.noOp
    requires k < |r.values| && 0 <= r.values[k] <= |s|
    ensures var moved := StringInsertIndexTransformation(o, r).value.values;
      var t := ApplyStringInsert(s, o);
      var p := r.values[k];
      && 0 <= moved[k] <= |t|
      && (p < |s| ==> moved[k] < |t| && t[moved[k]] == s[p])
      && (p == |s| ==> moved[k] == |t|)
  {
    var t := ApplyStringInsert(s, o);
    var p := r.values[k];
    assert HandleInsert(r.values, o.index, |o.value|)[k] == InsertPosition(p, o.index, |o.value|);
    if p == |s| {
    } else if p >= o.index {
      assert t[p + |o.value|] == s[o.index..][p - o.index];
    } else {
      assert t[p] == s[..o.index][p];
    }
  }

  /**
   * A reference re-anchored across a concurrent remove designates the same
   * character when that character survives, and the start of the removed span
   * when it was removed.
   */
  lemma {:induction false} StringRemoveKeepsAnchors(s: string, o: StringRemoveOperation, r: ModelReferenceData, k: nat)
    requires 0 <= o.index && o.index + |o.value| <= |s| && !o.noOp
    requires k < |r.values| && 0 <= r.values[k] <= |s|
    ensures var moved := StringRemoveIndexTransformation(o, r).value.values;
      var t := ApplyStringRemove(s, o);
      var p := r.values[k];
      && 0 <= moved[k] <= |t|
      && ((p < o.index || o.index + |o.value| <= p < |s|) ==> moved[k] < |t| && t[moved[k]] == s[p])
      && (o.index <= p < o.index + |o.value| ==> moved[k] == o.index)
      && (p == |s| ==> moved[k] == |t|)
  {
    var t := ApplyStringRemove(s, o);
    var p := r.values[k];
    var n := |o.value|;
    assert HandleRemove(r.values, o.index, n)[k] == RemovePosition(p, o.index, n);
    if p == |s| {
    } else if p >= o.index + n {
      assert t[p - n] == s[o.index + n..][p - n - o.index];
    } else if p < o.index {
      assert t[p] == s[..o.index][p];
    }
  }
}
