/**
 * Transformation functions of the path-addressed operation layer
 * (src/main/ts/ot/xform): array replace against array replace, and the
 * rebasing of a descendant path across an ancestor array remove.
 */
module PathXform {
  import opened Wrappers
  import opened Values
  import opened PathOps

  /** The transformed server operation and the transformed client operation. */
  datatype OperationPair = OperationPair(serverOp: ArrayReplaceOperation, clientOp: ArrayReplaceOperation)

  /** The array after a replace; a no-op replace has no effect. */
  function ApplyArrayReplace(a: seq<DataValue>, op: ArrayReplaceOperation): (r: seq<DataValue>)
    requires 0 <= op.index < |a|
  {
    if op.noOp then a else a[op.index := op.value]
  }

  // ---------------------------------------------------------------------------
  // ArrayReplaceReplaceOTF
  // ---------------------------------------------------------------------------

  /**
   * Replace against replace on the same array. Different indices do not
   * interact. At the same index the server's value wins: the client's replace
   * becomes a no-op, and when both carry the same value both become no-ops.
   */
  function ArrayReplaceReplaceOTF(s: ArrayReplaceOperation, c: ArrayReplaceOperation): (p: OperationPair)
    ensures s.index != c.index ==> p.serverOp == s && p.clientOp == c
    ensures s.index == c.index && s.value != c.value ==> p.serverOp == s && p.clientOp.noOp
    ensures s.index == c.index && s.value == c.value ==> p.serverOp.noOp && p.clientOp.noOp
    ensures p.serverOp == s.(noOp := p.serverOp.noOp) && p.clientOp == c.(noOp := p.clientOp.noOp)
  {
    if s.index != c.index then
      OperationPair(s, c)
    else if s.value != c.value then
      OperationPair(s, c.Copy(ArrayReplaceUpdates(Some(true))))
    else
      OperationPair(s.Copy(ArrayReplaceUpdates(Some(true))), c.Copy(ArrayReplaceUpdates(Some(true))))
  }

  /**
   * Convergence: applying the server's replace and then the transformed client
   * replace gives the same array as applying the client's replace and then the
   * transformed server replace; at a shared index the server's value remains.
   */
  lemma ArrayReplaceReplaceConverges(a: seq<DataValue>, s: ArrayReplaceOperation, c: ArrayReplaceOperation)
    requires 0 <= s.index < |a| && 0 <= c.index < |a|
    requires !s.noOp && !c.noOp
    ensures var p := ArrayReplaceReplaceOTF(s, c);
      && ApplyArrayReplace(ApplyArrayReplace(a, s), p.clientOp) == ApplyArrayReplace(ApplyArrayReplace(a, c), p.serverOp)
      && (s.index == c.index ==> ApplyArrayReplace(ApplyArrayReplace(a, s), p.clientOp)[s.index] == s.value)
  {
    var p := ArrayReplaceReplaceOTF(s, c);
    if s.index != c.index {
      var left := ApplyArrayReplace(ApplyArrayReplace(a, s), p.clientOp);
      var right := ApplyArrayReplace(ApplyArrayReplace(a, c), p.serverOp);
      assert left == a[s.index := s.value][c.index := c.value];
      assert right == a[c.index := c.value][s.index := s.value];
    }
  }

  // ---------------------------------------------------------------------------
  // ArrayRemovePTF
  // ---------------------------------------------------------------------------

  datatype PathTransformationResult = PathUpdated | PathObsoleted | NoTransformation

  /**
   * The outcome of rebasing a path and the new path. `path` is `None` where the
   * source returns its never-assigned `newPath` (that is, `undefined`).
   */
  datatype PathTransformation = PathTransformation(result: PathTransformationResult, path: Option<Path>)

  /** The descendant has an array index just below the ancestor path. */
  predicate HasIndexBelow(ancestor: ArrayRemoveOperation, descendantPath: Path)
  {
    |ancestor.path| < |descendantPath| && descendantPath[|ancestor.path|].Index?
  }

  /**
   * Rebases `descendantPath` across an array remove at `ancestor.path`. The
   * array index examined is the descendant's element just below the ancestor
   * path. When there is none (the path is too short, or holds a property name
   * there), every comparison with it is false and nothing is transformed.
   */
  function TransformDescendantPath(ancestor: ArrayRemoveOperation, descendantPath: Path): (t: PathTransformation)
    ensures !HasIndexBelow(ancestor, descendantPath) ==> t == PathTransformation(NoTransformation, None)
    ensures HasIndexBelow(ancestor, descendantPath) ==>
      var i := descendantPath[|ancestor.path|].i;
      && (t.result == PathUpdated <==> ancestor.index < i)
      && (t.result == PathObsoleted <==> ancestor.index == i)
      && (t.result == NoTransformation <==> ancestor.index > i)
    ensures t.result == PathUpdated ==>
      && HasIndexBelow(ancestor, descendantPath)
      && t.path.Some?
      && |t.path.value| == |descendantPath|
      && t.path.value[|ancestor.path|] == Index(descendantPath[|ancestor.path|].i - 1)
      && (forall k :: 0 <= k < |descendantPath| && k != |ancestor.path| ==> t.path.value[k] == descendantPath[k])
    ensures t.result != PathUpdated ==> t.path.None?
  {
    var n := |ancestor.path|;
    if !HasIndexBelow(ancestor, descendantPath) then
      PathTransformation(NoTransformation, None)
    else
      var i := descendantPath[n].i;
      if ancestor.index < i then
        PathTransformation(PathUpdated, Some(descendantPath[n := Index(i - 1)]))
      else if ancestor.index == i then
        PathTransformation(PathObsoleted, None)
      else
        PathTransformation(NoTransformation, None)
  }

  /** The array after removing the element at `index`. */
  function RemoveAt<T>(a: seq<T>, index: int): (r: seq<T>)
    requires 0 <= index < |a|
  {
    a[..index] + a[index + 1..]
  }

  /**
   * What the three outcomes mean for the array the paths point into: an updated
   * index designates the same element after the remove, an untransformed one
   * still designates it in place, and an obsoleted one designated the removed
   * element.
   */
  lemma {:induction false} ArrayRemovePTFIsSound<T>(a: seq<T>, ancestor: ArrayRemoveOperation, descendantPath: Path)
    requires HasIndexBelow(ancestor, descendantPath)
    requires 0 <= ancestor.index < |a| && 0 <= descendantPath[|ancestor.path|].i < |a|
    ensures var t := TransformDescendantPath(ancestor, descendantPath);
      var i := descendantPath[|ancestor.path|].i;
      var b := RemoveAt(a, ancestor.index);
      && (t.result == PathUpdated ==> 0 <= i - 1 < |b| && b[i - 1] == a[i])
      && (t.result == NoTransformation ==> i < |b| && b[i] == a[i])
      && (t.result == PathObsoleted ==> i == ancestor.index)
  {
    var i := descendantPath[|ancestor.path|].i;
    var b := RemoveAt(a, ancestor.index);
    if ancestor.index < i {
      assert b[i - 1] == a[ancestor.index + 1..][i - 1 - ancestor.index];
    } else if ancestor.index > i {
      assert b[i] == a[..ancestor.index][i];
    }
  }
}
