/**
 * The string element wrapper `RealTimeString` (src/main/ts/model/rt/RealTimeString.ts):
 * writability checks in front of the string node, get-or-create of local index
 * and range references by key, and the fan-out of string edits to every
 * reference held by the element's reference manager.
 */
module RealTimeStrings {
  import opened Wrappers
  import opened ModelOps
  import ModelXform

  /** The reference kinds a string element creates locally: index and range only. */
  datatype ReferenceType = INDEX | RANGE

  /**
   * A reference held by the reference manager: its kind, its key and its
   * positions (one for an index reference, start and end for a range).
   * This is the element's own view of a local reference. It differs from
   * `ModelXform.ModelReferenceData`, the record the transformer re-anchors:
   * no element id (the element owning the manager is implied) and only the
   * two kinds a string element can create. Both shift their positions with
   * the same `ModelXform.HandleInsert` / `ModelXform.HandleRemove`.
   */
  datatype Reference = Reference(kind: ReferenceType, key: string, values: seq<int>)
  {
    /** `_handleInsert(index, length)`: the positions shift as the index transformer says. */
    function HandleInsert(index: int, length: int): (r: Reference)
      ensures r.kind == kind && r.key == key
      ensures r.values == ModelXform.HandleInsert(values, index, length)
    {
      this.(values := ModelXform.HandleInsert(values, index, length))
    }

    /** `_handleRemove(index, length)`: the positions shift or clamp as the index transformer says. */
    function HandleRemove(index: int, length: int): (r: Reference)
      ensures r.kind == kind && r.key == key
      ensures r.values == ModelXform.HandleRemove(values, index, length)
    {
      this.(values := ModelXform.HandleRemove(values, index, length))
    }
  }

  /** The events the string node reports after an edit; `local` marks edits made by this session. */
  datatype StringNodeEvent =
    | StringNodeInsertEvent(index: int, value: string, local: bool)
    | StringNodeRemoveEvent(index: int, value: string, local: bool)
    | StringNodeSetValueEvent(value: string, local: bool)

  const NOT_WRITABLE_ERROR := "The element is not writable"
  const NOT_INDEX_ERROR := "A reference with this key already exists, but is not an index reference"
  const NOT_RANGE_ERROR := "A reference with this key already exists, but is not a range reference"

  /** The reference map after every reference has received `_handleInsert`. */
  function InsertedAll(refs: map<string, Reference>, index: int, length: int): map<string, Reference>
  {
    map k | k in refs :: refs[k].HandleInsert(index, length)
  }

  /** The reference map after every reference has received `_handleRemove`. */
  function RemovedAll(refs: map<string, Reference>, index: int, length: int): map<string, Reference>
  {
    map k | k in refs :: refs[k].HandleRemove(index, length)
  }

  class RealTimeString {
    const id: string
    var writable: bool
    /** The text held by the string node this element wraps. */
    var value: string
    /** The reference manager's references, by key. */
    var references: map<string, Reference>
    /** Every operation passed to `_sendOperation`, oldest first. */
    var sent: seq<DiscreteOperation>

    constructor (id: string, value: string, writable: bool)
      ensures this.id == id && this.value == value && this.writable == writable
      ensures references == map[] && sent == []
    {
      this.id := id;
      this.value := value;
      this.writable := writable;
      references := map[];
      sent := [];
    }

    function Length(): (n: nat)
      reads this
      ensures n == |value|
    {
      |value|
    }

    /**
     * Inserts `text` at `index` when writable: the node's text changes, a local
     * insert event shifts every reference and sends one insert operation. When
     * not writable nothing changes.
     */
    method Insert(index: int, text: string) returns (r: Outcome)
      requires 0 <= index <= |value|
      modifies this
      ensures r.Fail? <==> !old(writable)
      ensures r.Fail? ==> value == old(value) && references == old(references) && sent == old(sent)
      ensures r.Pass? ==>
        && value == old(value)[..index] + text + old(value)[index..]
        && references == InsertedAll(old(references), index, |text|)
        && sent == old(sent) + [StringInsert(StringInsertOperation(id, false, index, text))]
      ensures writable == old(writable)
    {
      if !writable {
        return Fail(NOT_WRITABLE_ERROR);
      }
      value := value[..index] + text + value[index..];
      HandleReferenceModelEvent(StringNodeInsertEvent(index, text, true));
      return Pass;
    }

    /**
     * Removes `length` characters at `index` when writable: the node's text
     * changes, a local remove event carrying the removed text re-anchors every
     * reference and sends one remove operation. When not writable nothing changes.
     */
    method Remove(index: int, length: int) returns (r: Outcome)
      requires 0 <= index && 0 <= length && index + length <= |value|
      modifies this
      ensures r.Fail? <==> !old(writable)
      ensures r.Fail? ==> value == old(value) && references == old(references) && sent == old(sent)
      ensures r.Pass? ==>
        && value == old(value)[..index] + old(value)[index + length..]
        && references == RemovedAll(old(references), index, length)
        && sent == old(sent) + [StringRemove(StringRemoveOperation(id, false, index, old(value)[index..index + length]))]
      ensures writable == old(writable)
    {
      if !writable {
        return Fail(NOT_WRITABLE_ERROR);
      }
      var removed := value[index..index + length];
      value := value[..index] + value[index + length..];
      HandleReferenceModelEvent(StringNodeRemoveEvent(index, removed, true));
      return Pass;
    }

    /**
     * Returns the reference under `key` when it is an index reference; fails
     * when the key holds a reference of another kind; otherwise creates, adds
     * and returns a new index reference, so that a later call returns it.
     */
    method IndexReference(key: string) returns (r: Result<Reference>)
      modifies this
      ensures key in old(references) && old(references)[key].kind != INDEX ==>
        r == Failure(NOT_INDEX_ERROR) && references == old(references)
      ensures key in old(references) && old(references)[key].kind == INDEX ==>
        r == Success(old(references)[key]) && references == old(references)
      ensures key !in old(references) ==>
        r == Success(Reference(INDEX, key, [])) && references == old(references)[key := r.value]
      ensures value == old(value) && sent == old(sent) && writable == old(writable)
    {
      if key in references {
        var existing := references[key];
        if existing.kind != INDEX {
          return Failure(NOT_INDEX_ERROR);
        }
        return Success(existing);
      }
      var local := Reference(INDEX, key, []);
      references := references[key := local];
      return Success(local);
    }

    /** As `IndexReference`, for range references. */
    method RangeReference(key: string) returns (r: Result<Reference>)
      modifies this
      ensures key in old(references) && old(references)[key].kind != RANGE ==>
        r == Failure(NOT_RANGE_ERROR) && references == old(references)
      ensures key in old(references) && old(references)[key].kind == RANGE ==>
        r == Success(old(references)[key]) && references == old(references)
      ensures key !in old(references) ==>
        r == Success(Reference(RANGE, key, [])) && references == old(references)[key := r.value]
      ensures value == old(value) && sent == old(sent) && writable == old(writable)
    {
      if key in references {
        var existing := references[key];
        if existing.kind != RANGE {
          return Failure(NOT_RANGE_ERROR);
        }
        return Success(existing);
      }
      var local := Reference(RANGE, key, []);
      references := references[key := local];
      return Success(local);
    }

    /**
     * Reacts to an edit reported by the string node: a local edit is sent as an
     * operation; an insert or remove is passed to every reference; a set
     * disposes every reference and empties the manager.
     */
    method HandleReferenceModelEvent(e: StringNodeEvent)
      modifies this
      ensures value == old(value) && writable == old(writable)
      ensures e.StringNodeInsertEvent? ==> references == InsertedAll(old(references), e.index, |e.value|)
      ensures e.StringNodeRemoveEvent? ==> references == RemovedAll(old(references), e.index, |e.value|)
      ensures e.StringNodeSetValueEvent? ==> references == map[]
      ensures sent == old(sent) + (if e.local then [EventOperation(e)] else [])
    {
      if e.local {
        sent := sent + [EventOperation(e)];
      }
      match e
      case StringNodeInsertEvent(index, text, _) =>
        ShiftReferences(e);
      case StringNodeRemoveEvent(index, text, _) =>
        ShiftReferences(e);
      case StringNodeSetValueEvent(_, _) =>
        references := map[];
    }

    /** The operation a local event is sent as. */
    function EventOperation(e: StringNodeEvent): (op: DiscreteOperation)
      reads this
      ensures e.StringNodeInsertEvent? ==> op == StringInsert(StringInsertOperation(id, false, e.index, e.value))
      ensures e.StringNodeRemoveEvent? ==> op == StringRemove(StringRemoveOperation(id, false, e.index, e.value))
      ensures e.StringNodeSetValueEvent? ==> op == StringSet(StringSetOperation(id, false, e.value))
    {
      match e
      case StringNodeInsertEvent(index, text, _) => StringInsert(StringInsertOperation(id, false, index, text))
      case StringNodeRemoveEvent(index, text, _) => StringRemove(StringRemoveOperation(id, false, index, text))
      case StringNodeSetValueEvent(text, _) => StringSet(StringSetOperation(id, false, text))
    }

    /** The `forEach` over the manager's references for an insert or remove event. */
    method ShiftReferences(e: StringNodeEvent)
      requires e.StringNodeInsertEvent? || e.StringNodeRemoveEvent?
      modifies this
      ensures value == old(value) && writable == old(writable) && sent == old(sent)
      ensures e.StringNodeInsertEvent? ==> references == InsertedAll(old(references), e.index, |e.value|)
      ensures e.StringNodeRemoveEvent? ==> references == RemovedAll(old(references), e.index, |e.value|)
    {
      ghost var before := references;
      var target := if e.StringNodeInsertEvent? then InsertedAll(references, e.index, |e.value|)
                    else RemovedAll(references, e.index, |e.value|);
      var todo := references.Keys;
      while todo != {}
        invariant todo <= before.Keys
        invariant references.Keys == before.Keys
        invariant value == old(value) && writable == old(writable) && sent == old(sent)
        invariant forall k :: k in todo ==> references[k] == before[k]
        invariant forall k :: k in before && k !in todo ==> references[k] == target[k]
        decreases todo
      {
        var k :| k in todo;
        var ref := references[k];
        references := references[k := if e.StringNodeInsertEvent? then ref.HandleInsert(e.index, |e.value|)
                                      else ref.HandleRemove(e.index, |e.value|)];
        todo := todo - {k};
      }
      assert references == target;
    }
  }

  /** With no reference under `key`, a second `IndexReference(key)` returns the reference the first one created. */
  method IndexReferenceTwice(s: RealTimeString, key: string) returns (first: Result<Reference>, second: Result<Reference>)
    requires key !in s.references
    modifies s
    ensures first.Success? && second == first && s.references == old(s.references)[key := first.value]
  {
    first := s.IndexReference(key);
    second := s.IndexReference(key);
  }

  /**
   * After a local insert, every position of every reference designates the
   * character it designated before.
   */
  lemma {:induction false} InsertKeepsReferenceAnchors(v: string, index: int, text: string, ref: Reference, j: nat)
    requires 0 <= index <= |v|
    requires j < |ref.values| && 0 <= ref.values[j] <= |v|
    ensures var w := v[..index] + text + v[index..];
      var moved := ref.HandleInsert(index, |text|).values[j];
      && 0 <= moved <= |w|
      && (ref.values[j] < |v| ==> moved < |w| && w[moved] == v[ref.values[j]])
      && (ref.values[j] == |v| ==> moved == |w|)
  {
    var op := StringInsertOperation("", false, index, text);
    var data := ModelXform.ModelReferenceData(ModelXform.INDEX, "", ref.key, ref.values);
    ModelXform.StringInsertKeepsAnchors(v, op, data, j);
  }
}
