/**
 * The numeric element wrapper `RealTimeNumber` (src/main/ts/model/RealTimeNumber.ts):
 * a number cell updated in place by local calls, which also send an operation,
 * and by incoming remote operations, which also emit an event.
 */
module RealTimeNumbers {
  import opened Wrappers
  import opened Values

  /** A JavaScript number argument: either NaN or an ordinary value (modelled as an integer). */
  datatype Number = NaN | Num(v: int)

  function Negate(x: Number): (r: Number)
    ensures x.NaN? <==> r.NaN?
    ensures x.Num? ==> r.v == -x.v
  {
    match x
    case NaN => NaN
    case Num(v) => Num(-v)
  }

  /** The operations this element sends: a delta added, or a new value set. */
  datatype NumberOperation =
    | NumberAddOperation(path: Path, noOp: bool, value: int)
    | NumberSetOperation(path: Path, noOp: bool, value: int)

  /** The operation inside an incoming event, dispatched on its type tag. */
  datatype IncomingOperation =
    | IncomingAdd(addValue: Number)
    | IncomingSet(setValue: Number)
    | IncomingOther(opType: string)

  datatype ModelOperationEvent = ModelOperationEvent(
    sessionId: string, username: string, version: int, timestamp: int, operation: IncomingOperation)

  /** The events emitted after applying an incoming operation. */
  datatype NumberEvent =
    | NumberAddEvent(sessionId: string, username: string, version: int, timestamp: int, value: int)
    | NumberSetEvent(sessionId: string, username: string, version: int, timestamp: int, value: int)

  const NAN_ERROR := "Value is NaN"
  const INVALID_OPERATION_ERROR := "Invalid operation!"

  class RealTimeNumber {
    var data: int
    const path: Path
    /** Every operation passed to the send-operation callback, oldest first. */
    var sent: seq<NumberOperation>
    /** Every event emitted to listeners, oldest first. */
    var emitted: seq<NumberEvent>

    constructor (data: int, path: Path)
      ensures this.data == data && this.path == path
      ensures sent == [] && emitted == []
    {
      this.data := data;
      this.path := path;
      sent := [];
      emitted := [];
    }

    /** `value()`: the number currently held. */
    function Value(): (r: int)
      reads this
      ensures r == data
    {
      data
    }

    /** `_validateNumber`: NaN is rejected. */
    static method ValidateNumber(value: Number) returns (r: Outcome)
      ensures r.Pass? <==> value.Num?
      ensures r.Fail? ==> r.error == NAN_ERROR
    {
      if value.NaN? {
        return Fail(NAN_ERROR);
      }
      return Pass;
    }

    /**
     * Adds `value`. A non-zero value changes the number and sends exactly one
     * add operation carrying it; zero changes nothing and sends nothing; NaN
     * fails before anything happens.
     */
    method Add(value: Number) returns (r: Outcome)
      modifies this
      ensures r.Fail? <==> value.NaN?
      ensures value.NaN? || value.v == 0 ==> data == old(data) && sent == old(sent)
      ensures value.Num? && value.v != 0 ==>
        data == old(data) + value.v && sent == old(sent) + [NumberAddOperation(path, false, value.v)]
      ensures emitted == old(emitted)
    {
      r := ValidateNumber(value);
      if r.Fail? {
        return;
      }
      if value.v != 0 {
        var operation := NumberAddOperation(path, false, value.v);
        data := data + value.v;
        sent := sent + [operation];
      }
    }

    /** `subtract(v)` is `add(-v)`. */
    method Subtract(value: Number) returns (r: Outcome)
      modifies this
      ensures r.Fail? <==> value.NaN?
      ensures value.NaN? || value.v == 0 ==> data == old(data) && sent == old(sent)
      ensures value.Num? && value.v != 0 ==>
        data == old(data) - value.v && sent == old(sent) + [NumberAddOperation(path, false, -value.v)]
      ensures emitted == old(emitted)
    {
      r := Add(Negate(value));
    }

    method Increment()
      modifies this
      ensures data == old(data) + 1 && sent == old(sent) + [NumberAddOperation(path, false, 1)]
      ensures emitted == old(emitted)
    {
      var _ := Add(Num(1));
    }

    method Decrement()
      modifies this
      ensures data == old(data) - 1 && sent == old(sent) + [NumberAddOperation(path, false, -1)]
      ensures emitted == old(emitted)
    {
      var _ := Add(Num(-1));
    }

    /** Sets the value and always sends a set operation, even when the value is unchanged. */
    method SetValue(value: Number) returns (r: Outcome)
      modifies this
      ensures r.Fail? <==> value.NaN?
      ensures value.NaN? ==> data == old(data) && sent == old(sent)
      ensures value.Num? ==> data == value.v && sent == old(sent) + [NumberSetOperation(path, false, value.v)]
      ensures emitted == old(emitted)
    {
      if value.NaN? {
        return Fail(NAN_ERROR);
      }
      var operation := NumberSetOperation(path, false, value.v);
      data := value.v;
      sent := sent + [operation];
      return Pass;
    }

    /**
     * Applies a remote operation: an add adds its value, a set replaces the
     * value, each emitting its event; any other operation type fails. Nothing
     * is sent back.
     */
    method HandleIncomingOperation(e: ModelOperationEvent) returns (r: Outcome)
      modifies this
      ensures sent == old(sent)
      ensures e.operation.IncomingOther? ==> r == Fail(INVALID_OPERATION_ERROR)
      ensures r.Fail? ==> data == old(data) && emitted == old(emitted)
      ensures e.operation.IncomingAdd? ==> match e.operation.addValue
        case NaN => r == Fail(NAN_ERROR)
        case Num(v) => (r.Pass? && data == old(data) + v &&
          emitted == old(emitted) + [NumberAddEvent(e.sessionId, e.username, e.version, e.timestamp, v)])
      ensures e.operation.IncomingSet? ==> match e.operation.setValue
        case NaN => r == Fail(NAN_ERROR)
        case Num(v) => (r.Pass? && data == v &&
          emitted == old(emitted) + [NumberSetEvent(e.sessionId, e.username, e.version, e.timestamp, v)])
    {
      match e.operation
      case IncomingAdd(_) =>
        r := HandleAddOperation(e);
      case IncomingSet(_) =>
        r := HandleSetOperation(e);
      case IncomingOther(_) =>
        r := Fail(INVALID_OPERATION_ERROR);
    }

    method HandleAddOperation(e: ModelOperationEvent) returns (r: Outcome)
      requires e.operation.IncomingAdd?
      modifies this
      ensures sent == old(sent)
      ensures r.Fail? <==> e.operation.addValue.NaN?
      ensures r.Fail? ==> r.error == NAN_ERROR && data == old(data) && emitted == old(emitted)
      ensures r.Pass? ==> (data == old(data) + e.operation.addValue.v &&
        emitted == old(emitted) + [NumberAddEvent(e.sessionId, e.username, e.version, e.timestamp, e.operation.addValue.v)])
    {
      var value := e.operation.addValue;
      r := ValidateNumber(value);
      if r.Fail? {
        return;
      }
      data := data + value.v;
      emitted := emitted + [NumberAddEvent(e.sessionId, e.username, e.version, e.timestamp, value.v)];
    }

    method HandleSetOperation(e: ModelOperationEvent) returns (r: Outcome)
      requires e.operation.IncomingSet?
      modifies this
      ensures sent == old(sent)
      ensures r.Fail? <==> e.operation.setValue.NaN?
      ensures r.Fail? ==> r.error == NAN_ERROR && data == old(data) && emitted == old(emitted)
      ensures r.Pass? ==> (data == e.operation.setValue.v &&
        emitted == old(emitted) + [NumberSetEvent(e.sessionId, e.username, e.version, e.timestamp, e.operation.setValue.v)])
    {
      var value := e.operation.setValue;
      r := ValidateNumber(value);
      if r.Fail? {
        return;
      }
      data := value.v;
      emitted := emitted + [NumberSetEvent(e.sessionId, e.username, e.version, e.timestamp, value.v)];
    }
  }

  /**
   * The scenarios the element's test suite checks, starting from 10: add 5
   * gives 15, subtract 5 gives 5, set 20 gives 20, and an incoming add of 5
   * gives 15; subtract sends a delta of -5.
   */
  method TestSuiteScenarios() returns (added: int, subtracted: int, setTo: int, remoteAdded: int, remoteSet: int, delta: NumberOperation)
    ensures added == 15 && subtracted == 5 && setTo == 20 && remoteAdded == 15 && remoteSet == 20
    ensures delta == NumberAddOperation([], false, -5)
  {
    var n := new RealTimeNumber(10, []);
    var _ := n.Add(Num(5));
    added := n.Value();
    n := new RealTimeNumber(10, []);
    var _ := n.Subtract(Num(5));
    subtracted := n.Value();
    delta := n.sent[0];
    n := new RealTimeNumber(10, []);
    var _ := n.SetValue(Num(20));
    setTo := n.Value();
    n := new RealTimeNumber(10, []);
    var _ := n.HandleIncomingOperation(ModelOperationEvent("s", "u", 1, 0, IncomingAdd(Num(5))));
    remoteAdded := n.Value();
    n := new RealTimeNumber(10, []);
    var _ := n.HandleIncomingOperation(ModelOperationEvent("s", "u", 1, 0, IncomingSet(Num(20))));
    remoteSet := n.Value();
  }
}
