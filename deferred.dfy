/** The settled-state flags of `Deferred` (src/main/util/Deferred.ts). */
module Util {

  /**
   * A deferred result. Only its two flags are modelled; the promise it wraps
   * and the callbacks that settle that promise are not.
   */
  class Deferred {
    var resolved: bool
    var rejected: bool

    /** The two flags are never both set. */
    ghost predicate Valid()
      reads this
    {
      !(resolved && rejected)
    }

    constructor ()
      ensures Valid()
      ensures !resolved && !rejected
    {
      rejected := false;
      resolved := false;
    }

    /** As written: true exactly when the deferred has already settled. */
    function IsPending(): (r: bool)
      reads this
      requires Valid()
      ensures r <==> IsResolved() || IsRejected()
    {
      resolved || rejected
    }

    /** As intended: true exactly while the deferred has not settled. */
    function IsPendingCorrected(): (r: bool)
      reads this
      requires Valid()
      ensures r <==> !IsResolved() && !IsRejected()
    {
      !resolved && !rejected
    }

    function IsRejected(): (r: bool)
      reads this
      ensures r <==> rejected
      ensures r && Valid() ==> !resolved
    {
      rejected
    }

    function IsResolved(): (r: bool)
      reads this
      ensures r <==> resolved
      ensures r && Valid() ==> !rejected
    {
      resolved
    }

    method Resolve()
      modifies this
      ensures Valid()
      ensures IsResolved() && !IsRejected()
    {
      rejected := false;
      resolved := true;
    }

    method Reject()
      modifies this
      ensures Valid()
      ensures IsRejected() && !IsResolved()
    {
      rejected := true;
      resolved := false;
    }
  }

  /**
   * What the as-written `IsPending` reports over a deferred's life: not pending
   * when fresh, pending once resolved. The intended answers are the opposite.
   */
  method PendingAsWritten() returns (freshPending: bool, settledPending: bool)
    ensures !freshPending && settledPending
  {
    var d := new Deferred();
    freshPending := d.IsPending();
    d.Resolve();
    settledPending := d.IsPending();
  }

  /** The corrected `IsPendingCorrected`: pending when fresh, no longer pending once resolved or rejected. */
  method PendingCorrected() returns (freshPending: bool, resolvedPending: bool, rejectedPending: bool)
    ensures freshPending && !resolvedPending && !rejectedPending
  {
    var d := new Deferred();
    freshPending := d.IsPendingCorrected();
    d.Resolve();
    resolvedPending := d.IsPendingCorrected();
    var e := new Deferred();
    e.Reject();
    rejectedPending := e.IsPendingCorrected();
  }
}
