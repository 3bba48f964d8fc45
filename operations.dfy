/**
 * What each entry point of libmapi/IUnknown.c returns, sends and writes,
 * as functions of the global state and of the transaction's answer, with
 * the lemmas that state the library's promises about them. The class in
 * iunknown.dfy is proved to behave as these functions say.
 */
module Operations {
  import opened MapiTypes
  import opened Envelope

  /**
   * The observable result of one remote call: the value returned with the
   * code left in errno, the request handed to the transaction (None when none
   * was attempted) and the value written to the caller's output (None when it
   * is left untouched).
   */
  datatype Outcome<T> = Outcome(report: Report, sent: Option<MapiRequest>, output: Option<T>)

  /** A call refused before any transaction is built. */
  function Rejected<T>(code: uint32): (outcome: Outcome<T>)
  {
    Outcome(Failed(code), None, None)
  }

  /** The checks every remote entry point makes first, in source order. */
  function SanityCheck(initialized: bool, obj: Option<MapiObject>): (refusal: Option<uint32>)
  {
    if !initialized then Some(NotInitialized)
    else if obj.None? then Some(InvalidParameter)
    else if !HasSession(obj) then Some(InvalidParameter)
    else None
  }

  function ReleaseOutcome(initialized: bool, obj: Option<MapiObject>,
                          transact: MapiRequest -> Transaction<()>): (outcome: Outcome<()>)
  {
    if !initialized then Rejected(NotInitialized)
    else if !HasSession(obj) then Rejected(InvalidParameter)
    else
      var request := RequestFor(ReleaseRequest, obj.value.handle);
      match transact(request)
      case TransportFailure => Outcome(Failed(CallFailed), Some(request), None)
      case Delivered(_, _) => Outcome(Succeeded, Some(request), Some(()))
  }

  function LongTermIdFromIdOutcome(initialized: bool, obj: Option<MapiObject>, id: uint64,
                                   transact: MapiRequest -> Transaction<LongTermId>): (outcome: Outcome<LongTermId>)
  {
    match SanityCheck(initialized, obj)
    case Some(code) => Rejected(code)
    case None =>
      var request := RequestFor(LongTermIdFromIdRequest(id), obj.value.handle);
      match transact(request)
      case TransportFailure => Outcome(Failed(CallFailed), Some(request), None)
      case Delivered(code, reply) =>
        if code != Success then Outcome(Failed(code), Some(request), None)
        else Outcome(Succeeded, Some(request), Some(Normalized(reply)))
  }

  function IdFromLongTermIdOutcome(initialized: bool, obj: Option<MapiObject>, longTermId: LongTermId,
                                   transact: MapiRequest -> Transaction<uint64>): (outcome: Outcome<uint64>)
  {
    match SanityCheck(initialized, obj)
    case Some(code) => Rejected(code)
    case None =>
      var request := RequestFor(IdFromLongTermIdRequest(longTermId), obj.value.handle);
      match transact(request)
      case TransportFailure => Outcome(Failed(CallFailed), Some(request), None)
      case Delivered(code, reply) =>
        if code != Success then Outcome(Failed(code), Some(request), None)
        else Outcome(Succeeded, Some(request), Some(reply))
  }

  /** What MAPIAllocateBuffer reports and whether the caller receives a buffer. */
  datatype Allocation = Allocation(report: Report, hasBuffer: bool)

  /**
   * MAPIAllocateBuffer as written: after `*ptr = talloc_size(...)` it tests
   * `ptr`, which the assignment has just dereferenced, instead of `*ptr`.
   */
  function AllocateBufferAsWritten(initialized: bool, size: uint32, allocFails: bool): (allocation: Allocation)
  {
    if !initialized then Allocation(Failed(NotInitialized), false)
    else if size == 0 then Allocation(Failed(InvalidParameter), false)
    else Allocation(Succeeded, !allocFails)
  }

  /** As written, a failed allocation is reported as success with no buffer. */
  lemma AllocateBufferAsWrittenMasksFailure(size: uint32)
    requires size != 0
    ensures AllocateBufferAsWritten(true, size, true) == Allocation(Succeeded, false)
    ensures forall init, allocFails :: AllocateBufferAsWritten(init, size, allocFails).report.code != NotEnoughResources
  {
  }

  /**
   * MAPIAllocateBuffer with the intended test of the allocation's result:
   * not initialised first, then a zero size, then allocation failure; every
   * failure returns -1 and leaves its code for GetLastError.
   */
  function AllocateBufferOutcome(initialized: bool, size: uint32, allocFails: bool): (a: Allocation)
    ensures a.hasBuffer <==> a.report.returned == Success
    ensures a.report.returned == Success <==> initialized && size != 0 && !allocFails
    ensures a.report.returned != Success ==> a.report.returned == FailureReturn
    ensures a.report.returned == Success <==> a.report.code == Success
    ensures !initialized ==> a.report.code == NotInitialized
    ensures initialized && size == 0 ==> a.report.code == InvalidParameter
    ensures initialized && size != 0 && allocFails ==> a.report.code == NotEnoughResources
  {
    if !initialized then Allocation(Failed(NotInitialized), false)
    else if size == 0 then Allocation(Failed(InvalidParameter), false)
    else if allocFails then Allocation(Failed(NotEnoughResources), false)
    else Allocation(Succeeded, true)
  }

  /**
   * What MAPIFreeBuffer reports: a NULL pointer and a refused talloc_free
   * both return -1 with InvalidParameter; the subsystem need not be initialised.
   */
  function FreeBufferReport(isNull: bool, freeFails: bool): (r: Report)
    ensures r.returned == Success <==> !isNull && !freeFails
    ensures r.returned == Success <==> r.code == Success
    ensures r.returned != Success ==> r.returned == FailureReturn && r.code == InvalidParameter
  {
    if isNull then Failed(InvalidParameter)
    else if freeFails then Failed(InvalidParameter)
    else Succeeded
  }

  /** Release: precedence of its checks, the request it sends, and that it never reads the reply. */
  lemma ReleaseContract(initialized: bool, obj: Option<MapiObject>, transact: MapiRequest -> Transaction<()>)
    ensures var o := ReleaseOutcome(initialized, obj, transact);
      && (o.report.returned == Success <==> o.report.code == Success)
      && (o.report.returned != Success ==> o.report.returned == FailureReturn)
      && (!initialized ==> o == Rejected(NotInitialized))
      && (initialized && !HasSession(obj) ==> o == Rejected(InvalidParameter))
      && (o.sent.Some? <==> initialized && HasSession(obj))
      && (o.sent.Some? ==> o.sent.value == RequestFor(ReleaseRequest, obj.value.handle)
                           && WellFormed(o.sent.value) && o.sent.value.handles == [obj.value.handle])
      && (o.sent.Some? ==> (o.report.code == CallFailed <==> transact(o.sent.value).TransportFailure?))
      && (o.sent.Some? && transact(o.sent.value).Delivered? ==> o.report == Succeeded)
  {
  }

  /**
   * GetLongTermIdFromId: precedence of its checks, the request it sends, the
   * failure mapping, and that the output is written exactly on success, with
   * the reply's GUID and counter and a zero pad.
   */
  lemma LongTermIdFromIdContract(initialized: bool, obj: Option<MapiObject>, id: uint64,
                                 transact: MapiRequest -> Transaction<LongTermId>)
    ensures var o := LongTermIdFromIdOutcome(initialized, obj, id, transact);
      && (o.report.returned == Success <==> o.report.code == Success)
      && (o.report.returned != Success ==> o.report.returned == FailureReturn)
      && (!initialized ==> o == Rejected(NotInitialized))
      && (initialized && !HasSession(obj) ==> o == Rejected(InvalidParameter))
      && (o.sent.Some? <==> initialized && HasSession(obj))
      && (o.sent.Some? ==> o.sent.value == RequestFor(LongTermIdFromIdRequest(id), obj.value.handle)
                           && WellFormed(o.sent.value) && o.sent.value.handles == [obj.value.handle])
      && (o.sent.Some? && transact(o.sent.value).TransportFailure? ==> o.report == Failed(CallFailed))
      && (o.sent.Some? && transact(o.sent.value).Delivered? ==> o.report.code == transact(o.sent.value).errorCode)
      && (o.output.Some? <==> o.report.returned == Success)
      && (o.output.Some? ==> var reply := transact(o.sent.value).payload;
                             && o.output.value.databaseGuid == reply.databaseGuid
                             && o.output.value.globalCounter == reply.globalCounter
                             && o.output.value.padding == 0)
  {
  }

  /** GetIdFromLongTermId: as LongTermIdFromIdContract, with the reply's Id as output. */
  lemma IdFromLongTermIdContract(initialized: bool, obj: Option<MapiObject>, longTermId: LongTermId,
                                 transact: MapiRequest -> Transaction<uint64>)
    ensures var o := IdFromLongTermIdOutcome(initialized, obj, longTermId, transact);
      && (o.report.returned == Success <==> o.report.code == Success)
      && (o.report.returned != Success ==> o.report.returned == FailureReturn)
      && (!initialized ==> o == Rejected(NotInitialized))
      && (initialized && !HasSession(obj) ==> o == Rejected(InvalidParameter))
      && (o.sent.Some? <==> initialized && HasSession(obj))
      && (o.sent.Some? ==> o.sent.value == RequestFor(IdFromLongTermIdRequest(longTermId), obj.value.handle)
                           && WellFormed(o.sent.value) && o.sent.value.handles == [obj.value.handle])
      && (o.sent.Some? && transact(o.sent.value).TransportFailure? ==> o.report == Failed(CallFailed))
      && (o.sent.Some? && transact(o.sent.value).Delivered? ==> o.report.code == transact(o.sent.value).errorCode)
      && (o.output.Some? <==> o.report.returned == Success)
      && (o.output.Some? ==> o.output.value == transact(o.sent.value).payload)
  {
  }

  /** Normalisation keeps GUID and counter, zeroes the pad, and is idempotent. */
  lemma NormalizedCanonical(ltid: LongTermId)
    ensures Normalized(ltid).databaseGuid == ltid.databaseGuid
    ensures Normalized(ltid).globalCounter == ltid.globalCounter
    ensures Normalized(ltid).padding == 0
    ensures Normalized(Normalized(ltid)) == Normalized(ltid)
    ensures Normalized(ltid) == ltid <==> ltid.padding == 0
  {
  }
}
