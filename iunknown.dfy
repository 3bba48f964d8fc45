/**
 * The entry points of libmapi/IUnknown.c over the global MAPI context.
 * Each remote call checks its preconditions, opens a per-call arena, builds
 * its request, hands it to the transaction, maps the outcome, writes the
 * caller's output field by field on success and releases the arena on
 * every path. The last-error slot is errno.
 */
module IUnknown {
  import opened MapiTypes
  import opened Envelope
  import opened Operations
  import LastError

  /** A region handed out by MAPIAllocateBuffer. */
  class Buffer {
    const size: uint32
    var live: bool

    constructor (size: uint32)
      ensures this.size == size && live
    {
      this.size := size;
      live := true;
    }
  }

  /** The caller's struct LongTermId that GetLongTermIdFromId fills in place. */
  class LongTermIdSlot {
    var databaseGuid: Guid
    const globalCounter: array<uint8>
    var padding: uint16

    ghost predicate Valid()
    {
      globalCounter.Length == 6
    }

    function Value(): (value: LongTermId)
      reads this, globalCounter
      requires Valid()
    {
      LongTermId(databaseGuid, globalCounter[..], padding)
    }

    constructor (initial: LongTermId)
      ensures Valid() && fresh(globalCounter)
      ensures Value() == initial
    {
      databaseGuid := initial.databaseGuid;
      globalCounter := new uint8[6](i => if 0 <= i < 6 then initial.globalCounter[i] else 0);
      padding := initial.padding;
      new;
      assert globalCounter[..] == initial.globalCounter;
    }
  }

  /** The caller's mapi_id_t that GetIdFromLongTermId writes through `id`. */
  class IdSlot {
    var value: uint64

    constructor (value: uint64)
      ensures this.value == value
    {
      this.value := value;
    }
  }

  /** The global MAPI context and the last-error slot. */
  class MapiContext {
    /** global_mapi_ctx != NULL */
    var initialized: bool
    /** errno, read by GetLastError */
    var lastError: uint32
    /** per-call talloc contexts opened and not yet released */
    ghost var openArenas: nat

    constructor (initialized: bool)
      ensures this.initialized == initialized
      ensures lastError == Success && openArenas == 0
    {
      this.initialized := initialized;
      lastError := Success;
      openArenas := 0;
    }

    /** A taken MAPI_RETVAL_IF: records the code in the slot and returns -1. */
    method Fail(code: uint32) returns (status: uint32)
      modifies this`lastError
      ensures status == FailureReturn && lastError == code
    {
      lastError := code;
      status := FailureReturn;
    }

    /** MAPIAllocateBuffer, with the allocation's result tested (see AllocateBufferAsWritten). */
    method AllocateBuffer(size: uint32, allocFails: bool) returns (status: uint32, buffer: Buffer?)
      modifies this`lastError
      ensures status == AllocateBufferOutcome(initialized, size, allocFails).report.returned
      ensures buffer != null <==> status == Success
      ensures buffer != null ==> fresh(buffer) && buffer.size == size && buffer.live
      ensures lastError == LastError.Step(initialized, old(lastError), LastError.AllocateBufferCall(size, allocFails))
    {
      buffer := null;
      if !initialized {
        status := Fail(NotInitialized);
        return;
      }
      if size == 0 {
        status := Fail(InvalidParameter);
        return;
      }
      if allocFails {
        status := Fail(NotEnoughResources);
        return;
      }
      buffer := new Buffer(size);
      status := Success;
    }

    /** MAPIFreeBuffer; `freeFails` is talloc_free's refusal, which it reports as -1. */
    method FreeBuffer(buffer: Buffer?, freeFails: bool) returns (status: uint32)
      requires buffer != null ==> buffer.live
      modifies this`lastError, buffer
      ensures status == FreeBufferReport(buffer == null, freeFails).returned
      ensures buffer != null ==> buffer.live == (status != Success)
      ensures lastError == LastError.Step(initialized, old(lastError), LastError.FreeBufferCall(buffer == null, freeFails))
    {
      if buffer == null {
        status := Fail(InvalidParameter);
        return;
      }
      // talloc_free's int result stored in a uint32: -1 arrives as 0xFFFF_FFFF
      var ret: uint32 := if freeFails then 0xFFFF_FFFF else 0;
      if ret == 0xFFFF_FFFF {
        status := Fail(InvalidParameter);
        return;
      }
      buffer.live := false;
      status := Success;
    }

    /** GetLastError: the slot's value; nothing changes. */
    method GetLastError() returns (status: uint32)
      ensures status == lastError
    {
      status := lastError;
    }

    /** Release: RopRelease on `obj`; the reply's error code is never read. */
    method Release(obj: Option<MapiObject>, transact: MapiRequest -> Transaction<()>)
      returns (status: uint32, sent: Option<MapiRequest>)
      modifies this`lastError, this`openArenas
      ensures var o := ReleaseOutcome(initialized, obj, transact);
        status == o.report.returned && lastError == o.report.code && sent == o.sent
      ensures lastError == LastError.Step(initialized, old(lastError), LastError.ReleaseCall(obj, transact))
      ensures openArenas == old(openArenas)
    {
      sent := None;
      if !initialized {
        status := Fail(NotInitialized);
        return;
      }
      if !HasSession(obj) {
        status := Fail(InvalidParameter);
        return;
      }
      openArenas := openArenas + 1;
      var request := BuildRequest(ReleaseRequest, obj.value.handle);
      sent := Some(request);
      var reply := transact(request);
      if reply.TransportFailure? {
        openArenas := openArenas - 1;
        status := Fail(CallFailed);
        return;
      }
      openArenas := openArenas - 1;
      lastError := Success;
      status := Success;
    }

    /**
     * GetLongTermIdFromId: RopLongTermIdFromId for `id`; on success the
     * reply's GUID and each of the six counter bytes are copied into
     * `longTermId` and its pad is set to zero; on failure it is untouched.
     */
    method GetLongTermIdFromId(obj: Option<MapiObject>, id: uint64, longTermId: LongTermIdSlot,
                               transact: MapiRequest -> Transaction<LongTermId>)
      returns (status: uint32, sent: Option<MapiRequest>)
      requires longTermId.Valid()
      modifies this`lastError, this`openArenas, longTermId, longTermId.globalCounter
      ensures longTermId.Valid()
      ensures var o := LongTermIdFromIdOutcome(initialized, obj, id, transact);
        && status == o.report.returned && lastError == o.report.code && sent == o.sent
        && (o.output.Some? ==> longTermId.Value() == o.output.value)
        && (o.output.None? ==> unchanged(longTermId, longTermId.globalCounter))
      ensures lastError == LastError.Step(initialized, old(lastError), LastError.LongTermIdFromIdCall(obj, id, transact))
      ensures openArenas == old(openArenas)
    {
      sent := None;
      if !initialized {
        status := Fail(NotInitialized);
        return;
      }
      if obj.None? {
        status := Fail(InvalidParameter);
        return;
      }
      if !HasSession(obj) {
        status := Fail(InvalidParameter);
        return;
      }
      openArenas := openArenas + 1;
      var request := BuildRequest(LongTermIdFromIdRequest(id), obj.value.handle);
      sent := Some(request);
      var reply := transact(request);
      if reply.TransportFailure? {
        openArenas := openArenas - 1;
        status := Fail(CallFailed);
        return;
      }
      if reply.errorCode != Success {
        openArenas := openArenas - 1;
        status := Fail(reply.errorCode);
        return;
      }
      var payload := reply.payload;
      longTermId.databaseGuid := payload.databaseGuid;
      for i := 0 to 6
        modifies longTermId.globalCounter
        invariant forall j :: 0 <= j < i ==> longTermId.globalCounter[j] == payload.globalCounter[j]
      {
        longTermId.globalCounter[i] := payload.globalCounter[i];
      }
      longTermId.padding := 0;
      assert longTermId.globalCounter[..] == payload.globalCounter;
      openArenas := openArenas - 1;
      lastError := Success;
      status := Success;
    }

    /**
     * GetIdFromLongTermId: RopIdFromLongTermId for `longTermId`; on success
     * the reply's Id is written through `id`; on failure `id` is untouched.
     */
    method GetIdFromLongTermId(obj: Option<MapiObject>, longTermId: LongTermId, id: IdSlot,
                               transact: MapiRequest -> Transaction<uint64>)
      returns (status: uint32, sent: Option<MapiRequest>)
      modifies this`lastError, this`openArenas, id
      ensures var o := IdFromLongTermIdOutcome(initialized, obj, longTermId, transact);
        && status == o.report.returned && lastError == o.report.code && sent == o.sent
        && (o.output.Some? ==> id.value == o.output.value)
        && (o.output.None? ==> unchanged(id))
      ensures lastError == LastError.Step(initialized, old(lastError), LastError.IdFromLongTermIdCall(obj, longTermId, transact))
      ensures openArenas == old(openArenas)
    {
      sent := None;
      if !initialized {
        status := Fail(NotInitialized);
        return;
      }
      if obj.None? {
        status := Fail(InvalidParameter);
        return;
      }
      if !HasSession(obj) {
        status := Fail(InvalidParameter);
        return;
      }
      openArenas := openArenas + 1;
      var request := BuildRequest(IdFromLongTermIdRequest(longTermId), obj.value.handle);
      sent := Some(request);
      var reply := transact(request);
      if reply.TransportFailure? {
        openArenas := openArenas - 1;
        status := Fail(CallFailed);
        return;
      }
      if reply.errorCode != Success {
        openArenas := openArenas - 1;
        status := Fail(reply.errorCode);
        return;
      }
      id.value := reply.payload;
      openArenas := openArenas - 1;
      lastError := Success;
      status := Success;
    }
  }

  /**
   * What a caller can conclude from the contracts alone: translating id 42
   * against a server that answers with a LongTermId whose pad is non-zero
   * stores the reply with a zero pad, and clears the last-error slot.
   */
  method LongTermIdClient(guid: Guid)
  {
    var ctx := new MapiContext(true);
    var out := new LongTermIdSlot(LongTermId(guid, [0, 0, 0, 0, 0, 0], 0));
    var obj := Some(MapiObject(true, 0x1234));
    var wire := LongTermId(guid, [1, 0, 0, 0, 0, 7], 0xBEEF);
    var status, sent := ctx.GetLongTermIdFromId(obj, 42, out, (r: MapiRequest) => Delivered(Success, wire));
    assert sent == Some(RequestFor(LongTermIdFromIdRequest(42), 0x1234));
    assert status == Success;
    assert out.Value() == LongTermId(guid, [1, 0, 0, 0, 0, 7], 0);
    var last := ctx.GetLastError();
    assert last == Success;

    var refused := new MapiContext(false);
    var before := out.Value();
    status, sent := refused.GetLongTermIdFromId(obj, 42, out, (r: MapiRequest) => Delivered(Success, wire));
    assert status == FailureReturn && sent == None && out.Value() == before;
    last := refused.GetLastError();
    assert last == NotInitialized;
  }
}
