/**
 * The single-operation request that every remote entry point builds
 * (struct mapi_request holding one struct EcDoRpc_MAPI_REQ), its size
 * accounting, and the shape of what the transaction hands back.
 */
module Envelope {
  import opened MapiTypes

  /** The operation-specific part of EcDoRpc_MAPI_REQ (its union `u`). */
  datatype RopRequest =
    | ReleaseRequest
    | LongTermIdFromIdRequest(id: uint64)
    | IdFromLongTermIdRequest(longTermId: LongTermId)

  /** struct EcDoRpc_MAPI_REQ */
  datatype MapiReq = MapiReq(opnum: uint8, logonId: uint8, handleIdx: uint8, rop: RopRequest)

  /** struct mapi_request */
  datatype MapiRequest = MapiRequest(mapiLen: uint32, length: uint32, mapiReq: MapiReq, handles: seq<uint32>)

  /**
   * What emsmdb_transaction yields: a transport failure (a non-OK NTSTATUS),
   * or a reply carrying the remote error_code and the operation's reply payload.
   */
  datatype Transaction<R> = TransportFailure | Delivered(errorCode: uint32, payload: R)

  function OpnumOf(rop: RopRequest): (opnum: uint8)
  {
    match rop
    case ReleaseRequest => OpRelease
    case LongTermIdFromIdRequest(_) => OpLongTermIdFromId
    case IdFromLongTermIdRequest(_) => OpIdFromLongTermId
  }

  /** The bytes the operation's own fields add to the size accumulator. */
  function PayloadSize(rop: RopRequest): (size: nat)
  {
    match rop
    case ReleaseRequest => 0
    case LongTermIdFromIdRequest(_) => MapiIdSize
    case IdFromLongTermIdRequest(_) => LongTermIdSize
  }

  /**
   * The envelope invariant: opnum matches the operation, logon id and handle
   * index are 0, length is payload plus the 5-byte header, the outer length
   * adds sizeof(uint32_t), and there is exactly one handle.
   */
  predicate WellFormed(request: MapiRequest)
  {
    && request.mapiReq.opnum == OpnumOf(request.mapiReq.rop)
    && request.mapiReq.logonId == 0
    && request.mapiReq.handleIdx == 0
    && request.length as int == PayloadSize(request.mapiReq.rop) + RopHeaderSize
    && request.mapiLen as int == request.length as int + Uint32Size
    && |request.handles| == 1
  }

  /** The raw handle the request's handle index designates, if it is in range. */
  function ReferencedHandle(request: MapiRequest): (handle: Option<uint32>)
  {
    var idx := request.mapiReq.handleIdx as int;
    if idx < |request.handles| then Some(request.handles[idx]) else None
  }

  /** The request an entry point sends for operation `rop` on an object with `handle`. */
  function RequestFor(rop: RopRequest, handle: uint32): (request: MapiRequest)
  {
    var length := PayloadSize(rop) + RopHeaderSize;
    MapiRequest((length + Uint32Size) as uint32, length as uint32,
                MapiReq(OpnumOf(rop), 0, 0, rop), [handle])
  }

  /**
   * Builds the request step by step as every entry point does: a size
   * accumulator starting at 0 grows by the payload, then by the header, and
   * mapi_len adds sizeof(uint32_t); the handle list holds one entry.
   */
  method BuildRequest(rop: RopRequest, handle: uint32) returns (request: MapiRequest)
    ensures WellFormed(request)
    ensures request.mapiReq.rop == rop
    ensures request.handles == [handle]
    ensures ReferencedHandle(request) == Some(handle)
    ensures request == RequestFor(rop, handle)
  {
    var size: uint32 := 0;
    size := size + PayloadSize(rop) as uint32;
    var mapiReq := MapiReq(OpnumOf(rop), 0, 0, rop);
    size := size + RopHeaderSize as uint32;
    var handles := [handle];
    request := MapiRequest(size + Uint32Size as uint32, size, mapiReq, handles);
  }

  /** The concrete sizes of the three requests: 5/9, 13/17 and 29/33 bytes. */
  lemma RequestSizes(id: uint64, ltid: LongTermId, handle: uint32)
    ensures RequestFor(ReleaseRequest, handle).length == 5
    ensures RequestFor(ReleaseRequest, handle).mapiLen == 9
    ensures RequestFor(LongTermIdFromIdRequest(id), handle).length == 13
    ensures RequestFor(LongTermIdFromIdRequest(id), handle).mapiLen == 17
    ensures RequestFor(IdFromLongTermIdRequest(ltid), handle).length == 29
    ensures RequestFor(IdFromLongTermIdRequest(ltid), handle).mapiLen == 33
  {
  }

  /**
   * A well-formed request determines the operation and the handle it was
   * built from: reading them back and rebuilding gives the same request.
   */
  lemma WellFormedIsRequestFor(request: MapiRequest)
    requires WellFormed(request)
    ensures request == RequestFor(request.mapiReq.rop, request.handles[0])
  {
  }

  /** Distinct operations or handles give distinct requests. */
  lemma RequestForInjective(rop1: RopRequest, handle1: uint32, rop2: RopRequest, handle2: uint32)
    ensures RequestFor(rop1, handle1) == RequestFor(rop2, handle2) <==> rop1 == rop2 && handle1 == handle2
  {
  }
}
