/**
 * Value types shared by the MAPI client entry points of libmapi/IUnknown.c:
 * fixed-width integers, the MAPISTATUS codes they return, the ROP operation
 * numbers, the LongTermId structure and the caller's view of a MAPI object.
 */
module MapiTypes {

  newtype uint8 = x: int | 0 <= x < 0x100
  newtype uint16 = x: int | 0 <= x < 0x1_0000
  newtype uint32 = x: int | 0 <= x < 0x1_0000_0000
  newtype uint64 = x: int | 0 <= x < 0x1_0000_0000_0000_0000

  /** A possibly-null pointer: None stands for NULL. */
  datatype Option<T> = None | Some(value: T)

  // MAPISTATUS values (section 2.4 of [MS-OXCDATA]).

  /** MAPI_E_SUCCESS */
  const Success: uint32 := 0
  /** MAPI_E_CALL_FAILED: the transport could not complete the transaction */
  const CallFailed: uint32 := 0x8000_4005
  /** MAPI_E_NOT_ENOUGH_RESOURCES */
  const NotEnoughResources: uint32 := 0x8004_010E
  /** MAPI_E_INVALID_PARAMETER */
  const InvalidParameter: uint32 := 0x8007_0057
  /** MAPI_E_NOT_INITIALIZED: the global MAPI context does not exist */
  const NotInitialized: uint32 := 0x8004_0605

  /**
   * What a failing entry point returns: -1 as an enum MAPISTATUS. The MAPI
   * code itself is left in the last-error slot for GetLastError.
   */
  const FailureReturn: uint32 := 0xFFFF_FFFF

  /** The value an entry point returns and the MAPI code it stands for. */
  datatype Report = Report(returned: uint32, code: uint32)

  /** MAPI_E_SUCCESS returned, no error code. */
  const Succeeded := Report(Success, Success)

  /** A taken MAPI_RETVAL_IF: -1 returned, `code` recorded. */
  function Failed(code: uint32): (r: Report)
    ensures r.returned != Success && r.code == code
  {
    Report(FailureReturn, code)
  }

  // ROP identifiers (sections 2.2.15.3, 2.2.3.8 and 2.2.3.9 of [MS-OXCROPS]).

  /** op_MAPI_Release */
  const OpRelease: uint8 := 0x01
  /** op_MAPI_LongTermIdFromId */
  const OpLongTermIdFromId: uint8 := 0x43
  /** op_MAPI_IdFromLongTermId */
  const OpIdFromLongTermId: uint8 := 0x44

  // Byte counts the request builder adds to its size accumulator.

  /** sizeof(mapi_id_t), a 64-bit identifier */
  const MapiIdSize: nat := 8
  /** sizeof(struct LongTermId): 16-byte GUID, 6-byte counter, 2-byte pad */
  const LongTermIdSize: nat := 24
  /** the fixed per-operation header cost added for every ROP */
  const RopHeaderSize: nat := 5
  /** sizeof(uint32_t), which the builder adds to the size to get mapi_len */
  const Uint32Size: nat := 4

  type GuidBytes = s: seq<uint8> | |s| == 16 witness seq(16, _ => 0)

  /** A store GUID, copied as one value. */
  datatype Guid = Guid(bytes: GuidBytes)

  /** The uint8 GlobalCounter[6] array of a LongTermId. */
  type GlobalCounter = s: seq<uint8> | |s| == 6 witness [0, 0, 0, 0, 0, 0]

  /** struct LongTermId (section 2.2.1.3.1 of [MS-OXCDATA]). */
  datatype LongTermId = LongTermId(databaseGuid: Guid, globalCounter: GlobalCounter, padding: uint16)

  /** The value a successful GetLongTermIdFromId stores: the reply with its pad zeroed. */
  function Normalized(ltid: LongTermId): (normal: LongTermId)
  {
    ltid.(padding := 0)
  }

  /**
   * A mapi_object_t as the entry points see it through its accessors:
   * whether mapi_object_get_session finds a session, and the handle
   * mapi_object_get_handle returns.
   */
  datatype MapiObject = MapiObject(hasSession: bool, handle: uint32)

  /** mapi_object_get_session(obj) != NULL; a NULL object has no session. */
  predicate HasSession(obj: Option<MapiObject>)
  {
    obj.Some? && obj.value.hasSession
  }
}
