# OpenChange libmapi: request/response core of IUnknown.c

This project models the client side of the OpenChange MAPI library's generic remote-call machinery, found in `libmapi/IUnknown.c`. Every remote entry point follows the same steps:

1. It checks the global MAPI context, then the object, then the object's session.
2. It opens a per-call talloc arena.
3. It builds one `EcDoRpc_MAPI_REQ` record with opnum, `logon_id = 0`, `handle_idx = 0` and the ROP payload.
4. It sizes the `mapi_request` envelope with a running byte accumulator (payload, plus 5 for the ROP header; `mapi_len` adds `sizeof(uint32_t)`, 4).
5. It attaches a one-entry handle list that holds the object's handle, and sends the request through `emsmdb_transaction`.
6. It maps the outcome. Every failure goes through `MAPI_RETVAL_IF`, which returns -1 and leaves the MAPI code in `errno`, the last-error slot, for `GetLastError`. A transport failure records `MAPI_E_CALL_FAILED`. A non-zero remote `error_code` is recorded unchanged. On success the function returns `MAPI_E_SUCCESS`, the reply is copied field by field into the caller's output, and `errno` is cleared.

The remote entry points are `Release` (RopRelease), `GetLongTermIdFromId` (RopLongTermIdFromId, section 2.2.3.8 of [MS-OXCROPS]) and `GetIdFromLongTermId` (RopIdFromLongTermId, section 2.2.3.9 of [MS-OXCROPS]). `MAPIAllocateBuffer`, `MAPIFreeBuffer` and `GetLastError` apply simpler rules to the same global context.

Layout:
- `mapi_types.dfy` (module `MapiTypes`): fixed-width integers, MAPISTATUS codes (section 2.4 of [MS-OXCDATA]), ROP opnums, `LongTermId` (section 2.2.1.3.1 of [MS-OXCDATA]) and the caller's view of a `mapi_object_t`.
- `envelope.dfy` (module `Envelope`): `EcDoRpc_MAPI_REQ` and `mapi_request` as datatypes, the envelope invariant `WellFormed`, and `BuildRequest`, which runs the size accumulator step by step.
- `operations.dfy` (module `Operations`): what each entry point returns, sends and writes, as pure functions of the global state and of the transaction's answer. Lemmas state the library's promises about these functions.
- `last_error.dfy` (module `LastError`): the last-error slot across a sequence of calls.
- `iunknown.dfy` (module `IUnknown`): class `MapiContext`, which holds the global context flag, the `errno` slot and a ghost count of open per-call arenas. Its methods are the entry points, proved to agree with `Operations`. The caller's output storage is modelled by `LongTermIdSlot` (filled in place, counter byte by byte) and `IdSlot` (written through the `id` pointer).

The transaction is a parameter `transact: MapiRequest -> Transaction<R>`. It returns either a transport failure or a reply carrying the `error_code` and the operation's reply payload. Because it is a function of the request, the contracts can say which request was sent. An entry point that stops before the transaction reports `sent == None`.

Points of the code worth knowing when reading the model:
- A failing entry point returns -1 (`FailureReturn`, 0xFFFF_FFFF as an enum MAPISTATUS), as the doc comments at lines 38, 74, 102, 176 and 257 say. Each outcome therefore carries a `Report`: the value returned and the MAPI code recorded in `errno`.
- Only the remote calls clear `errno` on success. `MAPIAllocateBuffer` and `MAPIFreeBuffer` do not write it themselves when they succeed (lines 62 and 91). `LastError.SlotMirrorsLatestRecordingCall` states the resulting rule.
- `sizeof(struct LongTermId)` is taken as 24, per section 2.2.1.3.1 of [MS-OXCDATA]: a 16-byte GUID, a 6-byte counter and a 2-byte pad.
- `Release` does not mark the caller's object as released. The model does not either.

## Model

| member | source | states |
|---|---|---|
| `Envelope.BuildRequest` | libmapi/IUnknown.c:209-227 | The accumulated request is well formed: opnum of the operation, logon_id 0, handle_idx 0, length = payload size + 5, mapi_len = length + 4, handle list exactly `[handle]`, and handle index 0 resolves to the object's handle. |
| `Envelope.RequestSizes` | libmapi/IUnknown.c:288-305 | Concrete sizes: Release 5/9, LongTermIdFromId 13/17 (8-byte mapi_id_t), IdFromLongTermId 29/33 (24-byte LongTermId). |
| `Envelope.WellFormedIsRequestFor` | libmapi/IUnknown.c:295-308 | A well-formed request is exactly the one built from its own ROP and its handle entry, so nothing else in it varies. |
| `Envelope.RequestForInjective` | libmapi/IUnknown.c:214-227 | Two requests are equal if and only if they were built for the same ROP payload and the same handle. |
| `Operations.AllocateBufferAsWrittenMasksFailure` | libmapi/IUnknown.c:59-60 | As written, a failed talloc_size is reported as MAPI_E_SUCCESS with no buffer, and MAPI_E_NOT_ENOUGH_RESOURCES is never recorded. |
| `Operations.AllocateBufferOutcome` | libmapi/IUnknown.c:50-63 | A buffer is returned if and only if MAPI_E_SUCCESS is returned, which holds if and only if the context exists, size is non-zero and the allocation succeeds. Every failure returns -1 with its code recorded. Not-initialised takes precedence over zero size, which takes precedence over allocation failure. |
| `Operations.FreeBufferReport` | libmapi/IUnknown.c:82-92 | Success if and only if the pointer is non-NULL and talloc_free accepts it. Every failure returns -1 and records MAPI_E_INVALID_PARAMETER. No initialisation check. |
| `Operations.ReleaseContract` | libmapi/IUnknown.c:112-152 | Returns MAPI_E_SUCCESS exactly when the recorded code is 0, and -1 otherwise. Not-initialised first, then no session, and both refuse without sending. Otherwise exactly the RopRelease request for the object's handle is sent. CALL_FAILED is recorded if and only if the transport fails, and any delivered reply is success whatever its error_code. |
| `Operations.LongTermIdFromIdContract` | libmapi/IUnknown.c:187-245 | Returns MAPI_E_SUCCESS exactly when the recorded code is 0, and -1 otherwise. Precedence NOT_INITIALIZED, then NULL object, then no session, all without sending. Exact request for `id` and the handle. Transport failure records CALL_FAILED, and a delivered reply records its error_code verbatim. The output is written if and only if MAPI_E_SUCCESS is returned, with the reply's GUID and six counter bytes and pad 0. |
| `Operations.IdFromLongTermIdContract` | libmapi/IUnknown.c:268-322 | Same return values, precedence and failure mapping for the LongTermId lookup. The exact request carries the caller's LongTermId. `*id` is written if and only if MAPI_E_SUCCESS is returned, and then equals the reply's Id. |
| `Operations.NormalizedCanonical` | libmapi/IUnknown.c:234-238 | The copied LongTermId keeps the GUID and the counter, has pad 0, is unchanged by a second normalisation, and equals the reply exactly when the reply's pad is already 0. |
| `LastError.StepRecordsCode` | libmapi/IUnknown.c:145-150 | A call either writes its MAPI code into the slot or leaves it. Only a remote call can record success (0). |
| `LastError.UnrecordedRunKeepsSlot` | libmapi/IUnknown.c:54-62 | Calls that do not record (successful allocations and frees) leave the slot unchanged. |
| `LastError.SlotMirrorsLatestRecordingCall` | libmapi/IUnknown.c:161-164 | After any run of calls, GetLastError's value is the code of the latest call that recorded one. |
| `LastError.RemoteCallDeterminesSlot` | libmapi/IUnknown.c:310-320 | Right after a remote call, the slot holds that call's code, whatever came before. |
| `IUnknown.MapiContext.Fail` | libmapi/IUnknown.c:38-46 | A taken MAPI_RETVAL_IF stores the code in the last-error slot and returns -1. |
| `IUnknown.MapiContext.AllocateBuffer` | libmapi/IUnknown.c:50-63 | The return value is `AllocateBufferOutcome`'s, which tests the allocation's result as intended (see Findings). On success it returns a fresh live buffer of the requested size, and null otherwise. The slot follows `LastError.Step`. |
| `IUnknown.MapiContext.FreeBuffer` | libmapi/IUnknown.c:82-92 | The return value is `FreeBufferReport`'s. The buffer is released exactly on success. The -1 from talloc_free is compared as a uint32. The slot follows `LastError.Step`. |
| `IUnknown.MapiContext.GetLastError` | libmapi/IUnknown.c:161-164 | Returns the slot's current value and modifies nothing. |
| `IUnknown.MapiContext.Release` | libmapi/IUnknown.c:112-152 | Return value, recorded code and sent request are `ReleaseOutcome`'s (the slot is 0 on success), and every opened arena is released. |
| `IUnknown.MapiContext.GetLongTermIdFromId` | libmapi/IUnknown.c:187-245 | Return value, recorded code and sent request are `LongTermIdFromIdOutcome`'s. On success the caller's struct equals the reply with pad 0, after a GUID copy and a six-step counter loop. On failure the struct and its counter array are unchanged. The arena count is restored. |
| `IUnknown.MapiContext.GetIdFromLongTermId` | libmapi/IUnknown.c:268-322 | Return value, recorded code and sent request are `IdFromLongTermIdOutcome`'s. On success `*id` is the reply's Id, and on failure it is unchanged. The arena count is restored. |

## Left out

- The restriction predicate structures that `torture/mapi_restrictions.c` fills in: that file is a test harness run against a live mail store. The restriction type is declared in headers that are not part of this model, and the predicate is evaluated by the server.
- `emsmdb_transaction`, the DCE/RPC transport and the NDR encoding of requests and replies: the transaction is the parameter `transact`, and requests and replies are datatypes, not bytes.
- talloc: `talloc_size` failing is the parameter `allocFails`, and `talloc_free` refusing is the parameter `freeFails`. The per-call arena is only a ghost counter. The reply's own allocation (`mapi_response`) is not tracked, so the model does not say whether it is freed on the remote-error paths (lines 232 and 313).
- `mapi_object_get_session` and `mapi_object_get_handle` are not part of this model. An object is the pair (has a session, handle), and a NULL object is taken to have no session. Under that assumption `Release` with NULL yields MAPI_E_INVALID_PARAMETER.
- `MAPIAllocateBuffer` with a NULL `ptr` (dereferenced at line 59) is undefined behaviour. The model returns the buffer as a result instead of writing through `ptr`.
- IUnknown.MapiContext.Fail: the body of `MAPI_RETVAL_IF` is not part of this model. `Fail` follows the doc comments (lines 38-46, 74-80, 102-110, 176-184, 257-266), which say only that -1 is returned and the code is read with GetLastError; it records the code in `errno`. The arena release is read from the macro's third argument (`mem_ctx` at lines 145, 230, 232, 311 and 313) and is done at the call sites, before `Fail`, not by `Fail` itself.
- IUnknown.MapiContext.GetLongTermIdFromId and IUnknown.MapiContext.GetIdFromLongTermId: the output pointers `long_term_id` and `id` are written at lines 234-238 and 315 without a NULL check, so a NULL pointer there is undefined behaviour. The model takes a non-null `LongTermIdSlot` or `IdSlot` and does not cover that case.
- IUnknown.MapiContext.AllocateBuffer: follows the corrected `AllocateBufferOutcome`, with the intended test `!*ptr` (see Findings). As written, lines 59-62 report a failed `talloc_size` as MAPI_E_SUCCESS, store NULL in `*ptr` and record nothing in `errno`; `AllocateBufferAsWritten` models that behaviour.
- LastError.Step: assumes that only the entry points write `errno`. In the library, `errno` is the C library's, and malloc inside `talloc_size`/`talloc_free` or the transport may also set it. For example, a failed allocation can leave ENOMEM there. `UnrecordedRunKeepsSlot` and `SlotMirrorsLatestRecordingCall` hold under that assumption. `Step` and `ReportOf` also take a failed allocation from the corrected `AllocateBufferOutcome`, so such a call records MAPI_E_NOT_ENOUGH_RESOURCES. As written (lines 59-62), it reports success and records nothing, and the last-error lemmas would then count it among the calls that leave the slot unchanged.
- IUnknown.MapiContext.FreeBuffer: requires that a non-null buffer is still live, because freeing it twice is undefined behaviour in the library.
- MAPI_E_SESSION_LIMIT appears in a doc comment (line 43), but no code path returns it.
- The MAPISTATUS values, opnums, `sizeof` values and the width of `mapi_request.length` come from headers that are not part of this model. The values used are those of [MS-OXCDATA] and [MS-OXCROPS], and the length is modelled with the `uint32_t` width of the size accumulator.
- That translating an id to a LongTermId and back returns the original id is a server guarantee, not something the client code promises.
- Concurrency: `errno` is process-wide and the model is sequential.

## Findings

| source | as written | input that shows it | evidently intended | confidence | as-written member | corrected member |
|---|---|---|---|---|---|---|
| libmapi/IUnknown.c:59-60 | `MAPI_RETVAL_IF(!ptr, ...)` tests the pointer that line 59 has just dereferenced, so a failed `talloc_size` returns MAPI_E_SUCCESS with `*ptr == NULL` | initialised context, `size = 1`, `talloc_size` returns NULL | test `!*ptr` and return MAPI_E_NOT_ENOUGH_RESOURCES | high; not executed | `Operations.AllocateBufferAsWrittenMasksFailure` | `Operations.AllocateBufferOutcome` |
