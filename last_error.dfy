/**
 * The process-wide last-error slot (errno) across a sequence of calls.
 * A failing entry point returns -1 and records its MAPI code there; a
 * successful remote call clears it; MAPIAllocateBuffer and MAPIFreeBuffer do
 * not write it when they succeed; GetLastError only reads it.
 */
module LastError {
  import opened MapiTypes
  import opened Envelope
  import opened Operations

  /** One call of an entry point that may touch the slot, with the answers of its collaborators. */
  datatype Call =
    | AllocateBufferCall(size: uint32, allocFails: bool)
    | FreeBufferCall(isNull: bool, freeFails: bool)
    | ReleaseCall(obj: Option<MapiObject>, releaseTransact: MapiRequest -> Transaction<()>)
    | LongTermIdFromIdCall(obj: Option<MapiObject>, id: uint64,
                           fromIdTransact: MapiRequest -> Transaction<LongTermId>)
    | IdFromLongTermIdCall(obj: Option<MapiObject>, longTermId: LongTermId,
                           fromLongTermIdTransact: MapiRequest -> Transaction<uint64>)

  /** What the call reports: its return value and its MAPI code. */
  function ReportOf(initialized: bool, call: Call): (report: Report)
  {
    match call
    case AllocateBufferCall(size, allocFails) => AllocateBufferOutcome(initialized, size, allocFails).report
    case FreeBufferCall(isNull, freeFails) => FreeBufferReport(isNull, freeFails)
    case ReleaseCall(obj, t) => ReleaseOutcome(initialized, obj, t).report
    case LongTermIdFromIdCall(obj, id, t) => LongTermIdFromIdOutcome(initialized, obj, id, t).report
    case IdFromLongTermIdCall(obj, ltid, t) => IdFromLongTermIdOutcome(initialized, obj, ltid, t).report
  }

  /** The MAPI code the call stands for; GetLastError is how a caller sees it. */
  function CodeOf(initialized: bool, call: Call): (code: uint32)
  {
    ReportOf(initialized, call).code
  }

  /**
   * The slot after the call, given the slot before it: a failure writes its
   * code, a remote success writes 0, and MAPIAllocateBuffer and
   * MAPIFreeBuffer write nothing when they succeed.
   */
  function Step(initialized: bool, slot: uint32, call: Call): (slot': uint32)
  {
    var report := ReportOf(initialized, call);
    match call
    case AllocateBufferCall(_, _) => if report.returned == Success then slot else report.code
    case FreeBufferCall(_, _) => if report.returned == Success then slot else report.code
    case _ => report.code
  }

  /** Whether the call writes its code into the slot. */
  predicate Records(initialized: bool, call: Call)
  {
    match call
    case AllocateBufferCall(_, _) => ReportOf(initialized, call).returned != Success
    case FreeBufferCall(_, _) => ReportOf(initialized, call).returned != Success
    case _ => true
  }

  /** The slot after running the calls in order, starting from `slot`. */
  function Run(initialized: bool, slot: uint32, calls: seq<Call>): (slot': uint32)
    decreases |calls|
  {
    if calls == [] then slot
    else Run(initialized, Step(initialized, slot, calls[0]), calls[1..])
  }

  /** A failing call records its non-zero code, a remote success records 0. */
  lemma StepRecordsCode(initialized: bool, slot: uint32, call: Call)
    ensures Step(initialized, slot, call) == if Records(initialized, call) then CodeOf(initialized, call) else slot
    ensures Records(initialized, call) && CodeOf(initialized, call) == Success ==>
              call.ReleaseCall? || call.LongTermIdFromIdCall? || call.IdFromLongTermIdCall?
  {
  }

  /** A run of calls none of which records leaves the slot as it was. */
  lemma {:induction false} UnrecordedRunKeepsSlot(initialized: bool, slot: uint32, calls: seq<Call>)
    requires forall k :: 0 <= k < |calls| ==> !Records(initialized, calls[k])
    ensures Run(initialized, slot, calls) == slot
    decreases |calls|
  {
    if calls != [] {
      StepRecordsCode(initialized, slot, calls[0]);
      assert !Records(initialized, calls[0]);
      forall j | 0 <= j < |calls[1..]| ensures !Records(initialized, calls[1..][j]) {
        assert calls[1..][j] == calls[j + 1];
      }
      UnrecordedRunKeepsSlot(initialized, slot, calls[1..]);
    }
  }

  /**
   * What GetLastError returns after a run: the code of the latest call
   * that records one, whatever the slot held before.
   */
  lemma {:induction false} SlotMirrorsLatestRecordingCall(initialized: bool, slot: uint32, calls: seq<Call>, k: nat)
    requires k < |calls| && Records(initialized, calls[k])
    requires forall j :: k < j < |calls| ==> !Records(initialized, calls[j])
    ensures Run(initialized, slot, calls) == CodeOf(initialized, calls[k])
    decreases |calls|
  {
    var next := Step(initialized, slot, calls[0]);
    assert Run(initialized, slot, calls) == Run(initialized, next, calls[1..]);
    forall j | k <= j < |calls[1..]| ensures !Records(initialized, calls[1..][j]) {
      assert calls[1..][j] == calls[j + 1];
    }
    if k == 0 {
      StepRecordsCode(initialized, slot, calls[0]);
      UnrecordedRunKeepsSlot(initialized, next, calls[1..]);
    } else {
      assert calls[1..][k - 1] == calls[k];
      SlotMirrorsLatestRecordingCall(initialized, next, calls[1..], k - 1);
    }
  }

  /** Right after a remote call, GetLastError returns that call's code, whatever came before. */
  lemma RemoteCallDeterminesSlot(initialized: bool, slot: uint32, calls: seq<Call>, last: Call)
    requires last.ReleaseCall? || last.LongTermIdFromIdCall? || last.IdFromLongTermIdCall?
    ensures Run(initialized, slot, calls + [last]) == CodeOf(initialized, last)
  {
    var all := calls + [last];
    assert all[|all| - 1] == last;
    SlotMirrorsLatestRecordingCall(initialized, slot, all, |all| - 1);
  }
}
