/**
 * The records the dashboard receives from the detection service: check
 * summaries, their file information and the API key descriptor. Wire
 * enumerations (status, priority) arrive as strings; the closed
 * enumerations and their parsers are given beside them. Dates are integer
 * timestamps (milliseconds since the epoch).
 */
module Types {
  import opened Wrappers

  type Timestamp = int

  /** The four states a check moves through. */
  datatype CheckStatus = Pending | Processing | Completed | Failed

  /** The wire name of a status. */
  function StatusName(s: CheckStatus): string {
    match s
    case Pending => "pending"
    case Processing => "processing"
    case Completed => "completed"
    case Failed => "failed"
  }

  /** The status a wire name denotes, if any. */
  function ParseStatus(name: string): (r: Option<CheckStatus>)
    ensures r.Some? ==> StatusName(r.value) == name
    ensures r.None? <==> name !in ["pending", "processing", "completed", "failed"]
  {
    if name == "pending" then Some(Pending)
    else if name == "processing" then Some(Processing)
    else if name == "completed" then Some(Completed)
    else if name == "failed" then Some(Failed)
    else None
  }

  lemma StatusNameRoundTrip(s: CheckStatus)
    ensures ParseStatus(StatusName(s)) == Some(s)
  {
  }

  /** A check's urgency. */
  datatype Priority = Low | Normal | High

  function PriorityName(p: Priority): string {
    match p
    case Low => "low"
    case Normal => "normal"
    case High => "high"
  }

  function ParsePriority(name: string): (r: Option<Priority>)
    ensures r.Some? ==> PriorityName(r.value) == name
    ensures r.None? <==> name !in ["low", "normal", "high"]
  {
    if name == "low" then Some(Low)
    else if name == "normal" then Some(Normal)
    else if name == "high" then Some(High)
    else None
  }

  /**
   * The stored file of a check. The record type declares the original name
   * and the file type as required, but the card guards both as possibly
   * missing, so they are optional here.
   */
  datatype FileInfo = FileInfo(
    id: string,
    originalFileName: Option<string>,
    storedFileName: string,
    fileSize: real,              // megabytes
    fileType: Option<string>,    // "pdf", "doc", "docx" or "txt"
    fileReference: Option<string>,
    eTag: Option<string>)

  /**
   * One check as the list endpoint returns it. `status` and `priority` are
   * the wire strings; `fileId`, `priority` and `planType` may be missing.
   */
  datatype CheckListItem = CheckListItem(
    id: string,
    checkId: string,
    userId: string,
    fileId: Option<FileInfo>,
    status: string,
    priority: Option<string>,
    planType: Option<string>,
    deliveryTime: Timestamp,
    createdAt: Timestamp)

  /** True when every status in the list is one of the four wire names. */
  predicate AllStatusesKnown(checks: seq<CheckListItem>) {
    forall i | 0 <= i < |checks| :: ParseStatus(checks[i].status).Some?
  }

  /** The configured API key's usage and state. */
  datatype ApiKeyDetails = ApiKeyDetails(
    id: string,
    userId: string,
    name: string,
    totalChecks: int,
    checksUsed: int,
    checksRemaining: int,
    status: string,              // "active", "inactive" or "expired"
    expiresAt: Timestamp,
    permissions: seq<string>,
    createdAt: Timestamp,
    updatedAt: Timestamp)
}
