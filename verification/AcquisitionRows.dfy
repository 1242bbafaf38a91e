/** The stored rows that the acquisition components share. */
module AcquisitionRows {
  import opened Common
  import JobLifecycle

  /** A field of a JSON payload; numbers, lists and nested objects are told apart only from text. */
  datatype Json = JsonNull | JsonBool(b: bool) | JsonInt(n: int) | JsonText(s: string) | JsonOther

  /** The text of a stored payload, which may be anything. */
  datatype PayloadText = Malformed | NotAnObject | Object(fields: map<string, Json>)

  /** The tolerant reading: whatever is not an object reads as the empty object. */
  function PayloadObject(text: PayloadText): map<string, Json> {
    if text.Object? then text.fields else map[]
  }

  function Field(text: PayloadText, name: string): Json {
    var fields := PayloadObject(text);
    if name in fields then fields[name] else JsonNull
  }

  datatype JobType = AcquisitionPlan | WebDiscovery | WebsiteVerify | CandidateAssess | OtherType(name: string)

  datatype JobRow = JobRow(
    id: string,
    tenant: string,
    jobType: JobType,
    status: JobLifecycle.Status,
    errorCode: string,
    payload: PayloadText,
    summary: PayloadText,
    createdAt: Time,
    updatedAt: Time,
    finishedAt: Option<Time>)

  datatype CandidateStatus = Discovered | Verifying | NeedsEvidence | Eligible | Rejected | Accepted | Promoted

  datatype MissionStatus = Draft | Queued | Running | Paused | Completed | Failed | Cancelled

  datatype CandidateRow = CandidateRow(id: string, tenant: string, missionId: string, status: CandidateStatus)

  /** Rows are identified by their primary key. */
  ghost predicate UniqueJobs(jobs: seq<JobRow>) {
    forall a, b :: a in jobs && b in jobs && a.id == b.id ==> a == b
  }

  ghost predicate UniqueCandidates(rows: seq<CandidateRow>) {
    forall i, j :: 0 <= i < j < |rows| ==> rows[i].id != rows[j].id
  }
}
