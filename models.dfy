/**
 * The record shapes of the proposal app: the status and step choice tables,
 * the accounts that act on proposals, the timeline entry, and the mutable
 * part of a proposal as a value.
 */
module Models {
  import opened Wrappers

  type UserId = nat
  type ProposalId = nat

  /** The `role` of an account; every value other than ADMIN and PARTICIPANT is `OtherRole`. */
  datatype Role = Admin | Participant | OtherRole

  /** An authenticated account, compared by its primary key `id`. */
  datatype User = User(id: UserId, username: string, role: Role)

  /** An uploaded file, kept opaque. */
  datatype FileRef = FileRef(name: string)

  // ----- Status choice table -----

  datatype Status = Pending | Accepted | Rejected

  const DefaultStatus: Status := Pending

  /** The value stored in the `status` column. */
  function StatusCode(s: Status): string
  {
    match s
    case Pending => "PENDING"
    case Accepted => "ACCEPTED"
    case Rejected => "REJECTED"
  }

  /** Reads a stored `status` value back; anything outside the choice table is `None`. */
  function ParseStatus(c: string): (r: Option<Status>)
    ensures r.Some? <==> c == "PENDING" || c == "ACCEPTED" || c == "REJECTED"
  {
    if c == "PENDING" then Some(Pending)
    else if c == "ACCEPTED" then Some(Accepted)
    else if c == "REJECTED" then Some(Rejected)
    else None
  }

  lemma StatusCodeRoundTrip(s: Status)
    ensures ParseStatus(StatusCode(s)) == Some(s)
  {
  }

  lemma ParseStatusRoundTrip(c: string)
    requires ParseStatus(c).Some?
    ensures StatusCode(ParseStatus(c).value) == c
  {
  }

  // ----- Step choice table -----

  const FirstStep: int := 1
  const LastStep: int := 6
  const DefaultStep: int := FirstStep

  /** The display name of a step number; numbers outside the table have none. */
  function StepLabel(n: int): (r: Option<string>)
    ensures r.Some? <==> FirstStep <= n <= LastStep
  {
    if n == 1 then Some("Format Checking")
    else if n == 2 then Some("Plagiarism Checking")
    else if n == 3 then Some("Evaluation")
    else if n == 4 then Some("Seminar")
    else if n == 5 then Some("Research Committee")
    else if n == 6 then Some("Rector Approval")
    else None
  }

  /** The step number a display name belongs to. */
  function StepOf(name: string): (r: Option<int>)
    ensures r.Some? ==> FirstStep <= r.value <= LastStep
  {
    if name == "Format Checking" then Some(1)
    else if name == "Plagiarism Checking" then Some(2)
    else if name == "Evaluation" then Some(3)
    else if name == "Seminar" then Some(4)
    else if name == "Research Committee" then Some(5)
    else if name == "Rector Approval" then Some(6)
    else None
  }

  /** Every step has a name, and that name leads back to the step. */
  lemma StepLabelRoundTrip(n: int)
    requires FirstStep <= n <= LastStep
    ensures StepLabel(n).Some? && StepOf(StepLabel(n).value) == Some(n)
  {
  }

  /** Every name in the table is the name of exactly one step. */
  lemma StepOfRoundTrip(name: string)
    requires StepOf(name).Some?
    ensures StepLabel(StepOf(name).value) == Some(name)
  {
  }

  lemma StepLabelsDistinct(m: int, n: int)
    requires StepLabel(m).Some? && StepLabel(m) == StepLabel(n)
    ensures m == n
  {
    StepLabelRoundTrip(m);
    StepLabelRoundTrip(n);
  }

  // ----- Timeline entries -----

  /**
   * The free-text `details` of an entry. Two kinds embed a number the view
   * formats into its message (the plagiarism percentage, the total of marks);
   * the model keeps the number itself.
   */
  datatype Detail = Note(text: string) | PlagiarismNote(percentage: real) | MarksNote(total: real)

  /**
   * One row of the audit log. It belongs to exactly one proposal; `actor`
   * and `details` may be empty (the actor column is cleared when the account
   * is deleted).
   */
  datatype TimelineEntry = TimelineEntry(
    proposal: ProposalId,
    stepName: string,
    action: string,
    actor: Option<UserId>,
    details: Option<Detail>)

  /**
   * The columns of a proposal that the workflow writes, plus its timeline.
   * The fixed columns (id, participant, title, description, proposal file)
   * live on the `Proposal` class.
   */
  datatype ProposalState = ProposalState(
    status: Status,
    currentStep: int,
    plagiarismPercentage: Option<real>,
    evaluator1Marks: Option<real>,
    evaluator2Marks: Option<real>,
    revisedFile: Option<FileRef>,
    budgetFile: Option<FileRef>,
    timeline: seq<TimelineEntry>)
}
