/**
 * A proposal record whose workflow columns and timeline the step actions of
 * the view set update in place. Each action is proved against
 * `Workflow.Handle`, accepts a proposal in any state, and keeps `Valid()`,
 * the invariant of every proposal that reached its step through the actions.
 */
module Proposals {
  import opened Wrappers
  import opened Models
  import opened Workflow

  class Proposal {
    // Columns no step action writes.
    const id: ProposalId
    const participant: UserId
    const title: string
    const description: string
    const proposalFile: FileRef

    // Columns the workflow writes.
    var status: Status
    var currentStep: int
    var plagiarismPercentage: Option<real>
    var evaluator1Marks: Option<real>
    var evaluator2Marks: Option<real>
    var revisedFile: Option<FileRef>
    var budgetFile: Option<FileRef>

    /** The rows of the timeline table that point at this proposal, oldest first. */
    var timeline: seq<TimelineEntry>

    function State(): ProposalState
      reads this
    {
      ProposalState(status, currentStep, plagiarismPercentage, evaluator1Marks, evaluator2Marks,
                    revisedFile, budgetFile, timeline)
    }

    ghost predicate Valid()
      reads this
    {
      Consistent(State(), id)
    }

    /**
     * Submission by a participant: the record takes its defaults (PENDING,
     * step 1, no plagiarism figure, no marks), the submitter becomes its
     * participant, and the submission is logged.
     */
    constructor Submit(id: ProposalId, submitter: User, title: string, description: string, proposalFile: FileRef,
                       revisedFile: Option<FileRef>, budgetFile: Option<FileRef>)
      ensures Valid()
      ensures this.id == id && participant == submitter.id
      ensures this.title == title && this.description == description && this.proposalFile == proposalFile
      ensures status == Pending && currentStep == 1
      ensures plagiarismPercentage == None && evaluator1Marks == None && evaluator2Marks == None
      ensures this.revisedFile == revisedFile && this.budgetFile == budgetFile
      ensures timeline == [SubmissionEntry(id, submitter)]
      ensures State() == InitialState(id, submitter, revisedFile, budgetFile)
    {
      this.id := id;
      participant := submitter.id;
      this.title := title;
      this.description := description;
      this.proposalFile := proposalFile;
      status := DefaultStatus;
      currentStep := DefaultStep;
      plagiarismPercentage, evaluator1Marks, evaluator2Marks := None, None, None;
      this.revisedFile := revisedFile;
      this.budgetFile := budgetFile;
      timeline := [];
      new;
      LogAction(submitter, "Submission", "Proposal Submitted", Note("Initial submission by " + submitter.username));
    }

    /** The string form of a proposal is its title. */
    function ToString(): (s: string)
      ensures s == title
    {
      title
    }

    /** Appends one timeline entry for this proposal, with `actor` as its actor; nothing else changes. */
    method LogAction(actor: User, stepName: string, action: string, details: Detail)
      modifies this
      ensures State() == Log(old(State()), Entry(id, actor, stepName, action, details))
      ensures timeline == old(timeline) + [TimelineEntry(id, stepName, action, Some(actor.id), Some(details))]
    {
      timeline := timeline + [Entry(id, actor, stepName, action, details)];
    }

    method FormatCheck(actor: User, accepted: Option<bool>) returns (r: ActionResult)
      modifies this
      ensures old(Valid()) ==> Valid()
      ensures Transition(State(), r) == Handle(old(State()), id, participant, actor, Format(accepted))
      ensures old(currentStep) != 1 ==> r == InvalidStep && State() == old(State())
      ensures old(currentStep) == 1 && accepted.GetOr(false) ==>
                currentStep == 2 && status == old(status) && r == Ok("moved to step 2")
      ensures old(currentStep) == 1 && !accepted.GetOr(false) ==>
                currentStep == 1 && status == Rejected && r == Ok("rejected")
      ensures old(currentStep) == 1 ==> |timeline| == |old(timeline)| + 1
    {
      if currentStep != 1 {
        return InvalidStep;
      }
      if accepted.GetOr(false) {
        currentStep := 2;
        LogAction(actor, "Format Check", "Accepted", Note("Format check passed"));
        r := Ok("moved to step 2");
      } else {
        status := Rejected;
        LogAction(actor, "Format Check", "Rejected", Note("Format check failed"));
        r := Ok("rejected");
      }
    }

    method PlagiarismCheck(actor: User, percentage: Option<real>) returns (r: ActionResult)
      modifies this
      ensures old(Valid()) ==> Valid()
      ensures Transition(State(), r) == Handle(old(State()), id, participant, actor, Plagiarism(percentage))
      ensures old(currentStep) != 2 ==> r == InvalidStep && State() == old(State())
      ensures old(currentStep) == 2 ==>
                plagiarismPercentage == Some(percentage.GetOr(0.0)) && |timeline| == |old(timeline)| + 1
      ensures old(currentStep) == 2 && percentage.GetOr(0.0) > PlagiarismLimit ==>
                currentStep == 2 && status == Rejected && r == Ok("rejected")
      ensures old(currentStep) == 2 && percentage.GetOr(0.0) <= PlagiarismLimit ==>
                currentStep == 3 && status == old(status) && r == Ok("moved to step 3")
    {
      if currentStep != 2 {
        return InvalidStep;
      }
      var p := percentage.GetOr(0.0);
      plagiarismPercentage := Some(p);
      if p > PlagiarismLimit {
        status := Rejected;
        LogAction(actor, "Plagiarism Check", "Rejected", PlagiarismNote(p));
        r := Ok("rejected");
      } else {
        currentStep := 3;
        LogAction(actor, "Plagiarism Check", "Accepted", PlagiarismNote(p));
        r := Ok("moved to step 3");
      }
    }

    method Evaluate(actor: User, mark1: Option<real>, mark2: Option<real>) returns (r: ActionResult)
      modifies this
      ensures old(Valid()) ==> Valid()
      ensures Transition(State(), r) == Handle(old(State()), id, participant, actor, Evaluation(mark1, mark2))
      ensures old(currentStep) != 3 ==> r == InvalidStep && State() == old(State())
      ensures old(currentStep) == 3 ==>
                && evaluator1Marks == Some(mark1.GetOr(0.0)) && evaluator2Marks == Some(mark2.GetOr(0.0))
                && |timeline| == |old(timeline)| + 1
      ensures old(currentStep) == 3 && mark1.GetOr(0.0) + mark2.GetOr(0.0) < PassingTotal ==>
                currentStep == 3 && status == Rejected && r == Ok("rejected")
      ensures old(currentStep) == 3 && mark1.GetOr(0.0) + mark2.GetOr(0.0) >= PassingTotal ==>
                currentStep == 4 && status == old(status) && r == Ok("moved to step 4")
    {
      if currentStep != 3 {
        return InvalidStep;
      }
      var m1, m2 := mark1.GetOr(0.0), mark2.GetOr(0.0);
      evaluator1Marks, evaluator2Marks := Some(m1), Some(m2);
      var total := m1 + m2;
      if total < PassingTotal {
        status := Rejected;
        LogAction(actor, "Evaluation", "Rejected", MarksNote(total));
        r := Ok("rejected");
      } else {
        currentStep := 4;
        LogAction(actor, "Evaluation", "Accepted", MarksNote(total));
        r := Ok("moved to step 4");
      }
    }

    method SeminarDecision(actor: User, attended: Option<bool>, accepted: Option<bool>) returns (r: ActionResult)
      modifies this
      ensures old(Valid()) ==> Valid()
      ensures Transition(State(), r) == Handle(old(State()), id, participant, actor, Seminar(attended, accepted))
      ensures old(currentStep) != 4 ==> r == InvalidStep && State() == old(State())
      ensures old(currentStep) == 4 && attended.GetOr(false) && accepted.GetOr(false) ==>
                currentStep == 5 && status == old(status) && r == Ok("moved to step 5")
      ensures old(currentStep) == 4 && !(attended.GetOr(false) && accepted.GetOr(false)) ==>
                && currentStep == 4 && status == Rejected && r == Ok("rejected")
                && timeline == old(timeline) + [Entry(id, actor, "Seminar", "Rejected",
                     Note(if !attended.GetOr(false) then "Not attended" else "Faculty rejected"))]
    {
      if currentStep != 4 {
        return InvalidStep;
      }
      var present, approved := attended.GetOr(false), accepted.GetOr(false);
      if !present || !approved {
        status := Rejected;
        var reason := if !present then "Not attended" else "Faculty rejected";
        LogAction(actor, "Seminar", "Rejected", Note(reason));
        r := Ok("rejected");
      } else {
        currentStep := 5;
        LogAction(actor, "Seminar", "Accepted", Note("Seminar successful"));
        r := Ok("moved to step 5");
      }
    }

    /** The step is checked before ownership; only the file slots supplied are replaced. */
    method UploadBudget(actor: User, newBudgetFile: Option<FileRef>, newRevisedFile: Option<FileRef>) returns (r: ActionResult)
      modifies this
      ensures old(Valid()) ==> Valid()
      ensures Transition(State(), r) == Handle(old(State()), id, participant, actor, BudgetUpload(newBudgetFile, newRevisedFile))
      ensures old(currentStep) != 5 ==> r == InvalidStep && State() == old(State())
      ensures old(currentStep) == 5 && actor.id != participant ==> r == Forbidden && State() == old(State())
      ensures old(currentStep) == 5 && actor.id == participant ==>
                && r == Ok("files uploaded")
                && status == old(status) && currentStep == old(currentStep)
                && budgetFile == (if newBudgetFile.Some? then newBudgetFile else old(budgetFile))
                && revisedFile == (if newRevisedFile.Some? then newRevisedFile else old(revisedFile))
                && |timeline| == |old(timeline)| + 1
    {
      if currentStep != 5 {
        return InvalidStep;
      }
      if actor.id != participant {
        return Forbidden;
      }
      if newBudgetFile.Some? {
        budgetFile := newBudgetFile;
      }
      if newRevisedFile.Some? {
        revisedFile := newRevisedFile;
      }
      LogAction(actor, "Research Committee", "Files Uploaded", Note("Budget and Revised Proposal uploaded"));
      r := Ok("files uploaded");
    }

    method CommitteeDecision(actor: User, accepted: Option<bool>) returns (r: ActionResult)
      modifies this
      ensures old(Valid()) ==> Valid()
      ensures Transition(State(), r) == Handle(old(State()), id, participant, actor, Committee(accepted))
      ensures old(currentStep) != 5 ==> r == InvalidStep && State() == old(State())
      ensures old(currentStep) == 5 && accepted.GetOr(false) ==>
                currentStep == 6 && status == old(status) && r == Ok("moved to step 6")
      ensures old(currentStep) == 5 && !accepted.GetOr(false) ==>
                currentStep == 5 && status == Rejected && r == Ok("rejected")
      ensures old(currentStep) == 5 ==> |timeline| == |old(timeline)| + 1
    {
      if currentStep != 5 {
        return InvalidStep;
      }
      if accepted.GetOr(false) {
        currentStep := 6;
        LogAction(actor, "Research Committee", "Accepted", Note("Committee approved budget"));
        r := Ok("moved to step 6");
      } else {
        status := Rejected;
        LogAction(actor, "Research Committee", "Rejected", Note("Committee rejected"));
        r := Ok("rejected");
      }
    }

    method RectorDecision(actor: User, accepted: Option<bool>) returns (r: ActionResult)
      modifies this
      ensures old(Valid()) ==> Valid()
      ensures Transition(State(), r) == Handle(old(State()), id, participant, actor, Rector(accepted))
      ensures old(currentStep) != 6 ==> r == InvalidStep && State() == old(State())
      ensures old(currentStep) == 6 ==> currentStep == 6 && |timeline| == |old(timeline)| + 1
      ensures old(currentStep) == 6 && accepted.GetOr(false) ==> status == Accepted && r == Ok("accepted")
      ensures old(currentStep) == 6 && !accepted.GetOr(false) ==> status == Rejected && r == Ok("rejected")
    {
      if currentStep != 6 {
        return InvalidStep;
      }
      if accepted.GetOr(false) {
        status := Accepted;
        LogAction(actor, "Rector Approval", "Accepted", Note("Final Approval. Report Generated."));
        r := Ok("accepted");
      } else {
        status := Rejected;
        LogAction(actor, "Rector Approval", "Rejected", Note("Rector rejected"));
        r := Ok("rejected");
      }
    }
  }
}
