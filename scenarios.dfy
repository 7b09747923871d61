/**
 * Clients of the `Proposal` class: walks through the workflow that follow
 * from the actions' contracts alone.
 */
module Scenarios {
  import opened Wrappers
  import opened Models
  import opened Workflow
  import opened Proposals

  /**
   * A proposal that passes every step, with the evaluators' marks totalling
   * exactly 65 and the plagiarism figure at exactly 20, ends ACCEPTED at
   * step 6 with one entry for the submission and one per action.
   */
  method FullApproval(admin: User, owner: User, id: ProposalId) returns (p: Proposal)
    ensures p.status == Accepted && p.currentStep == LastStep
    ensures p.plagiarismPercentage == Some(20.0)
    ensures p.evaluator1Marks == Some(30.0) && p.evaluator2Marks == Some(35.0)
    ensures p.budgetFile == Some(FileRef("budget.pdf")) && p.revisedFile == None
    ensures |p.timeline| == 8
  {
    p := new Proposal.Submit(id, owner, "Title", "Description", FileRef("proposal.pdf"), None, None);
    var r := p.FormatCheck(admin, Some(true));
    assert r == Ok("moved to step 2") && p.currentStep == 2 && p.status == Pending && |p.timeline| == 2;
    r := p.PlagiarismCheck(admin, Some(20.0));
    assert r == Ok("moved to step 3") && p.currentStep == 3 && p.status == Pending && |p.timeline| == 3;
    r := p.Evaluate(admin, Some(30.0), Some(35.0));
    assert r == Ok("moved to step 4") && p.currentStep == 4 && p.status == Pending && |p.timeline| == 4;
    r := p.SeminarDecision(admin, Some(true), Some(true));
    assert r == Ok("moved to step 5") && p.currentStep == 5 && p.status == Pending && |p.timeline| == 5;
    r := p.UploadBudget(owner, Some(FileRef("budget.pdf")), None);
    assert r == Ok("files uploaded") && p.currentStep == 5 && p.status == Pending && |p.timeline| == 6;
    r := p.CommitteeDecision(admin, Some(true));
    assert r == Ok("moved to step 6") && p.currentStep == 6 && p.status == Pending && |p.timeline| == 7;
    r := p.RectorDecision(admin, Some(true));
    assert r == Ok("accepted");
  }

  /**
   * A plagiarism figure of 35 rejects at step 2 and keeps the figure; a later
   * evaluation is refused as the wrong step and logs nothing.
   */
  method PlagiarismRejection(admin: User, owner: User, id: ProposalId) returns (p: Proposal, late: ActionResult)
    ensures p.status == Rejected && p.currentStep == 2
    ensures p.plagiarismPercentage == Some(35.0)
    ensures late == InvalidStep && HttpStatus(late) == 400
    ensures |p.timeline| == 3
  {
    p := new Proposal.Submit(id, owner, "Title", "Description", FileRef("proposal.pdf"), None, None);
    var r := p.FormatCheck(admin, Some(true));
    r := p.PlagiarismCheck(admin, Some(35.0));
    late := p.Evaluate(admin, Some(50.0), Some(50.0));
  }

  /** Someone other than the owner cannot upload files at step 5, and nothing changes. */
  method UploadByStranger(admin: User, owner: User, stranger: User, id: ProposalId) returns (p: Proposal, r: ActionResult)
    requires stranger.id != owner.id
    ensures r == Forbidden && HttpStatus(r) == 403
    ensures p.currentStep == 5 && p.budgetFile == None && |p.timeline| == 5
  {
    p := new Proposal.Submit(id, owner, "Title", "Description", FileRef("proposal.pdf"), None, None);
    r := p.FormatCheck(admin, Some(true));
    r := p.PlagiarismCheck(admin, None);
    r := p.Evaluate(admin, Some(65.0), None);
    r := p.SeminarDecision(admin, Some(true), Some(true));
    r := p.UploadBudget(stranger, Some(FileRef("budget.pdf")), None);
  }
}
