/**
 * The six-step approval state machine of the proposal view set, as a pure
 * function from the proposal's state and one request to the next state and
 * the response. The `Proposal` class performs the same actions in place and
 * is proved against `Handle`.
 */
module Workflow {
  import opened Wrappers
  import opened Models

  /** A plagiarism percentage above this rejects; this value itself passes. */
  const PlagiarismLimit: real := 20.0
  /** A total of the two evaluators' marks below this rejects. */
  const PassingTotal: real := 65.0

  /**
   * A step action with its request inputs. Every input may be missing; the
   * view substitutes False for a missing flag and 0 for a missing number.
   */
  datatype Command =
    | Format(accepted: Option<bool>)
    | Plagiarism(percentage: Option<real>)
    | Evaluation(mark1: Option<real>, mark2: Option<real>)
    | Seminar(attended: Option<bool>, accepted: Option<bool>)
    | BudgetUpload(budgetFile: Option<FileRef>, revisedFile: Option<FileRef>)
    | Committee(accepted: Option<bool>)
    | Rector(accepted: Option<bool>)

  /** What an action answers: 200 with a status label, 400 "Invalid step" or 403 "Not authorized". */
  datatype ActionResult = Ok(message: string) | InvalidStep | Forbidden

  function HttpStatus(r: ActionResult): (code: int)
    ensures code == 200 <==> r.Ok?
    ensures code == 400 <==> r.InvalidStep?
    ensures code == 403 <==> r.Forbidden?
  {
    match r
    case Ok(_) => 200
    case InvalidStep => 400
    case Forbidden => 403
  }

  /** The route name of an action, which decides its permission. */
  function ActionName(c: Command): string
  {
    match c
    case Format(_) => "format_check"
    case Plagiarism(_) => "plagiarism_check"
    case Evaluation(_, _) => "evaluate"
    case Seminar(_, _) => "seminar_decision"
    case BudgetUpload(_, _) => "upload_budget"
    case Committee(_) => "committee_decision"
    case Rector(_) => "rector_decision"
  }

  /** The only value of `current_step` at which an action does anything. */
  function RequiredStep(c: Command): (n: int)
    ensures FirstStep <= n <= LastStep
    ensures n == 5 <==> c.BudgetUpload? || c.Committee?
    ensures n == LastStep <==> c.Rector?
  {
    match c
    case Format(_) => 1
    case Plagiarism(_) => 2
    case Evaluation(_, _) => 3
    case Seminar(_, _) => 4
    case BudgetUpload(_, _) => 5
    case Committee(_) => 5
    case Rector(_) => 6
  }

  datatype Transition = Transition(next: ProposalState, result: ActionResult)

  /** The entry `log_action` writes: the requesting user is the actor. */
  function Entry(id: ProposalId, actor: User, stepName: string, action: string, details: Detail): TimelineEntry
  {
    TimelineEntry(id, stepName, action, Some(actor.id), Some(details))
  }

  function Log(s: ProposalState, e: TimelineEntry): ProposalState
  {
    s.(timeline := s.timeline + [e])
  }

  /** The entry written when a participant submits a proposal. */
  function SubmissionEntry(id: ProposalId, submitter: User): TimelineEntry
  {
    Entry(id, submitter, "Submission", "Proposal Submitted", Note("Initial submission by " + submitter.username))
  }

  /**
   * A freshly submitted proposal: PENDING at step 1, no plagiarism figure and
   * no marks, the files the submitter supplied, and the submission entry.
   */
  function InitialState(id: ProposalId, submitter: User, revisedFile: Option<FileRef>, budgetFile: Option<FileRef>): ProposalState
  {
    ProposalState(DefaultStatus, DefaultStep, None, None, None, revisedFile, budgetFile, [SubmissionEntry(id, submitter)])
  }

  /**
   * One step action on a proposal `id` owned by `owner`, requested by `actor`.
   * The guard compares `current_step` only; `status` plays no part in it.
   */
  function Handle(s: ProposalState, id: ProposalId, owner: UserId, actor: User, c: Command): (t: Transition)
    ensures t.result.Forbidden? <==> s.currentStep == RequiredStep(c) && c.BudgetUpload? && actor.id != owner
    ensures t.next.status != s.status ==> t.next.status == Rejected || c == Rector(Some(true))
    ensures t.next.currentStep != s.currentStep ==> t.next.currentStep == RequiredStep(c) + 1
  {
    if s.currentStep != RequiredStep(c) then Transition(s, InvalidStep)
    else
      match c
      case Format(accepted) =>
        if accepted.GetOr(false) then
          Transition(Log(s.(currentStep := 2), Entry(id, actor, "Format Check", "Accepted", Note("Format check passed"))),
                     Ok("moved to step 2"))
        else
          Transition(Log(s.(status := Rejected), Entry(id, actor, "Format Check", "Rejected", Note("Format check failed"))),
                     Ok("rejected"))
      case Plagiarism(percentage) =>
        var p := percentage.GetOr(0.0);
        var recorded := s.(plagiarismPercentage := Some(p));
        if p > PlagiarismLimit then
          Transition(Log(recorded.(status := Rejected), Entry(id, actor, "Plagiarism Check", "Rejected", PlagiarismNote(p))),
                     Ok("rejected"))
        else
          Transition(Log(recorded.(currentStep := 3), Entry(id, actor, "Plagiarism Check", "Accepted", PlagiarismNote(p))),
                     Ok("moved to step 3"))
      case Evaluation(mark1, mark2) =>
        var m1, m2 := mark1.GetOr(0.0), mark2.GetOr(0.0);
        var recorded := s.(evaluator1Marks := Some(m1), evaluator2Marks := Some(m2));
        var total := m1 + m2;
        if total < PassingTotal then
          Transition(Log(recorded.(status := Rejected), Entry(id, actor, "Evaluation", "Rejected", MarksNote(total))),
                     Ok("rejected"))
        else
          Transition(Log(recorded.(currentStep := 4), Entry(id, actor, "Evaluation", "Accepted", MarksNote(total))),
                     Ok("moved to step 4"))
      case Seminar(attended, accepted) =>
        var present, approved := attended.GetOr(false), accepted.GetOr(false);
        if !present || !approved then
          var reason := if !present then "Not attended" else "Faculty rejected";
          Transition(Log(s.(status := Rejected), Entry(id, actor, "Seminar", "Rejected", Note(reason))),
                     Ok("rejected"))
        else
          Transition(Log(s.(currentStep := 5), Entry(id, actor, "Seminar", "Accepted", Note("Seminar successful"))),
                     Ok("moved to step 5"))
      case BudgetUpload(budgetFile, revisedFile) =>
        if actor.id != owner then Transition(s, Forbidden)
        else
          var uploaded := s.(budgetFile := if budgetFile.Some? then budgetFile else s.budgetFile,
                             revisedFile := if revisedFile.Some? then revisedFile else s.revisedFile);
          Transition(Log(uploaded, Entry(id, actor, "Research Committee", "Files Uploaded", Note("Budget and Revised Proposal uploaded"))),
                     Ok("files uploaded"))
      case Committee(accepted) =>
        if accepted.GetOr(false) then
          Transition(Log(s.(currentStep := 6), Entry(id, actor, "Research Committee", "Accepted", Note("Committee approved budget"))),
                     Ok("moved to step 6"))
        else
          Transition(Log(s.(status := Rejected), Entry(id, actor, "Research Committee", "Rejected", Note("Committee rejected"))),
                     Ok("rejected"))
      case Rector(accepted) =>
        if accepted.GetOr(false) then
          Transition(Log(s.(status := Accepted), Entry(id, actor, "Rector Approval", "Accepted", Note("Final Approval. Report Generated."))),
                     Ok("accepted"))
        else
          Transition(Log(s.(status := Rejected), Entry(id, actor, "Rector Approval", "Rejected", Note("Rector rejected"))),
                     Ok("rejected"))
  }

  /**
   * What every reachable proposal satisfies: the step is in the table, only a
   * proposal at the last step is ACCEPTED, a proposal past step 2 passed the
   * plagiarism limit, one past step 3 passed the marks threshold, and every
   * timeline entry belongs to the proposal.
   */
  ghost predicate Consistent(s: ProposalState, id: ProposalId)
  {
    && FirstStep <= s.currentStep <= LastStep
    && (s.status == Accepted ==> s.currentStep == LastStep)
    && (s.currentStep > 2 ==> s.plagiarismPercentage.Some? && s.plagiarismPercentage.value <= PlagiarismLimit)
    && (s.currentStep > 3 ==> s.evaluator1Marks.Some? && s.evaluator2Marks.Some?
                              && s.evaluator1Marks.value + s.evaluator2Marks.value >= PassingTotal)
    && forall i :: 0 <= i < |s.timeline| ==> s.timeline[i].proposal == id
  }

  // ----- Properties of one action -----

  lemma InitialStateConsistent(id: ProposalId, submitter: User, revisedFile: Option<FileRef>, budgetFile: Option<FileRef>)
    ensures Consistent(InitialState(id, submitter, revisedFile, budgetFile), id)
  {
  }

  /**
   * The step guard: an action is refused exactly when `current_step` is not
   * its step, and a refused action changes nothing and logs nothing.
   */
  lemma StepGuard(s: ProposalState, id: ProposalId, owner: UserId, actor: User, c: Command)
    ensures Handle(s, id, owner, actor, c).result.InvalidStep? <==> s.currentStep != RequiredStep(c)
    ensures s.currentStep != RequiredStep(c) ==> Handle(s, id, owner, actor, c).next == s
  {
  }

  /** The guard never looks at `status`: the same request is refused or let through whatever the status. */
  lemma GuardIgnoresStatus(s: ProposalState, st: Status, id: ProposalId, owner: UserId, actor: User, c: Command)
    ensures Handle(s.(status := st), id, owner, actor, c).result.InvalidStep?
        == Handle(s, id, owner, actor, c).result.InvalidStep?
  {
  }

  /** A REJECTED proposal is not terminal: passing the format check still moves it on. */
  lemma RejectedProposalCanAdvance(s: ProposalState, id: ProposalId, owner: UserId, actor: User)
    requires s.status == Rejected && s.currentStep == 1
    ensures Handle(s, id, owner, actor, Format(Some(true))).next.currentStep == 2
    ensures Handle(s, id, owner, actor, Format(Some(true))).next.status == Rejected
  {
  }

  /**
   * The guard needs nothing of the earlier steps: a proposal put at step 4
   * with no marks recorded still passes a seminar it attended and that was
   * accepted.
   */
  lemma SeminarNeedsOnlyTheStep(s: ProposalState, id: ProposalId, owner: UserId, actor: User)
    requires s.currentStep == 4 && s.evaluator1Marks == None && s.evaluator2Marks == None
    ensures Handle(s, id, owner, actor, Seminar(Some(true), Some(true))).next.currentStep == 5
    ensures Handle(s, id, owner, actor, Seminar(Some(true), Some(true))).result == Ok("moved to step 5")
  {
  }

  /**
   * An action that is answered 200 appends exactly one entry, for this
   * proposal, with the requester as actor; any other answer leaves the state
   * as it was.
   */
  lemma OneEntryPerHandledAction(s: ProposalState, id: ProposalId, owner: UserId, actor: User, c: Command)
    ensures var t := Handle(s, id, owner, actor, c);
      if t.result.Ok? then
        && |t.next.timeline| == |s.timeline| + 1
        && t.next.timeline[..|s.timeline|] == s.timeline
        && t.next.timeline[|s.timeline|].proposal == id
        && t.next.timeline[|s.timeline|].actor == Some(actor.id)
      else t.next == s
  {
  }

  /**
   * No action lowers `current_step`; an action raises it by one at most, and
   * never in the same action that changes `status`.
   */
  lemma StepNeverDecreases(s: ProposalState, id: ProposalId, owner: UserId, actor: User, c: Command)
    ensures var n := Handle(s, id, owner, actor, c).next;
      && s.currentStep <= n.currentStep <= s.currentStep + 1
      && (n.currentStep != s.currentStep ==> n.status == s.status)
  {
  }

  /** Only an accepting rector decision at step 6 makes a proposal ACCEPTED. */
  lemma OnlyRectorAccepts(s: ProposalState, id: ProposalId, owner: UserId, actor: User, c: Command)
    requires s.status != Accepted
    requires Handle(s, id, owner, actor, c).next.status == Accepted
    ensures c == Rector(Some(true)) && s.currentStep == LastStep
  {
  }

  lemma ConsistentPreserved(s: ProposalState, id: ProposalId, owner: UserId, actor: User, c: Command)
    requires Consistent(s, id)
    ensures Consistent(Handle(s, id, owner, actor, c).next, id)
  {
    var t := Handle(s, id, owner, actor, c);
    if t.result.Ok? {
      OneEntryPerHandledAction(s, id, owner, actor, c);
      forall i | 0 <= i < |t.next.timeline|
        ensures t.next.timeline[i].proposal == id
      {
        if i < |s.timeline| {
          assert t.next.timeline[i] == t.next.timeline[..|s.timeline|][i];
        }
      }
    }
  }

  // ----- Sequences of requests -----

  datatype Request = Request(actor: User, command: Command)

  datatype Trace = Trace(final: ProposalState, results: seq<ActionResult>)

  /** Handles the requests one after another, in order. */
  function Run(s: ProposalState, id: ProposalId, owner: UserId, rs: seq<Request>): (t: Trace)
    ensures |t.results| == |rs|
    decreases |rs|
  {
    if rs == [] then Trace(s, [])
    else
      var first := Handle(s, id, owner, rs[0].actor, rs[0].command);
      var rest := Run(first.next, id, owner, rs[1..]);
      Trace(rest.final, [first.result] + rest.results)
  }

  function OkCount(results: seq<ActionResult>): nat
  {
    if results == [] then 0 else (if results[0].Ok? then 1 else 0) + OkCount(results[1..])
  }

  lemma {:induction false} RunPreservesConsistent(s: ProposalState, id: ProposalId, owner: UserId, rs: seq<Request>)
    requires Consistent(s, id)
    ensures Consistent(Run(s, id, owner, rs).final, id)
    decreases |rs|
  {
    if rs != [] {
      ConsistentPreserved(s, id, owner, rs[0].actor, rs[0].command);
      RunPreservesConsistent(Handle(s, id, owner, rs[0].actor, rs[0].command).next, id, owner, rs[1..]);
    }
  }

  /**
   * Over any sequence of requests the step never goes down, the old timeline
   * stays a prefix of the new one, and exactly one entry is added per request
   * answered 200.
   */
  lemma {:induction false} RunIsAppendOnly(s: ProposalState, id: ProposalId, owner: UserId, rs: seq<Request>)
    ensures var t := Run(s, id, owner, rs);
      && s.currentStep <= t.final.currentStep
      && s.timeline <= t.final.timeline
      && |t.final.timeline| == |s.timeline| + OkCount(t.results)
    decreases |rs|
  {
    if rs != [] {
      var first := Handle(s, id, owner, rs[0].actor, rs[0].command);
      StepNeverDecreases(s, id, owner, rs[0].actor, rs[0].command);
      OneEntryPerHandledAction(s, id, owner, rs[0].actor, rs[0].command);
      RunIsAppendOnly(first.next, id, owner, rs[1..]);
      var t := Run(s, id, owner, rs);
      assert t.results == [first.result] + Run(first.next, id, owner, rs[1..]).results;
      assert s.timeline <= first.next.timeline;
    }
  }

  /** A proposal that was not ACCEPTED becomes so only through some accepting rector decision. */
  lemma {:induction false} RunAcceptsOnlyThroughRector(s: ProposalState, id: ProposalId, owner: UserId, rs: seq<Request>)
    requires s.status != Accepted
    requires Run(s, id, owner, rs).final.status == Accepted
    ensures exists i :: 0 <= i < |rs| && rs[i].command == Rector(Some(true))
    decreases |rs|
  {
    var first := Handle(s, id, owner, rs[0].actor, rs[0].command);
    if first.next.status == Accepted {
      OnlyRectorAccepts(s, id, owner, rs[0].actor, rs[0].command);
      assert rs[0].command == Rector(Some(true));
    } else {
      RunAcceptsOnlyThroughRector(first.next, id, owner, rs[1..]);
      var i :| 0 <= i < |rs[1..]| && rs[1..][i].command == Rector(Some(true));
      assert rs[i + 1].command == Rector(Some(true));
    }
  }

  /**
   * Whatever was requested since submission, an ACCEPTED proposal is at step 6
   * with a plagiarism figure within the limit and marks totalling at least 65.
   */
  lemma AcceptedPassedEveryCheck(id: ProposalId, submitter: User, revisedFile: Option<FileRef>, budgetFile: Option<FileRef>, rs: seq<Request>)
    requires Run(InitialState(id, submitter, revisedFile, budgetFile), id, submitter.id, rs).final.status == Accepted
    ensures var f := Run(InitialState(id, submitter, revisedFile, budgetFile), id, submitter.id, rs).final;
      && f.currentStep == LastStep
      && f.plagiarismPercentage.Some? && f.plagiarismPercentage.value <= PlagiarismLimit
      && f.evaluator1Marks.Some? && f.evaluator2Marks.Some?
      && f.evaluator1Marks.value + f.evaluator2Marks.value >= PassingTotal
  {
    InitialStateConsistent(id, submitter, revisedFile, budgetFile);
    RunPreservesConsistent(InitialState(id, submitter, revisedFile, budgetFile), id, submitter.id, rs);
  }
}
