# Proposal approval workflow — a Dafny model

This project models the core of a research-proposal management system: the
six-step approval state machine of `ProposalViewSet` (format check, plagiarism
check, evaluation, seminar, research committee, rector approval), the
append-only timeline that every handled action writes, the permission table
of the view set and the visibility rule of its queryset, together with the
record shapes and defaults of `Proposal` and `ProposalTimeline`.

Modules:

- `Wrappers` (`wrappers.dfy`): `Option`, for missing request fields and nullable columns.
- `Models` (`models.dfy`): the status and step choice tables, accounts and roles,
  timeline entries, and `ProposalState`, the workflow-written columns of a proposal as a value.
- `Workflow` (`workflow.dfy`): `Handle`, a pure function giving the next state and the
  response of one step action; `Consistent`, the invariant of every reachable proposal;
  lemmas about one action and about any sequence of actions (`Run`).
- `Proposals` (`proposal.dfy`): the `Proposal` class. Its constructor is submission;
  its methods are the step actions and `log_action`, updating the fields in place.
  Every action is tied to `Handle` by its postcondition and accepts a proposal in any
  state, as the view does. `Valid()` is the invariant of proposals that reached their
  step through the actions; each action keeps it when it held before.
- `Access` (`access.dfy`): the admin and participant permission classes, the
  action-to-permission table, and the queryset filter.
- `Scenarios` (`scenarios.dfy`): clients of the class that walk through the workflow.

The request is reduced to typed inputs. `accepted` and `attended` are `Option<bool>`,
and a missing value reads as False. `percentage`, `mark1` and `mark2` are `Option<real>`,
and a missing value reads as 0. Files are opaque `FileRef` values. The requester is a
`User` (id, username, role), or `Anonymous` for the visibility and permission rules.

Where the intended design and the code differ, the model follows
`proposals/views.py`:

- A REJECTED proposal is not terminal. No guard looks at `status`, so a rejected
  proposal can still advance, and a rector decision can turn ACCEPTED into REJECTED.
  The lemmas `GuardIgnoresStatus` and `RejectedProposalCanAdvance` state this behaviour.
  As for status, the invariant says only that an ACCEPTED proposal is at step 6.
- The evaluation step takes two marks and compares their sum with 65. It does not
  average the completed reviewer evaluations.
- No action writes a rejection reason. The seminar's reason is written only into the
  timeline entry's details.
- The reviewer invitations, tokens and the committee/rector review forms are not
  defined in `proposals/views.py`, so they are not part of this model.

## Model

| member | source | states |
|---|---|---|
| `Models.ParseStatus` | proposals/models.py:5-9 | a stored status value is recognised exactly when it is PENDING, ACCEPTED or REJECTED |
| `Models.StatusCodeRoundTrip` | proposals/models.py:5-9 | every status is stored as a code that reads back as that status |
| `Models.ParseStatusRoundTrip` | proposals/models.py:5-9 | every recognised code is the stored form of the status it reads as |
| `Models.StepLabel` | proposals/models.py:11-18 | a step number has a display name exactly when it is in 1..6 |
| `Models.StepOf` | proposals/models.py:11-18 | a display name in the table belongs to a step in 1..6 |
| `Models.StepLabelRoundTrip` | proposals/models.py:11-18 | each step's name leads back to that step |
| `Models.StepOfRoundTrip` | proposals/models.py:11-18 | each name in the table is the name of the step it leads to |
| `Models.StepLabelsDistinct` | proposals/models.py:11-18 | no two steps share a name |
| `Workflow.HttpStatus` | proposals/views.py:130-147 | 200 exactly for a handled action, 400 exactly for a wrong step, 403 exactly for a non-owner upload |
| `Workflow.RequiredStep` | proposals/views.py:48-183 | each action belongs to a step in 1..6; only the upload and the committee decision need step 5, only the rector decision needs step 6 |
| `Workflow.Handle` | proposals/views.py:48-183 | reference behaviour of the seven step actions; 403 exactly for an upload at step 5 by a non-owner, a status change is to REJECTED unless it is an accepting rector decision, and a step change goes to the step after the action's own |
| `Workflow.SeminarNeedsOnlyTheStep` | proposals/views.py:109-128 | a proposal at step 4 with no marks recorded still passes an attended, accepted seminar to step 5 |
| `Workflow.InitialStateConsistent` | proposals/models.py:30-36 | a new proposal (PENDING, step 1, no plagiarism figure, no marks, submission entry) satisfies the workflow invariant |
| `Workflow.StepGuard` | proposals/views.py:48-52 | an action is refused with "Invalid step" exactly when `current_step` is not its step, and then nothing changes and nothing is logged |
| `Workflow.GuardIgnoresStatus` | proposals/views.py:48-52 | whether an action is refused does not depend on `status` |
| `Workflow.RejectedProposalCanAdvance` | proposals/views.py:48-64 | a REJECTED proposal at step 1 still moves to step 2 on an accepting format check and stays REJECTED |
| `Workflow.OneEntryPerHandledAction` | proposals/views.py:39-46 | a handled action appends exactly one entry, for this proposal, with the requester as actor, keeping the earlier entries; a refused one leaves the state unchanged |
| `Workflow.StepNeverDecreases` | proposals/views.py:48-183 | no action lowers `current_step`, none raises it by more than one, and an action that moves the step leaves `status` alone |
| `Workflow.OnlyRectorAccepts` | proposals/views.py:167-183 | a proposal becomes ACCEPTED only through an accepting rector decision at step 6 |
| `Workflow.ConsistentPreserved` | proposals/views.py:48-183 | every action keeps the invariant: the step stays in 1..6, ACCEPTED only at step 6, past step 2 the plagiarism figure is at most 20, past step 3 the marks total at least 65, every entry belongs to the proposal |
| `Workflow.RunPreservesConsistent` | proposals/views.py:48-183 | any sequence of actions keeps the invariant |
| `Workflow.RunIsAppendOnly` | proposals/views.py:39-46 | over any sequence of actions the step never goes down, the earlier timeline stays a prefix, and exactly one entry is added per handled action |
| `Workflow.RunAcceptsOnlyThroughRector` | proposals/views.py:167-183 | a sequence of actions that makes a proposal ACCEPTED contains an accepting rector decision |
| `Workflow.AcceptedPassedEveryCheck` | proposals/views.py:66-107 | whatever was requested since submission, an ACCEPTED proposal is at step 6 and has a plagiarism figure of at most 20 and marks totalling at least 65 |
| `Proposals.Proposal.Submit` | proposals/views.py:35-37 | submission sets the submitter as participant, takes the defaults PENDING and step 1 with no plagiarism figure or marks, and logs one "Proposal Submitted" entry by the submitter |
| `Proposals.Proposal.ToString` | proposals/models.py:41-42 | the string form of a proposal is its title |
| `Proposals.Proposal.LogAction` | proposals/views.py:39-46 | appends one entry for this proposal with the given step name, action and details and the requester as actor; nothing else changes |
| `Proposals.Proposal.FormatCheck` | proposals/views.py:48-64 | wrong step: 400, no change; accepted: step 1 to 2, status kept; not accepted or missing: REJECTED at step 1; one entry when handled |
| `Proposals.Proposal.PlagiarismCheck` | proposals/views.py:66-84 | wrong step: 400, no change; the figure (0 when missing) is stored on both branches; above 20: REJECTED at step 2; 20 or less: step 3 |
| `Proposals.Proposal.Evaluate` | proposals/views.py:86-107 | wrong step: 400, no change; both marks (0 when missing) stored on both branches; sum below 65: REJECTED at step 3; 65 or more: step 4 |
| `Proposals.Proposal.SeminarDecision` | proposals/views.py:109-128 | wrong step: 400, no change; attended and accepted: step 4 to 5; otherwise REJECTED, logged "Not attended" when not attended, else "Faculty rejected" |
| `Proposals.Proposal.UploadBudget` | proposals/views.py:130-147 | the step is checked before ownership; a non-owner gets 403 and nothing changes; for the owner only the supplied file slots are replaced, status and step stay |
| `Proposals.Proposal.CommitteeDecision` | proposals/views.py:149-165 | wrong step: 400, no change; accepted: step 5 to 6, status kept; otherwise REJECTED at step 5 |
| `Proposals.Proposal.RectorDecision` | proposals/views.py:167-183 | wrong step: 400, no change; accepted: ACCEPTED, otherwise REJECTED; the step stays 6 either way |
| `Access.IsAdminUser` | proposals/views.py:7-9 | the admin permission admits only signed-in accounts, and never one the participant permission admits |
| `Access.IsParticipantUser` | proposals/views.py:11-13 | the participant permission admits only signed-in accounts whose role is not ADMIN |
| `Access.RequiredPermission` | proposals/views.py:26-33 | create and upload_budget need the participant permission, list and retrieve only authentication, every other action the admin permission |
| `Access.StepActionPermissions` | proposals/views.py:26-33 | every step action is admin-only except the budget upload, which is participant-only |
| `Access.AnonymousAllowedNothing` | proposals/views.py:7-13 | an anonymous request passes none of the permissions |
| `Access.RolesAreSeparate` | proposals/views.py:26-33 | whoever may create a proposal may do exactly the non-admin actions: no step decision and no delete |
| `Access.AdminAllowedAllButSubmitting` | proposals/views.py:26-33 | an admin may do every action except create and upload_budget |
| `Access.Visible` | proposals/views.py:18-24 | an anonymous request sees nothing, an admin sees every proposal, a signed-in account sees its own, and a non-admin sees nothing else |
| `Access.Queryset` | proposals/views.py:18-24 | the visible proposals are drawn from all proposals: none when anonymous, all for an admin, otherwise those whose participant is the requester |
| `Access.QuerysetOfParticipant` | proposals/views.py:18-24 | a non-admin sees a proposal exactly when it is theirs |
| `Access.UploaderOwnsVisibleProposal` | proposals/views.py:130-138 | a requester allowed to upload who can see a proposal is its owner, so the upload's ownership test never fails behind the permission and queryset checks |
| `Scenarios.FullApproval` | proposals/views.py:48-183 | passing every step, with plagiarism exactly 20 and marks totalling exactly 65, ends ACCEPTED at step 6 with eight timeline entries |
| `Scenarios.PlagiarismRejection` | proposals/views.py:66-84 | a figure of 35 rejects at step 2 and is kept; a later evaluation gets 400 |
| `Scenarios.UploadByStranger` | proposals/views.py:130-138 | at step 5 someone other than the owner gets 403 and no file is stored |

## Left out

- Email notifications (`proposals/services.py`): no step action of `proposals/views.py` calls them.
- HTTP caching headers (`proposals/middleware.py`) and URL routing (`proposals/urls.py`).
- Request parsing: the model takes `accepted` and `attended` as booleans, so it does not capture Python truthiness. Any truthy value reads as true, including the string "false" that a form-encoded `accepted=false` or `attended=false` sends. The source then accepts where the model rejects.
- Request parsing: an unparsable `percentage`, `mark1` or `mark2` makes `float(...)` raise `ValueError`. An explicit null makes `float(None)` raise `TypeError`. The model reads a missing value as 0 and reads a null as missing, so it has neither error.
- Floating point: percentages and marks are exact reals, so the model has no IEEE rounding near the limits 20 and 65 and no NaN. A percentage of "nan" passes the plagiarism check in the source, because `nan > 20` is false. A mark of "nan" passes the evaluation, because the sum is NaN and `NaN < 65` is false. So `Workflow.Consistent` and `Workflow.AcceptedPassedEveryCheck` hold only for numeric, non-NaN inputs.
- Workflow.AcceptedPassedEveryCheck: holds of the real-number model only; a NaN percentage or mark reaches ACCEPTED in the source without meeting the bounds it states.
- The free-text `details` of plagiarism and evaluation entries embed a formatted float. The model keeps the number (`PlagiarismNote`, `MarksNote`) and does not model the text formatting.
- Object lookup: the 404 for an unknown or invisible proposal, `save()`, timestamps (`created_at`, `updated_at`, `timestamp`) and file storage.
- `ProposalTimeline.__str__`, because it prints the timestamp, and timestamps are not modelled.
- The framework's choice between 401 and 403 for a refused permission. `Access.Allowed` only says whether the request is allowed.
- Generic update and delete of a proposal. The model assumes the serializer keeps `participant`, `status`, `current_step`, the plagiarism figure and the marks read-only. Creation may set the revised and budget files, so `Submit` takes them as inputs.
- Role values other than ADMIN and PARTICIPANT are one value, `OtherRole`. The timeline's actor being cleared when an account is deleted is not modelled.
- Concurrency and transactions: each action is one sequential read-decide-write.
- Notices, reviewer invitations and tokens, evaluator averages and rejection reasons: their code is not part of this model.
