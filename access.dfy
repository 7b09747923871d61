/**
 * Who may call which action of the proposal view set, and which proposals a
 * requester can see.
 */
module Access {
  import opened Models
  import opened Workflow
  import opened Proposals

  /** The user attached to a request: nobody, or a signed-in account. */
  datatype Requester = Anonymous | SignedIn(user: User)

  predicate IsAuthenticated(r: Requester)
  {
    r.SignedIn?
  }

  /** The admin permission class: a signed-in account with role ADMIN. */
  predicate IsAdminUser(r: Requester): (b: bool)
    ensures b ==> IsAuthenticated(r) && !IsParticipantUser(r)
  {
    r.SignedIn? && r.user.role == Admin
  }

  /** The participant permission class: a signed-in account with role PARTICIPANT. */
  predicate IsParticipantUser(r: Requester): (b: bool)
    ensures b ==> IsAuthenticated(r) && r.user.role != Admin
  {
    r.SignedIn? && r.user.role == Participant
  }

  datatype Permission = ParticipantOnly | AuthenticatedOnly | AdminOnly

  /** The permission an action name requires. */
  function RequiredPermission(action: string): (p: Permission)
    ensures p == ParticipantOnly <==> action == "create" || action == "upload_budget"
    ensures p == AuthenticatedOnly <==> action == "list" || action == "retrieve"
  {
    if action == "create" || action == "upload_budget" then ParticipantOnly
    else if action == "list" || action == "retrieve" then AuthenticatedOnly
    else AdminOnly
  }

  predicate Permits(p: Permission, r: Requester)
  {
    match p
    case ParticipantOnly => IsParticipantUser(r)
    case AuthenticatedOnly => IsAuthenticated(r)
    case AdminOnly => IsAdminUser(r)
  }

  predicate Allowed(action: string, r: Requester)
  {
    Permits(RequiredPermission(action), r)
  }

  /** Every step action is admin-only, except the budget upload, which is participant-only. */
  lemma StepActionPermissions(c: Command)
    ensures c.BudgetUpload? ==> RequiredPermission(ActionName(c)) == ParticipantOnly
    ensures !c.BudgetUpload? ==> RequiredPermission(ActionName(c)) == AdminOnly
  {
  }

  /** An anonymous request is allowed no action at all. */
  lemma AnonymousAllowedNothing(action: string)
    ensures !Allowed(action, Anonymous)
  {
  }

  /**
   * The two roles never share an action beyond reading: whoever may create a
   * proposal may not delete it or run any step of the review, and whoever may
   * run the review may not create or upload.
   */
  lemma RolesAreSeparate(action: string, r: Requester)
    requires Allowed("create", r)
    ensures Allowed(action, r) <==> RequiredPermission(action) != AdminOnly
  {
  }

  lemma AdminAllowedAllButSubmitting(action: string, r: Requester)
    requires IsAdminUser(r)
    ensures Allowed(action, r) <==> action != "create" && action != "upload_budget"
  {
  }

  /** The visibility rule of the queryset for a proposal owned by `owner`. */
  predicate Visible(r: Requester, owner: UserId): (b: bool)
    ensures b ==> IsAuthenticated(r)
    ensures IsAdminUser(r) ==> b
    ensures r.SignedIn? && r.user.id == owner ==> b
    ensures b && !IsAdminUser(r) ==> r.user.id == owner
  {
    match r
    case Anonymous => false
    case SignedIn(u) => u.role == Admin || owner == u.id
  }

  /**
   * The proposals a requester can list or retrieve:
   * none for an anonymous request, all for an admin, otherwise those the
   * requester submitted.
   */
  function Queryset(r: Requester, all: seq<Proposal>): (vs: seq<Proposal>)
    ensures forall i :: 0 <= i < |vs| ==> vs[i] in all && Visible(r, vs[i].participant)
    ensures forall i :: 0 <= i < |all| ==> (all[i] in vs <==> Visible(r, all[i].participant))
    ensures |vs| <= |all|
    ensures r.Anonymous? ==> vs == []
    ensures IsAdminUser(r) ==> vs == all
  {
    if all == [] then []
    else
      var rest := Queryset(r, all[1..]);
      if Visible(r, all[0].participant) then [all[0]] + rest else rest
  }

  /** A non-admin requester sees exactly the proposals they own. */
  lemma QuerysetOfParticipant(u: User, all: seq<Proposal>, p: Proposal)
    requires u.role != Admin
    ensures p in Queryset(SignedIn(u), all) <==> p in all && p.participant == u.id
  {
  }

  /**
   * A requester allowed to upload who can see the proposal is its owner, so
   * behind the permission and queryset checks the ownership test of the
   * upload action always passes.
   */
  lemma UploaderOwnsVisibleProposal(r: Requester, owner: UserId)
    requires Allowed("upload_budget", r)
    requires Visible(r, owner)
    ensures r.SignedIn? && r.user.id == owner
  {
  }
}
