/**
 Permission requests: the options offered for a review, and the operation each client outcome
 submits. Anything unexpected fails closed.
 */
module Approval {
  import opened Wrappers
  import opened UserInput

  datatype ReviewDecision =
    | Approved
    | ApprovedExecpolicyAmendment(commandPrefix: seq<string>)
    | ApprovedForSession
    | NetworkPolicyAmendment(host: string, allow: bool)
    | Denied(reason: string)
    | Abort
    | TimedOut

  datatype Outcome = Selected(optionId: string) | Cancelled | UnknownOutcome

  const APPROVED := "approved"
  const APPROVED_EXECPOLICY_AMENDMENT := "approved-execpolicy-amendment"
  const APPROVED_FOR_SESSION := "approved-for-session"
  const APPROVED_ALWAYS := "approved-always"
  const NETWORK_POLICY_AMENDMENT_ALLOW := "network-policy-amendment-allow"
  const NETWORK_POLICY_AMENDMENT_DENY := "network-policy-amendment-deny"
  const DENIED := "denied"
  const ABORT := "abort"
  const TIMED_OUT := "timed_out"
  const CANCEL := "cancel"

  type PermissionProfile = seq<string>

  datatype PermissionsResponse = PermissionsResponse(
    permissions: PermissionProfile, sessionScope: bool, strictAutoReview: bool)

  datatype ElicitationAction = Accept | Decline | CancelElicitation

  datatype ElicitationResolution = ElicitationResolution(action: ElicitationAction, persist: Option<string>)

  /** The id of an elicitation, as the server chose it. */
  datatype RequestId = StringId(value: string) | IntegerId(number: int)

  datatype Op =
    | ExecApproval(id: string, turnId: Option<string>, decision: ReviewDecision)
    | PatchApproval(id: string, decision: ReviewDecision)
    | RequestPermissionsResponse(id: string, response: PermissionsResponse)
    | ResolveElicitation(serverName: string, requestId: RequestId, resolution: ElicitationResolution)
    | UserInputAnswer(inputTurnId: string, answers: Answers)
    | UserTurn(items: string)
    | Interrupt
    | Shutdown

  datatype PermissionRequest =
    | Exec(approvalId: string, turnId: string, reviewOptions: map<string, ReviewDecision>)
    | Patch(callId: string, reviewOptions: map<string, ReviewDecision>)
    | RequestPermissions(callId: string, permissions: PermissionProfile)
    | McpElicitation(serverName: string, requestId: RequestId, resolutions: map<string, ElicitationResolution>)

  // ---------------------------------------------------------------------------------------------
  // Options

  function OptionId(d: ReviewDecision): string {
    match d
    case Approved => APPROVED
    case ApprovedExecpolicyAmendment(_) => APPROVED_EXECPOLICY_AMENDMENT
    case ApprovedForSession => APPROVED_FOR_SESSION
    case NetworkPolicyAmendment(_, allow) =>
      if allow then NETWORK_POLICY_AMENDMENT_ALLOW else NETWORK_POLICY_AMENDMENT_DENY
    case Denied(_) => DENIED
    case Abort => ABORT
    case TimedOut => TIMED_OUT
  }

  /** Options are collected in order, so a later decision takes over an option id. */
  function OptionMap(decisions: seq<ReviewDecision>): map<string, ReviewDecision> {
    if decisions == [] then map[]
    else
      var last := |decisions| - 1;
      OptionMap(decisions[..last])[OptionId(decisions[last]) := decisions[last]]
  }

  const PATCH_OPTIONS: map<string, ReviewDecision> :=
    map[APPROVED := Approved, DENIED := Denied("rejected by user")]

  function ElicitationOptions(allowSession: bool, allowAlways: bool): map<string, ElicitationResolution> {
    map[APPROVED := ElicitationResolution(Accept, None)]
    + (if allowSession then map[APPROVED_FOR_SESSION := ElicitationResolution(Accept, Some("session"))] else map[])
    + (if allowAlways then map[APPROVED_ALWAYS := ElicitationResolution(Accept, Some("always"))] else map[])
    + map[CANCEL := ElicitationResolution(CancelElicitation, None)]
  }

  function ExecRequest(
      callId: string, approvalId: Option<string>, turnId: string, decisions: seq<ReviewDecision>): PermissionRequest
  {
    Exec(if approvalId.Some? then approvalId.value else callId, turnId, OptionMap(decisions))
  }

  // ---------------------------------------------------------------------------------------------
  // From outcome to operation

  function ReviewDecisionFor(outcome: Outcome, options: map<string, ReviewDecision>): ReviewDecision {
    if outcome.Selected? && outcome.optionId in options then options[outcome.optionId] else Abort
  }

  function PermissionsResponseFor(outcome: Outcome, requested: PermissionProfile): PermissionsResponse {
    if outcome == Selected(APPROVED_FOR_SESSION) then PermissionsResponse(requested, true, false)
    else if outcome == Selected(APPROVED) then PermissionsResponse(requested, false, false)
    else PermissionsResponse([], false, true)
  }

  function ElicitationResolutionFor(outcome: Outcome, options: map<string, ElicitationResolution>): ElicitationResolution {
    if outcome.Selected? && outcome.optionId in options then options[outcome.optionId]
    else ElicitationResolution(CancelElicitation, None)
  }

  function OpFor(request: PermissionRequest, outcome: Outcome): Op {
    match request
    case Exec(approvalId, turnId, options) =>
      ExecApproval(approvalId, Some(turnId), ReviewDecisionFor(outcome, options))
    case Patch(callId, options) =>
      PatchApproval(callId, ReviewDecisionFor(outcome, options))
    case RequestPermissions(callId, permissions) =>
      RequestPermissionsResponse(callId, PermissionsResponseFor(outcome, permissions))
    case McpElicitation(serverName, requestId, options) =>
      ResolveElicitation(serverName, requestId, ElicitationResolutionFor(outcome, options))
  }

  /** What full-access mode approves without asking. */
  datatype AutoApproval = ExecAuto(id: string, turnId: string) | PatchAuto(id: string)

  function AutoApprovalOp(a: AutoApproval): Op {
    match a
    case ExecAuto(id, turnId) => ExecApproval(id, Some(turnId), Approved)
    case PatchAuto(id) => PatchApproval(id, Approved)
  }

  // ---------------------------------------------------------------------------------------------
  // Properties

  /** Option ids tell decisions apart up to their payload, and network amendments also by action. */
  lemma OptionIdTellsKind(a: ReviewDecision, b: ReviewDecision)
    ensures OptionId(a) == OptionId(b) <==>
              || (a.Approved? && b.Approved?)
              || (a.ApprovedExecpolicyAmendment? && b.ApprovedExecpolicyAmendment?)
              || (a.ApprovedForSession? && b.ApprovedForSession?)
              || (a.NetworkPolicyAmendment? && b.NetworkPolicyAmendment? && a.allow == b.allow)
              || (a.Denied? && b.Denied?)
              || (a.Abort? && b.Abort?)
              || (a.TimedOut? && b.TimedOut?)
  {
    assert |APPROVED| == 8 && |DENIED| == 6 && |ABORT| == 5 && |TIMED_OUT| == 9;
    assert |APPROVED_EXECPOLICY_AMENDMENT| == 29 && |APPROVED_FOR_SESSION| == 20;
    assert |NETWORK_POLICY_AMENDMENT_ALLOW| == 30 && |NETWORK_POLICY_AMENDMENT_DENY| == 29;
    assert APPROVED_EXECPOLICY_AMENDMENT[0] == 'a' && NETWORK_POLICY_AMENDMENT_DENY[0] == 'n';
  }

  ghost predicate IsLastWithId(decisions: seq<ReviewDecision>, id: string, k: int) {
    && 0 <= k < |decisions|
    && OptionId(decisions[k]) == id
    && forall j :: k < j < |decisions| ==> OptionId(decisions[j]) != id
  }

  /** An option id stands for the last decision carrying it. */
  lemma {:induction false} OptionMapKeepsLast(decisions: seq<ReviewDecision>, id: string, k: int)
    requires IsLastWithId(decisions, id, k)
    ensures id in OptionMap(decisions) && OptionMap(decisions)[id] == decisions[k]
  {
    var init := decisions[..|decisions| - 1];
    if k < |init| {
      assert IsLastWithId(init, id, k);
      OptionMapKeepsLast(init, id, k);
    }
  }

  lemma {:induction false} OptionMapOnlyOffers(decisions: seq<ReviewDecision>, id: string)
    requires id in OptionMap(decisions)
    ensures OptionMap(decisions)[id] in decisions && OptionId(OptionMap(decisions)[id]) == id
  {
    var last := |decisions| - 1;
    if OptionId(decisions[last]) != id {
      OptionMapOnlyOffers(decisions[..last], id);
    }
  }

  lemma {:induction false} OptionMapHasOffer(decisions: seq<ReviewDecision>, d: ReviewDecision)
    requires d in decisions
    ensures OptionId(d) in OptionMap(decisions)
  {
    var last := |decisions| - 1;
    if d != decisions[last] {
      OptionMapHasOffer(decisions[..last], d);
    }
  }

  /** The client chose an option, and this is the last decision offered under its id. */
  ghost predicate Chooses(outcome: Outcome, decisions: seq<ReviewDecision>, d: ReviewDecision) {
    outcome.Selected? && exists k :: IsLastWithId(decisions, outcome.optionId, k) && decisions[k] == d
  }

  lemma LastFurtherOn(decisions: seq<ReviewDecision>, id: string, k: int)
    requires decisions != [] && OptionId(decisions[|decisions| - 1]) != id
    requires IsLastWithId(decisions[..|decisions| - 1], id, k)
    ensures IsLastWithId(decisions, id, k)
  {
    hide OptionId;
  }

  lemma {:induction false} LastOffered(decisions: seq<ReviewDecision>, id: string) returns (k: int)
    requires id in OptionMap(decisions)
    ensures IsLastWithId(decisions, id, k)
  {
    hide OptionId;
    k := |decisions| - 1;
    if OptionId(decisions[k]) != id {
      var init := decisions[..k];
      k := LastOffered(init, id);
      LastFurtherOn(decisions, id, k);
    }
  }

  /**
   For every decision list and outcome: the decision submitted is the last one offered under the
   option chosen, and Abort when no option that was offered was chosen.
   */
  lemma SubmittedDecisionExactly(decisions: seq<ReviewDecision>, outcome: Outcome, d: ReviewDecision)
    ensures ReviewDecisionFor(outcome, OptionMap(decisions)) == d
       <==> Chooses(outcome, decisions, d) || (d == Abort && forall other :: !Chooses(outcome, decisions, other))
  {
    if outcome.Selected? && outcome.optionId in OptionMap(decisions) {
      var k := LastOffered(decisions, outcome.optionId);
      OptionMapKeepsLast(decisions, outcome.optionId, k);
      assert Chooses(outcome, decisions, decisions[k]);
    } else {
      forall other ensures !Chooses(outcome, decisions, other) {
        if Chooses(outcome, decisions, other) {
          OptionMapHasOffer(decisions, other);
          assert false;
        }
      }
    }
  }

  /** Anything but Abort was offered, and the client chose just it; a dismissed dialog aborts. */
  lemma DecisionWasOffered(decisions: seq<ReviewDecision>, outcome: Outcome)
    ensures var d := ReviewDecisionFor(outcome, OptionMap(decisions));
            d != Abort ==> outcome == Selected(OptionId(d)) && d in decisions
  {
    if outcome.Selected? && outcome.optionId in OptionMap(decisions) {
      OptionMapOnlyOffers(decisions, outcome.optionId);
    }
  }

  /** A patch is approved or denied by choosing so, and aborted otherwise. */
  lemma PatchDecisionExactly(outcome: Outcome)
    ensures ReviewDecisionFor(outcome, PATCH_OPTIONS)
         == match outcome
            case Selected(id) =>
              if id == "approved" then Approved else if id == "denied" then Denied("rejected by user") else Abort
            case _ => Abort
  {
    assert |APPROVED| == 8 && |DENIED| == 6;
  }

  /** Choosing option i submits decision i exactly when the last decision with its option id equals it. */
  lemma ChosenOptionSubmits(decisions: seq<ReviewDecision>, i: nat, last: int)
    requires i < |decisions| && IsLastWithId(decisions, OptionId(decisions[i]), last)
    ensures ReviewDecisionFor(Selected(OptionId(decisions[i])), OptionMap(decisions)) == decisions[i]
       <==> decisions[last] == decisions[i]
  {
    OptionMapKeepsLast(decisions, OptionId(decisions[i]), last);
  }

  /** With distinct option ids, choosing option i submits decision i. */
  lemma DistinctOptionsSubmitTheirOwn(decisions: seq<ReviewDecision>, i: nat)
    requires i < |decisions|
    requires forall j :: 0 <= j < |decisions| && j != i ==> OptionId(decisions[j]) != OptionId(decisions[i])
    ensures ReviewDecisionFor(Selected(OptionId(decisions[i])), OptionMap(decisions)) == decisions[i]
  {
    assert IsLastWithId(decisions, OptionId(decisions[i]), i);
    ChosenOptionSubmits(decisions, i, i);
  }

  /** Two amendments sharing an option id: choosing the first submits the second. */
  lemma SharedOptionIdTakesLast(first: seq<string>, second: seq<string>)
    requires first != second
    ensures var decisions := [ApprovedExecpolicyAmendment(first), ApprovedExecpolicyAmendment(second)];
            ReviewDecisionFor(Selected(OptionId(decisions[0])), OptionMap(decisions)) == decisions[1]
  {
    var decisions := [ApprovedExecpolicyAmendment(first), ApprovedExecpolicyAmendment(second)];
    OptionMapKeepsLast(decisions, OptionId(decisions[0]), 1);
  }

  /** A permissions reply grants the requested profile for the two approvals, and nothing otherwise. */
  lemma PermissionsGrantIsAllOrNothing(outcome: Outcome, requested: PermissionProfile)
    ensures var r := PermissionsResponseFor(outcome, requested);
            && r.permissions == (if r.strictAutoReview then [] else requested)
            && (!r.strictAutoReview <==> outcome in {Selected(APPROVED), Selected(APPROVED_FOR_SESSION)})
            && (r.sessionScope <==> outcome == Selected(APPROVED_FOR_SESSION))
  {
    assert |APPROVED| == 8 && |APPROVED_FOR_SESSION| == 20;
  }

  /** An elicitation is accepted, and persisted, only by choosing the offered option that says so. */
  lemma ElicitationAcceptedByOffer(outcome: Outcome, allowSession: bool, allowAlways: bool)
    ensures var r := ElicitationResolutionFor(outcome, ElicitationOptions(allowSession, allowAlways));
            && (r.action == Accept <==>
                  || outcome == Selected(APPROVED)
                  || (allowSession && outcome == Selected(APPROVED_FOR_SESSION))
                  || (allowAlways && outcome == Selected(APPROVED_ALWAYS)))
            && (r.action != Accept ==> r == ElicitationResolution(CancelElicitation, None))
            && r.persist == (if allowSession && outcome == Selected(APPROVED_FOR_SESSION) then Some("session")
                             else if allowAlways && outcome == Selected(APPROVED_ALWAYS) then Some("always")
                             else None)
  {
    assert |APPROVED| == 8 && |APPROVED_FOR_SESSION| == 20 && |APPROVED_ALWAYS| == 15 && |CANCEL| == 6;
    assert |"session"| == 7 && |"always"| == 6;
  }

  /**
   Full-access mode submits for a command what choosing "approved" would submit, exactly when that
   decision is among the available ones; otherwise the interactive path would abort.
   */
  lemma AutoApprovalMatchesInteractive(
      callId: string, approvalId: Option<string>, turnId: string, decisions: seq<ReviewDecision>)
    ensures var id := if approvalId.Some? then approvalId.value else callId;
            var interactive := OpFor(ExecRequest(callId, approvalId, turnId, decisions), Selected(APPROVED));
            && (interactive == AutoApprovalOp(ExecAuto(id, turnId)) <==> Approved in decisions)
            && (Approved !in decisions ==> interactive == ExecApproval(id, Some(turnId), Abort))
    ensures OpFor(Patch(callId, PATCH_OPTIONS), Selected(APPROVED)) == AutoApprovalOp(PatchAuto(callId))
  {
    var options := OptionMap(decisions);
    forall d | d in decisions ensures OptionId(d) == APPROVED <==> d == Approved {
      OptionIdTellsKind(d, Approved);
    }
    if Approved in decisions {
      OptionMapHasOffer(decisions, Approved);
    }
    if APPROVED in options {
      OptionMapOnlyOffers(decisions, APPROVED);
    }
    assert |APPROVED| == 8 && |DENIED| == 6;
  }
}
