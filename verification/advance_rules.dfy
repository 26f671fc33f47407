/** Advance requests: the approval state machine and the exactly-once mint. */
module AdvanceRules {
  import opened Wrappers
  import opened Types
  import opened Calc
  import opened LedgerSteps

  predicate IsRelatedParty(role: Role) {
    role == Owner || role == Manager
  }

  datatype AdvanceInput = AdvanceInput(
    member: Member,
    amount: int,
    requestedBy: string,
    special: bool,
    contributionIds: seq<nat>)

  datatype RequestSummary = RequestSummary(requestId: nat, status: RequestStatus)

  /** role is the member row of the target, None when there is no such member. */
  function CreateRequest(v: Tables, input: AdvanceInput, role: Option<Role>): Result<(Tables, RequestSummary)> {
    match ActiveEpoch(v.ledger.epochs)
    case None => Failure(EpochNotActive)
    case Some(id) =>
      var epoch := v.ledger.epochs[id];
      if epoch.debt > 0 then Failure(RollingAdvanceForbidden)
      else if role.None? then Failure(NotFound)
      else
        var related := IsRelatedParty(role.value);
        var bps :- CumulativeAdvanceRateBps(epoch.advancedMinted, input.amount, epoch.baseBudget);
        var status :- RouteOf(ResolveAdvanceApproval(bps, related, input.special));
        var row := AdvanceRequest(
          id, input.member, input.amount, None, Min(bps, HARD_CAP_BPS), input.contributionIds, status, related,
          input.requestedBy, None, None);
        Success((v.(requests := v.requests + [row]), RequestSummary(|v.requests|, status)))
  }

  function RouteOf(path: ApprovalPath): Result<RequestStatus> {
    match path
    case SystemForbidden => Failure(AdvanceRateExceeded)
    case StandardRule => Failure(Conflict)
    case DualAdmin => Success(PendingSecondApproval)
    case CommunityProposal => Success(PendingProposal)
  }

  function SecondApprove(v: Tables, rid: nat, approverId: string): Result<(Tables, RequestSummary)> {
    if rid >= |v.requests| then Failure(NotFound)
    else
      var req := v.requests[rid];
      if req.status == Approved then
        if req.secondApprovedBy == Some(approverId) then Success((v, RequestSummary(rid, Approved)))
        else Failure(InvalidStatus)
      else if req.status != PendingSecondApproval then Failure(InvalidStatus)
      else if approverId == req.requestedBy then Failure(Forbidden)
      else
        var row := req.(status := Approved, secondApprovedBy := Some(approverId));
        Success((v.(requests := v.requests[rid := row]), RequestSummary(rid, Approved)))
  }

  function AttachProposal(v: Tables, rid: nat, proposalId: nat): Result<(Tables, RequestSummary)> {
    if rid >= |v.requests| then Failure(NotFound)
    else
      var req := v.requests[rid];
      if req.proposalId == Some(proposalId) then Success((v, RequestSummary(rid, req.status)))
      else if req.status != PendingProposal then Failure(InvalidStatus)
      else if req.proposalId.Some? then Failure(Conflict)
      else
        var row := req.(proposalId := Some(proposalId));
        Success((v.(requests := v.requests[rid := row]), RequestSummary(rid, PendingProposal)))
  }

  function Reject(v: Tables, rid: nat): Result<(Tables, RequestSummary)> {
    if rid >= |v.requests| then Failure(NotFound)
    else
      var req := v.requests[rid];
      if req.status == Rejected then Success((v, RequestSummary(rid, Rejected)))
      else if req.status != PendingSecondApproval && req.status != PendingProposal then Failure(InvalidStatus)
      else
        Success((v.(requests := v.requests[rid := req.(status := Rejected)]), RequestSummary(rid, Rejected)))
  }

  // ---- Execution ----

  /** The mint event a request backs, None when it backs none. */
  function MintOfRequest(mints: seq<MintEvent>, rid: nat): (id: Option<nat>)
    ensures id.Some? ==> id.value < |mints| && mints[id.value].leg.requestId == Some(rid)
    ensures id.None? ==> forall i | 0 <= i < |mints| :: mints[i].leg.requestId != Some(rid)
  {
    if mints == [] then None
    else if mints[|mints| - 1].leg.requestId == Some(rid) then Some(|mints| - 1)
    else MintOfRequest(mints[..|mints| - 1], rid)
  }

  function ReplayOf(mints: seq<MintEvent>, i: nat): MintOutcome
    requires i < |mints|
  {
    MintOutcome([i], mints[i].balanceAfter, mints[i].supplyAfter)
  }

  function AmountOf(req: AdvanceRequest): int {
    req.approvedAmount.GetOr(req.requestedAmount)
  }

  predicate IsRecorded(proposals: seq<Proposal>, pid: nat) {
    pid < |proposals| && proposals[pid].status == Recorded
  }

  /** Which approval execution insists on, given the cumulative rate. */
  function ApprovalRecheck(v: Tables, req: AdvanceRequest, bps: int): Outcome {
    if req.proposalId.Some? then Need(IsRecorded(v.proposals, req.proposalId.value), ProposalRequired)
    else if bps > PROPOSAL_THRESHOLD_BPS || req.relatedParty then Fail(ProposalRequired)
    else Need(req.secondApprovedBy.Some? && req.secondApprovedBy.value != req.requestedBy, SecondApproverRequired)
  }

  function AdvanceLeg(req: AdvanceRequest, rid: nat, epoch: Epoch, amount: int, policyVersion: int): Leg {
    Leg(req.member, Some(req.epochId), epoch.number, SpecialReward, NextEpochAdvance, amount, policyVersion,
        req.requestedBy, req.secondApprovedBy, req.relatedParty, None, req.proposalId, Some(rid))
  }

  /** The stored row after its amount was minted. */
  function MarkExecuted(requests: seq<AdvanceRequest>, rid: nat, amount: int): seq<AdvanceRequest> {
    if rid < |requests| then
      requests[rid := requests[rid].(status := Executed, approvedAmount := Some(amount))]
    else requests
  }

  /** What runs once the epoch row is locked. req is the request row as it was
      read before the lock, which may by now be out of date. */
  function ExecuteLocked(v: Tables, rid: nat, req: AdvanceRequest): Result<(Tables, MintOutcome)> {
    var l := v.ledger;
    if req.epochId >= |l.epochs| || l.epochs[req.epochId].status != Active then Failure(EpochNotActive)
    else match MintOfRequest(l.mints, rid)
      case Some(i) => Success((v, ReplayOf(l.mints, i)))
      case None =>
        var epoch := l.epochs[req.epochId];
        var amount := AmountOf(req);
        if epoch.effectiveBudget - epoch.regularMinted >= amount then Failure(Conflict)
        else if epoch.debt > 0 then Failure(RollingAdvanceForbidden)
        else
          var bps :- CumulativeAdvanceRateBps(epoch.advancedMinted, amount, epoch.baseBudget);
          if bps > HARD_CAP_BPS || bps > v.policy.rates.maxAdvanceBps then Failure(AdvanceRateExceeded)
          else
            var _ :- Checked(ApprovalRecheck(v, req, bps));
            if epoch.advancedMinted + amount > epoch.maxAdvance then Failure(AdvanceCapExceeded)
            else
              var l' := PostMint(l, AdvanceLeg(req, rid, epoch, amount, v.policy.version));
              Success((v.(ledger := l', requests := MarkExecuted(v.requests, rid, amount)),
                       ReplayOf(l'.mints, |l.mints|)))
  }

  function Checked(o: Outcome): Result<()> {
    if o.Fail? then Failure(o.error) else Success(())
  }

  function Execute(v: Tables, rid: nat): Result<(Tables, MintOutcome)> {
    if rid >= |v.requests| then Failure(NotFound)
    else
      var req := v.requests[rid];
      if req.status == Executed then
        match MintOfRequest(v.ledger.mints, rid)
        case Some(i) => Success((v, ReplayOf(v.ledger.mints, i)))
        case None => Failure(Conflict)
      else if req.status != Approved then Failure(InvalidStatus)
      else ExecuteLocked(v, rid, req)
  }
}
