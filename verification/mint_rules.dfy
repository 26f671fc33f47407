/** Minting a contribution, alone or split over two epochs' budgets, and the
    genesis distribution. */
module MintRules {
  import opened Wrappers
  import opened Types
  import opened Calc
  import opened LedgerSteps
  import opened AdvanceRules

  /** The contribution row as read at the start of the call. */
  datatype ContributionRow = ContributionRow(
    member: Member,
    isApproved: bool,
    ruleId: Option<string>,
    approvedAmount: Option<int>)

  datatype MintInput = MintInput(
    contributionId: nat,
    approverId: string,
    secondApproverId: Option<string>,
    proposalId: Option<nat>,
    advanceRequestId: Option<nat>)

  predicate ContributionMinted(mints: seq<MintEvent>, contributionId: nat) {
    exists i | 0 <= i < |mints| :: mints[i].leg.contributionId == Some(contributionId)
  }

  predicate ProposalConsumed(mints: seq<MintEvent>, proposalId: nat) {
    exists i | 0 <= i < |mints| :: mints[i].leg.proposalId == Some(proposalId)
  }

  /** The first rule with the id, None when there is none. */
  function RuleCeiling(rules: seq<Rule>, ruleId: Option<string>): Option<int> {
    if ruleId.None? || rules == [] then None
    else if rules[0].id == ruleId.value then Some(rules[0].tokenAmount)
    else RuleCeiling(rules[1..], ruleId)
  }

  // ---- Approval of related-party mints ----

  /** The proposal was recorded with 'approve' winning and quorum met. */
  predicate Passed(p: Proposal) {
    && p.status == Recorded
    && p.result.Some?
    && p.result.value.winner == "approve"
    && p.result.value.voterCount >= p.minimumVoters
  }

  predicate AuthorizesMember(proposals: seq<Proposal>, pid: nat, m: Member) {
    && pid < |proposals|
    && Passed(proposals[pid])
    && proposals[pid].kind.RelatedPartyMint?
    && proposals[pid].kind.recipient == m
  }

  function RequireRelatedPartyProposal(v: Tables, pid: nat, m: Member): Outcome {
    if !AuthorizesMember(v.proposals, pid, m) then Fail(ProposalRequired)
    else Need(!ProposalConsumed(v.ledger.mints, pid), Conflict)
  }

  function RelatedPartyGate(v: Tables, input: MintInput, m: Member, related: bool): Outcome {
    if !related then Pass
    else if input.proposalId.Some? then RequireRelatedPartyProposal(v, input.proposalId.value, m)
    else Need(input.secondApproverId.Some?, SecondApproverRequired)
  }

  // ---- Splitting over two budgets ----

  datatype Split = Split(regular: int, advance: int, requestId: Option<nat>)

  function VerifyAdvanceApproval(v: Tables, req: AdvanceRequest, epoch: Epoch, advance: int): Outcome {
    match CumulativeAdvanceRateBps(epoch.advancedMinted, advance, epoch.baseBudget)
    case Failure(e) => Fail(e)
    case Success(bps) =>
      match ResolveAdvanceApproval(bps, req.relatedParty, false)
      case SystemForbidden => Fail(AdvanceRateExceeded)
      case CommunityProposal =>
        Need(req.proposalId.Some? && IsRecorded(v.proposals, req.proposalId.value), ProposalRequired)
      case DualAdmin =>
        Need(req.secondApprovedBy.Some? && req.secondApprovedBy.value != req.requestedBy, SecondApproverRequired)
      case StandardRule => Pass
  }

  function ResolveSplit(v: Tables, input: MintInput, epoch: Epoch, amount: int): Result<Split> {
    var remaining := epoch.effectiveBudget - epoch.regularMinted;
    if amount <= remaining then Success(Split(amount, 0, None))
    else if input.advanceRequestId.None? then Failure(InsufficientBudget)
    else
      var rid := input.advanceRequestId.value;
      if rid >= |v.requests| then Failure(NotFound)
      else
        var req := v.requests[rid];
        if req.status != Approved || input.contributionId !in req.contributionIds then Failure(InvalidStatus)
        else
          var regular := Max(remaining, 0);
          var advance := amount - regular;
          if advance > AmountOf(req) then Failure(AdvanceCapExceeded)
          else
            var _ :- Checked(VerifyAdvanceApproval(v, req, epoch, advance));
            if epoch.debt > 0 then Failure(RollingAdvanceForbidden)
            else Success(Split(regular, advance, Some(rid)))
  }

  // ---- The contribution mint ----

  function ContributionLeg(v: Tables, input: MintInput, m: Member, id: nat, epoch: Epoch, related: bool,
                           source: BudgetSource, amount: int, requestId: Option<nat>): Leg {
    Leg(m, Some(id), epoch.number, Contribution, source, amount, v.policy.version, input.approverId,
        input.secondApproverId, related, Some(input.contributionId), input.proposalId, requestId)
  }

  /** The regular leg, if any, before the advance leg, if any. */
  function LegsOf(v: Tables, input: MintInput, m: Member, id: nat, epoch: Epoch, related: bool,
                  split: Split): seq<Leg> {
    (if split.regular > 0
     then [ContributionLeg(v, input, m, id, epoch, related, CurrentEpoch, split.regular, None)] else [])
    + (if split.advance > 0
       then [ContributionLeg(v, input, m, id, epoch, related, NextEpochAdvance, split.advance, split.requestId)]
       else [])
  }

  /** The checks on the contribution itself, its amount and its approvers. */
  function ContributionAmount(v: Tables, input: MintInput, c: ContributionRow, role: Option<Role>,
                              epoch: Epoch): Result<int> {
    var amount := c.approvedAmount.GetOr(0);
    var ceiling := RuleCeiling(v.policy.rules, c.ruleId);
    if amount <= 0 || ceiling.None? || amount > ceiling.value then Failure(RuleViolation)
    else
      var cap :- RateOf(epoch.baseBudget, v.policy.rates.memberCapBps);
      if Row(v.ledger.balances, c.member).earnedEpoch + amount > cap then Failure(MemberCapExceeded)
      else if input.secondApproverId == Some(input.approverId) then Failure(Forbidden)
      else if role.None? then Failure(NotFound)
      else
        var _ :- Checked(RelatedPartyGate(v, input, c.member, IsRelatedParty(role.value)));
        Success(amount)
  }

  function MintForContribution(v: Tables, input: MintInput, contribution: Option<ContributionRow>, role: Option<Role>):
      Result<(Tables, MintOutcome)> {
    var l := v.ledger;
    if contribution.None? then Failure(NotFound)
    else if !contribution.value.isApproved then Failure(NotApproved)
    else if ContributionMinted(l.mints, input.contributionId) then Failure(AlreadyMinted)
    else match ActiveEpoch(l.epochs)
      case None => Failure(EpochNotActive)
      case Some(id) =>
        var c := contribution.value;
        var epoch := l.epochs[id];
        var amount :- ContributionAmount(v, input, c, role, epoch);
        var split :- ResolveSplit(v, input, epoch, amount);
        if epoch.regularMinted + split.regular > epoch.effectiveBudget then Failure(InsufficientBudget)
        else if split.advance > 0 && epoch.advancedMinted + split.advance > epoch.maxAdvance
        then Failure(AdvanceCapExceeded)
        else
          var related := role.Some? && IsRelatedParty(role.value);
          var legs := LegsOf(v, input, c.member, id, epoch, related, split);
          var l' := PostMints(l, legs);
          var requests' := if split.requestId.Some? && split.advance > 0
                           then MarkExecuted(v.requests, split.requestId.value, split.advance) else v.requests;
          Success((v.(ledger := l', requests := requests'),
                   MintOutcome(seq(|legs|, i => |l.mints| + i),
                               Row(l.balances, c.member).total + amount, l.supply + amount)))
  }

  // ---- Genesis ----

  datatype Allocation = Allocation(member: Member, amount: int)

  predicate Seeded(mints: seq<MintEvent>) {
    exists i | 0 <= i < |mints| :: mints[i].leg.mintType == InitialAllocation
  }

  function GenesisLeg(a: Allocation, policyVersion: int, approvedBy: string): Leg {
    Leg(a.member, None, 0, InitialAllocation, CurrentEpoch, a.amount, policyVersion, approvedBy, None, false,
        None, None, None)
  }

  function GenesisLegs(allocations: seq<Allocation>, policyVersion: int, approvedBy: string): (legs: seq<Leg>)
    ensures |legs| == |allocations|
    ensures forall i | 0 <= i < |legs| :: legs[i] == GenesisLeg(allocations[i], policyVersion, approvedBy)
  {
    seq(|allocations|, i requires 0 <= i < |allocations| => GenesisLeg(allocations[i], policyVersion, approvedBy))
  }

  function MintInitialAllocation(v: Tables, allocations: seq<Allocation>, approvedBy: string):
      Result<(Tables, MintOutcome)> {
    if Seeded(v.ledger.mints) then Failure(AlreadyMinted)
    else if exists i | 0 <= i < |allocations| :: allocations[i].amount <= 0 then Failure(ValidationError)
    else
      var l' := PostMints(v.ledger, GenesisLegs(allocations, v.policy.version, approvedBy));
      var n := |v.ledger.mints|;
      var last := if allocations == [] then 0 else Row(l'.balances, allocations[|allocations| - 1].member).total;
      Success((v.(ledger := l'), MintOutcome(seq(|allocations|, i => n + i), last, l'.supply)))
  }
}
